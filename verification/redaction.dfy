/** The sensitive-data filter of the LLM gateway client
    (`filterSensitiveData`). Each regular expression of the source is written
    out as a scanner: `MatchAt` gives the match the backtracking engine finds
    when it starts at a position, and `Scan` is `String.prototype.replace` with
    the `g` flag — leftmost matches, replaced one after the other, the search
    resuming where the previous match ended. */
module Redaction {
  import opened Wrappers
  import opened Text

  // ---------------------------------------------------------------------
  // Character classes
  // ---------------------------------------------------------------------

  predicate IsAsciiLetter(c: char) {
    'A' <= c <= 'Z' || 'a' <= c <= 'z'
  }

  /** `\w`. */
  predicate IsWordChar(c: char) {
    IsAsciiLetter(c) || IsDigit(c) || c == '_'
  }

  /** `[A-Za-z0-9_-]`, the class of API keys and JWT segments. */
  predicate IsKeyChar(c: char) {
    IsWordChar(c) || c == '-'
  }

  /** `[A-Za-z0-9_.-]`, the class of a Bearer credential. */
  predicate IsTokenChar(c: char) {
    IsKeyChar(c) || c == '.'
  }

  predicate IsQuote(c: char) {
    c == '\'' || c == '"'
  }

  predicate IsNotQuote(c: char) {
    !IsQuote(c)
  }

  /** `[^\s,}]`, an unquoted value character. */
  predicate IsBareValueChar(c: char) {
    !IsSpace(c) && c != ',' && c != '}'
  }

  /** The end of the longest run of characters satisfying `p` from `i`. */
  function RunEnd(s: string, i: nat, p: char -> bool): (j: nat)
    requires i <= |s|
    ensures i <= j <= |s|
    ensures forall k :: i <= k < j ==> p(s[k])
    ensures j == |s| || !p(s[j])
    decreases |s| - i
  {
    if i == |s| || !p(s[i]) then i else RunEnd(s, i + 1, p)
  }

  /** `\b` at position `k`: a word character on exactly one side. */
  predicate WordAt(s: string, k: int) {
    0 <= k < |s| && IsWordChar(s[k])
  }

  predicate Boundary(s: string, k: int) {
    WordAt(s, k - 1) != WordAt(s, k)
  }

  /** The largest position in `[lo, j]` with a word boundary, as the engine
      finds it by giving back characters of a greedy run. */
  function LastBoundary(s: string, lo: nat, j: nat): (r: Option<nat>)
    requires lo <= j
    ensures r.Some? ==> lo <= r.value <= j && Boundary(s, r.value)
    ensures r.Some? ==> forall k :: r.value < k <= j ==> !Boundary(s, k)
    ensures r.None? ==> forall k :: lo <= k <= j ==> !Boundary(s, k)
    decreases j - lo
  {
    if Boundary(s, j) then Some(j)
    else if j == lo then None
    else LastBoundary(s, lo, j - 1)
  }

  // ---------------------------------------------------------------------
  // The passes
  // ---------------------------------------------------------------------

  /** One regular expression of the filter with its replacement. */
  datatype Pass =
    | LongToken                                  // /\b[A-Za-z0-9_-]{20,}\b/g
    | Bearer                                     // /Bearer\s+[A-Za-z0-9_.-]+/gi
    | Jwt                                        // /eyJ[..]*\.eyJ[..]*\.[..]*/g
    | KeyValue(keyword: string, placeholder: string)
                                                 // /(['"]?kw['"]?\s*[:=]\s*)(['"][^'"]*['"]|[^\s,}]+)/gi

  /** A match: where it ends and the text that replaces it. */
  datatype Match = Match(end: nat, replacement: string)

  const KeyPlaceholder := "[REDACTED_KEY]"
  const BearerReplacement := "Bearer [REDACTED_TOKEN]"
  const JwtPlaceholder := "[REDACTED_JWT]"

  /** The literal text every replacement of a pass ends with. */
  function Placeholder(p: Pass): string {
    match p
    case LongToken => KeyPlaceholder
    case Bearer => BearerReplacement
    case Jwt => JwtPlaceholder
    case KeyValue(_, ph) => ph
  }

  /** `\b[A-Za-z0-9_-]{20,}\b` at `i`: a word boundary, then the greedy run of
      key characters, shortened to the last word boundary that leaves at least
      twenty of them. */
  function LongTokenAt(s: string, i: nat): (r: Option<Match>)
    requires i <= |s|
    ensures r.Some? ==> i + 20 <= r.value.end <= |s| && Boundary(s, i) && Boundary(s, r.value.end)
    ensures r.Some? ==> (forall k :: i <= k < r.value.end ==> IsKeyChar(s[k]))
    ensures r.Some? ==> r.value.replacement == KeyPlaceholder
  {
    if !Boundary(s, i) then None
    else
      var run := RunEnd(s, i, IsKeyChar);
      if run < i + 20 then None
      else
        match LastBoundary(s, i + 20, run)
        case Some(b) => Some(Match(b, KeyPlaceholder))
        case None => None
  }

  /** `Bearer\s+[A-Za-z0-9_.-]+` (case-insensitive) at `i`. Both runs are
      greedy and what follows each of them cannot start with a character of
      the run, so the engine never backtracks into them. */
  function BearerAt(s: string, i: nat): (r: Option<Match>)
    requires i <= |s|
    ensures r.Some? <==>
      (OccursAtIgnoreCase(s, "bearer", i)
       && var w := RunEnd(s, i + 6, IsSpace); w > i + 6 && w < |s| && IsTokenChar(s[w]))
    ensures r.Some? ==> r.value.end <= |s| && r.value.replacement == BearerReplacement
    ensures r.Some? ==> r.value.end == RunEnd(s, RunEnd(s, i + 6, IsSpace), IsTokenChar)
  {
    if !OccursAtIgnoreCase(s, "bearer", i) then None
    else
      var w := RunEnd(s, i + 6, IsSpace);
      if w == i + 6 then None
      else
        var t := RunEnd(s, w, IsTokenChar);
        if t == w then None else Some(Match(t, BearerReplacement))
  }

  /** `eyJ[A-Za-z0-9_-]*\.eyJ[A-Za-z0-9_-]*\.[A-Za-z0-9_-]*` at `i`: three
      dot-separated segments of key characters, the first two starting with
      `eyJ`. */
  function JwtAt(s: string, i: nat): (r: Option<Match>)
    requires i <= |s|
    ensures r.Some? ==> i < r.value.end <= |s| && r.value.replacement == JwtPlaceholder
    ensures r.Some? ==> OccursAt(s, "eyJ", i)
    ensures r.Some? ==>
      var a := RunEnd(s, i + 3, IsKeyChar);
      a < |s| && s[a] == '.' && OccursAt(s, "eyJ", a + 1)
      && var b := RunEnd(s, a + 4, IsKeyChar);
         b < |s| && s[b] == '.' && r.value.end == RunEnd(s, b + 1, IsKeyChar)
  {
    if !OccursAt(s, "eyJ", i) then None
    else
      var a := RunEnd(s, i + 3, IsKeyChar);
      if a == |s| || s[a] != '.' || !OccursAt(s, "eyJ", a + 1) then None
      else
        var b := RunEnd(s, a + 4, IsKeyChar);
        if b == |s| || s[b] != '.' then None
        else Some(Match(RunEnd(s, b + 1, IsKeyChar), JwtPlaceholder))
  }

  /** Where the keyword of `(['"]?kw['"]?\s*[:=]\s*)` starts when the match
      starts at `i`: after an opening quote if there is one. */
  function KeywordStart(s: string, i: nat): nat {
    if i < |s| && IsQuote(s[i]) then i + 1 else i
  }

  /** The end of the first group `(['"]?kw['"]?\s*[:=]\s*)` at `i`. Every
      optional or repeated part is followed by something its characters cannot
      be, so the engine's first choice is the only one that can succeed. */
  function KeyPrefixAt(s: string, kw: string, i: nat): (r: Option<nat>)
    requires i <= |s|
    ensures r.Some? ==> i < r.value <= |s| && OccursAtIgnoreCase(s, kw, KeywordStart(s, i))
  {
    var k := KeywordStart(s, i);
    if !OccursAtIgnoreCase(s, kw, k) then None
    else
      var q := k + |kw|;
      var p := if q < |s| && IsQuote(s[q]) then q + 1 else q;
      var w := RunEnd(s, p, IsSpace);
      if w == |s| || (s[w] != ':' && s[w] != '=') then None
      else Some(RunEnd(s, w + 1, IsSpace))
  }

  /** The end of the value `(['"][^'"]*['"]|[^\s,}]+)` at `v`: a quoted string
      up to the next quote of either kind, else the greedy run of characters
      other than whitespace, `,` and `}`. */
  function ValueAt(s: string, v: nat): (r: Option<nat>)
    requires v <= |s|
    ensures r.Some? ==> v < r.value <= |s|
  {
    var closing := if v < |s| && IsQuote(s[v]) then RunEnd(s, v + 1, IsNotQuote) else |s|;
    if closing < |s| then Some(closing + 1)
    else
      var e := RunEnd(s, v, IsBareValueChar);
      if e == v then None else Some(e)
  }

  /** The key/value pattern at `i`: the replacement keeps the first group (the
      key, its quotes and the separator) and puts the placeholder where the
      value was. */
  function KeyValueAt(s: string, kw: string, placeholder: string, i: nat): (r: Option<Match>)
    requires i <= |s|
    ensures r.Some? ==> i < r.value.end <= |s|
    ensures r.Some? ==> OccursAtIgnoreCase(s, kw, KeywordStart(s, i))
    ensures r.Some? ==> KeyPrefixAt(s, kw, i).Some? && KeyPrefixAt(s, kw, i).value < r.value.end
    ensures r.Some? ==> r.value.replacement == s[i..KeyPrefixAt(s, kw, i).value] + placeholder
  {
    match KeyPrefixAt(s, kw, i)
    case None => None
    case Some(v) =>
      match ValueAt(s, v)
      case None => None
      case Some(e) => Some(Match(e, s[i..v] + placeholder))
  }

  /** The match of a pass at `i`, if the engine finds one there. */
  function MatchAt(p: Pass, s: string, i: nat): (r: Option<Match>)
    requires i <= |s|
    ensures r.Some? ==> i < r.value.end <= |s|
    ensures r.Some? ==> EndsWith(r.value.replacement, Placeholder(p))
  {
    match p
    case LongToken => LongTokenAt(s, i)
    case Bearer => BearerAt(s, i)
    case Jwt => JwtAt(s, i)
    case KeyValue(kw, ph) => KeyValueAt(s, kw, ph, i)
  }

  predicate EndsWith(s: string, suffix: string) {
    |suffix| <= |s| && s[|s| - |suffix|..] == suffix
  }

  /** A matcher: the match found when the engine starts at a position. */
  type Matcher = (string, nat) -> Option<Match>

  /** The matcher of a pass. */
  function MatcherOf(p: Pass): Matcher {
    (s: string, i: nat) => if i <= |s| then MatchAt(p, s, i) else None
  }

  /** A match that `Scan` accepts: non-empty and inside the text. */
  predicate Proper(s: string, i: nat, r: Option<Match>) {
    r.Some? && i < r.value.end <= |s|
  }

  /** `s.replace(pattern, replacement)` with the `g` flag, from position `i`. */
  function Scan(m: Matcher, s: string, i: nat): string
    requires i <= |s|
    decreases |s| - i
  {
    if i == |s| then []
    else
      var r := m(s, i);
      if Proper(s, i, r) then r.value.replacement + Scan(m, s, r.value.end)
      else [s[i]] + Scan(m, s, i + 1)
  }

  function Replace(p: Pass, s: string): string {
    Scan(MatcherOf(p), s, 0)
  }

  // ---------------------------------------------------------------------
  // The filter
  // ---------------------------------------------------------------------

  /** `/(api[_-]?key|apikey|key)/i.test(s)` at `i`. */
  predicate KeyContextAt(s: string, i: nat) {
    (OccursAtIgnoreCase(s, "api", i) && i + 3 < |s| && (s[i + 3] == '_' || s[i + 3] == '-')
     && OccursAtIgnoreCase(s, "key", i + 4))
    || OccursAtIgnoreCase(s, "apikey", i)
    || OccursAtIgnoreCase(s, "key", i)
  }

  predicate KeyContext(s: string) {
    exists i :: 0 <= i <= |s| && KeyContextAt(s, i)
  }

  /** The passes that always run, in their order. */
  const AlwaysPasses: seq<Pass> := [
    Bearer,
    Jwt,
    KeyValue("password", "[REDACTED_PASSWORD]"),
    KeyValue("token", "[REDACTED_TOKEN]"),
    KeyValue("secret", "[REDACTED_SECRET]")
  ]

  /** The passes `ps` applied one after the other to `s`. */
  function ApplyAll(ps: seq<Pass>, s: string): string {
    if ps == [] then s else Replace(ps[|ps| - 1], ApplyAll(ps[..|ps| - 1], s))
  }

  /** What `filterSensitiveData` returns: the long-token pass first, and only
      when the unfiltered content mentions a key, then the other five passes in
      order. */
  function Redact(content: string): string {
    var start := if KeyContext(content) then Replace(LongToken, content) else content;
    ApplyAll(AlwaysPasses, start)
  }

  /** `filterSensitiveData`: the loop over the passes that reassigns
      `filtered`. */
  method FilterSensitiveData(content: string) returns (filtered: string)
    ensures filtered == Redact(content)
  {
    filtered := content;
    if KeyContext(content) {
      filtered := Replace(LongToken, filtered);
    }
    ghost var start := filtered;
    for i := 0 to |AlwaysPasses|
      invariant filtered == ApplyAll(AlwaysPasses[..i], start)
    {
      assert AlwaysPasses[..i + 1][..i] == AlwaysPasses[..i];
      filtered := Replace(AlwaysPasses[i], filtered);
    }
    assert AlwaysPasses[..|AlwaysPasses|] == AlwaysPasses;
  }

  // ---------------------------------------------------------------------
  // Properties
  // ---------------------------------------------------------------------

  /** The key-context cue is exactly a case-insensitive "key" anywhere: every
      alternative of the cue ends in "key", and "key" is one of them. */
  lemma KeyContextIffKey(s: string)
    ensures KeyContext(s) <==> exists i :: 0 <= i <= |s| && OccursAtIgnoreCase(s, "key", i)
  {
    if KeyContext(s) {
      var i :| 0 <= i <= |s| && KeyContextAt(s, i);
      var j := if OccursAtIgnoreCase(s, "key", i) then i
               else if OccursAtIgnoreCase(s, "apikey", i) then i + 3
               else i + 4;
      if j == i + 3 {
        forall k | 0 <= k < 3 ensures LowerAscii(s[j + k]) == "key"[k] {
          assert LowerAscii(s[i + (3 + k)]) == "apikey"[3 + k];
        }
      }
      assert OccursAtIgnoreCase(s, "key", j);
    }
    if exists i :: 0 <= i <= |s| && OccursAtIgnoreCase(s, "key", i) {
      var i :| 0 <= i <= |s| && OccursAtIgnoreCase(s, "key", i);
      assert KeyContextAt(s, i);
    }
  }

  /** A scan that finds no match returns its input unchanged. */
  lemma {:induction false} ScanWithoutMatch(m: Matcher, s: string, i: nat)
    requires i <= |s|
    requires forall k :: i <= k < |s| ==> m(s, k).None?
    ensures Scan(m, s, i) == s[i..]
    decreases |s| - i
  {
    if i < |s| {
      ScanWithoutMatch(m, s, i + 1);
      assert s[i..] == [s[i]] + s[i + 1..];
    }
  }

  /** A pass that finds no match leaves the text unchanged. */
  lemma ReplaceWithoutMatch(p: Pass, s: string)
    requires forall k :: 0 <= k < |s| ==> MatchAt(p, s, k).None?
    ensures Replace(p, s) == s
  {
    ScanWithoutMatch(MatcherOf(p), s, 0);
  }

  lemma ContainsShift(a: string, b: string, p: string)
    requires Contains(b, p)
    ensures Contains(a + b, p)
  {
    var k :| 0 <= k <= |b| && OccursAt(b, p, k);
    assert (a + b)[|a| + k..|a| + k + |p|] == b[k..k + |p|];
    assert OccursAt(a + b, p, |a| + k);
  }

  lemma ContainsSuffix(pre: string, ph: string, rest: string)
    ensures Contains(pre + ph + rest, ph)
  {
    assert (pre + ph + rest)[|pre|..|pre| + |ph|] == ph;
    assert OccursAt(pre + ph + rest, ph, |pre|);
  }

  /** If the matcher finds a match anywhere at or after `i` and every
      replacement ends with `ph`, the scanned text contains `ph`. */
  lemma {:induction false} ScanLeavesMarker(m: Matcher, ph: string, s: string, i: nat, at: nat)
    requires i <= at < |s| && Proper(s, at, m(s, at))
    requires forall k :: i <= k < |s| && Proper(s, k, m(s, k)) ==> EndsWith(m(s, k).value.replacement, ph)
    ensures Contains(Scan(m, s, i), ph)
    decreases |s| - i
  {
    var r := m(s, i);
    if Proper(s, i, r) {
      var rep := r.value.replacement;
      var pre := rep[..|rep| - |ph|];
      assert rep == pre + ph;
      ContainsSuffix(pre, ph, Scan(m, s, r.value.end));
    } else {
      ScanLeavesMarker(m, ph, s, i + 1, at);
      ContainsShift([s[i]], Scan(m, s, i + 1), ph);
    }
  }

  /** If the pattern of a pass matches anywhere, the text it returns carries
      the pass's placeholder: a secret the pattern sees is never passed on
      without a redaction marker. */
  lemma ReplaceLeavesPlaceholder(p: Pass, s: string, at: nat)
    requires at < |s| && MatchAt(p, s, at).Some?
    ensures Contains(Replace(p, s), Placeholder(p))
  {
    ScanLeavesMarker(MatcherOf(p), Placeholder(p), s, 0, at);
  }

  /** The stretches `[start, end)` of the input that a scan from `i`
      replaces. */
  function Replaced(m: Matcher, s: string, i: nat): (r: seq<(nat, nat)>)
    requires i <= |s|
    ensures forall j :: 0 <= j < |r| ==> i <= r[j].0 < r[j].1 <= |s|
    decreases |s| - i
  {
    if i == |s| then []
    else
      var r := m(s, i);
      if Proper(s, i, r) then [(i, r.value.end)] + Replaced(m, s, r.value.end)
      else Replaced(m, s, i + 1)
  }

  predicate Covers(stretches: seq<(nat, nat)>, at: nat) {
    exists j :: 0 <= j < |stretches| && stretches[j].0 <= at < stretches[j].1
  }

  /** Every place where the matcher finds a match lies inside a replaced
      stretch: the scan either replaces the match there or has already
      consumed that position as part of an earlier match. */
  lemma {:induction false} EveryMatchIsCovered(m: Matcher, s: string, i: nat, at: nat)
    requires i <= at < |s| && Proper(s, at, m(s, at))
    ensures Covers(Replaced(m, s, i), at)
    decreases |s| - i
  {
    var r := m(s, i);
    if Proper(s, i, r) {
      var e := r.value.end;
      var rest := Replaced(m, s, e);
      assert Replaced(m, s, i) == [(i, e)] + rest;
      if at >= e {
        EveryMatchIsCovered(m, s, e, at);
        var j :| 0 <= j < |rest| && rest[j].0 <= at < rest[j].1;
        assert Replaced(m, s, i)[j + 1] == rest[j];
      } else {
        assert Replaced(m, s, i)[0] == (i, e);
      }
    } else {
      EveryMatchIsCovered(m, s, i + 1, at);
    }
  }

  /** For every pass: each place where its pattern matches is replaced, or
      swallowed by an earlier match. */
  lemma EveryMatchStartIsReplaced(p: Pass, s: string, at: nat)
    requires at < |s| && MatchAt(p, s, at).Some?
    ensures Covers(Replaced(MatcherOf(p), s, 0), at)
  {
    EveryMatchIsCovered(MatcherOf(p), s, 0, at);
  }

  /** Two credentials back to back: the first match swallows the second
      `Bearer` as its token, so the credential after it stays in the text. */
  lemma NoBearerAt(s: string, k: nat)
    requires k <= |s|
    requires k + 6 > |s| || LowerAscii(s[k]) != 'b'
    ensures MatcherOf(Bearer)(s, k).None?
  {
    if k + 6 <= |s| {
      assert LowerAscii(s[k + 0]) != "bearer"[0];
    }
  }

  lemma BearerFirstMatch(s: string)
    requires s == "Bearer Bearer secret"
    ensures MatcherOf(Bearer)(s, 0) == Some(Match(13, BearerReplacement))
  {
    assert RunEnd(s, 6, IsSpace) == 7;
    var t := RunEnd(s, 7, IsTokenChar);
    assert !IsTokenChar(s[13]);
    assert forall k :: 7 <= k < 13 ==> IsTokenChar(s[k]);
    assert OccursAtIgnoreCase(s, "bearer", 0);
  }

  lemma BearerTail(s: string)
    requires s == "Bearer Bearer secret"
    ensures Scan(MatcherOf(Bearer), s, 13) == " secret"
  {
    var m := MatcherOf(Bearer);
    NoBearerAt(s, 13);
    forall k | 14 <= k < |s| ensures m(s, k).None? {
      NoBearerAt(s, k);
    }
    ScanWithoutMatch(m, s, 14);
    assert Scan(m, s, 13) == [' '] + s[14..];
  }

  lemma BearerAfterBearerSurvives()
    ensures Replace(Bearer, "Bearer Bearer secret") == "Bearer [REDACTED_TOKEN] secret"
  {
    var s := "Bearer Bearer secret";
    BearerFirstMatch(s);
    BearerTail(s);
  }

  /** Every pass leaves a text on which it finds no match unchanged, so the
      whole filter leaves text without credentials alone. */
  lemma {:induction false} ApplyAllWithoutMatch(ps: seq<Pass>, s: string)
    requires forall j, k :: 0 <= j < |ps| && 0 <= k < |s| ==> MatchAt(ps[j], s, k).None?
    ensures ApplyAll(ps, s) == s
  {
    if ps != [] {
      var init := ps[..|ps| - 1];
      assert forall j, k :: 0 <= j < |init| && 0 <= k < |s| ==> MatchAt(init[j], s, k).None? by {
        forall j, k | 0 <= j < |init| && 0 <= k < |s| ensures MatchAt(init[j], s, k).None? {
          assert init[j] == ps[j];
        }
      }
      ApplyAllWithoutMatch(init, s);
      ReplaceWithoutMatch(ps[|ps| - 1], s);
    }
  }

  /** Content in which no pass finds anything (and which does not mention a
      key, or mentions one but holds no long token) leaves the filter as it
      came. */
  lemma RedactWithoutSecrets(s: string)
    requires KeyContext(s) ==> forall k :: 0 <= k < |s| ==> MatchAt(LongToken, s, k).None?
    requires forall j, k :: 0 <= j < |AlwaysPasses| && 0 <= k < |s| ==> MatchAt(AlwaysPasses[j], s, k).None?
    ensures Redact(s) == s
  {
    if KeyContext(s) {
      ReplaceWithoutMatch(LongToken, s);
    }
    ApplyAllWithoutMatch(AlwaysPasses, s);
  }

  /** No pass can start where the case-insensitive word `w`, which begins with a
      letter, cannot occur. */
  lemma NoWordInLetterFree(s: string, w: string, i: nat)
    requires w != [] && 'a' <= w[0] <= 'z'
    requires forall k :: 0 <= k < |s| ==> !IsAsciiLetter(s[k])
    ensures !OccursAtIgnoreCase(s, w, i)
  {
    assert i + |w| <= |s| ==> LowerAscii(s[i + 0]) != w[0];
  }

  /** The always-on passes find nothing in text without ASCII letters. */
  lemma PassMissesLetterFree(p: Pass, s: string, k: nat)
    requires p in AlwaysPasses
    requires k <= |s|
    requires forall k :: 0 <= k < |s| ==> !IsAsciiLetter(s[k])
    ensures MatchAt(p, s, k).None?
  {
    match p
    case Bearer => NoWordInLetterFree(s, "bearer", k);
    case Jwt => assert k + 3 <= |s| ==> s[k..k + 3][0] != 'e';
    case KeyValue(kw, _) => NoWordInLetterFree(s, kw, KeywordStart(s, k));
    case LongToken =>
  }

  /** Text without ASCII letters holds nothing any pass looks for: every
      pattern starts with a letter, after at most an opening quote. */
  lemma LetterFreeUnredacted(s: string)
    requires forall k :: 0 <= k < |s| ==> !IsAsciiLetter(s[k])
    ensures Redact(s) == s
  {
    forall k | 0 <= k <= |s| ensures !KeyContextAt(s, k) {
      NoWordInLetterFree(s, "api", k);
      NoWordInLetterFree(s, "apikey", k);
      NoWordInLetterFree(s, "key", k);
    }
    forall j, k | 0 <= j < |AlwaysPasses| && 0 <= k < |s|
      ensures MatchAt(AlwaysPasses[j], s, k).None?
    {
      PassMissesLetterFree(AlwaysPasses[j], s, k);
    }
    RedactWithoutSecrets(s);
  }
}
