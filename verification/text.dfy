/** String helpers shared by the model. A JavaScript string is a `seq<char>`
    in which every element stands for one UTF-16 code unit, so `|s|` is the
    JavaScript `length`. */
module Text {
  import opened Wrappers

  /** The characters ECMAScript classes as WhiteSpace or LineTerminator: what
      `String.prototype.trim` strips and what the regular-expression class `\s`
      matches. */
  predicate IsSpace(c: char) {
    var n := c as int;
    n == 0x09 || n == 0x0A || n == 0x0B || n == 0x0C || n == 0x0D || n == 0x20
    || n == 0xA0 || n == 0x1680 || (0x2000 <= n <= 0x200A) || n == 0x2028
    || n == 0x2029 || n == 0x202F || n == 0x205F || n == 0x3000 || n == 0xFEFF
  }

  predicate AllSpace(s: string) {
    forall i :: 0 <= i < |s| ==> IsSpace(s[i])
  }

  /** Drops leading whitespace: the result is a suffix of `s` that does not
      start with whitespace. */
  function TrimStart(s: string): (r: string)
    ensures |r| <= |s| && r == s[|s| - |r|..]
    ensures r == [] || !IsSpace(r[0])
  {
    if s == [] || !IsSpace(s[0]) then s else TrimStart(s[1..])
  }

  /** Everything `TrimStart` drops is whitespace. */
  lemma {:induction false} TrimStartDropsSpace(s: string)
    ensures AllSpace(s[..|s| - |TrimStart(s)|])
    decreases |s|
  {
    if s != [] && IsSpace(s[0]) {
      TrimStartDropsSpace(s[1..]);
      var n := |s| - |TrimStart(s)|;
      forall i | 0 <= i < n ensures IsSpace(s[..n][i]) {
        if i > 0 { assert s[..n][i] == s[1..][..n - 1][i - 1]; }
      }
    }
  }

  /** Drops trailing whitespace: the result is a prefix of `s` that does not
      end with whitespace. */
  function TrimEnd(s: string): (r: string)
    ensures |r| <= |s| && r == s[..|r|]
    ensures r == [] || !IsSpace(r[|r| - 1])
  {
    if s == [] || !IsSpace(s[|s| - 1]) then s else TrimEnd(s[..|s| - 1])
  }

  /** Everything `TrimEnd` drops is whitespace. */
  lemma {:induction false} TrimEndDropsSpace(s: string)
    ensures AllSpace(s[|TrimEnd(s)|..])
    decreases |s|
  {
    if s != [] && IsSpace(s[|s| - 1]) {
      var init := s[..|s| - 1];
      TrimEndDropsSpace(init);
      var n := |TrimEnd(s)|;
      forall i | 0 <= i < |s| - n ensures IsSpace(s[n..][i]) {
        if n + i < |s| - 1 { assert s[n..][i] == init[n..][i]; }
      }
    }
  }

  /** `String.prototype.trim`. */
  function Trim(s: string): string {
    TrimEnd(TrimStart(s))
  }

  /** The trimmed string is the slice `s[i..j]` of `s` with only whitespace
      outside it, and it neither starts nor ends with whitespace. */
  lemma TrimIsCore(s: string)
    ensures exists i, j ::
              0 <= i <= j <= |s| && Trim(s) == s[i..j] && AllSpace(s[..i]) && AllSpace(s[j..])
    ensures Trim(s) == [] || (!IsSpace(Trim(s)[0]) && !IsSpace(Trim(s)[|Trim(s)| - 1]))
  {
    var t := TrimStart(s);
    var r := TrimEnd(t);
    TrimStartDropsSpace(s);
    TrimEndDropsSpace(t);
    var i := |s| - |t|;
    var j := i + |r|;
    assert r == s[i..j];
    assert s[j..] == t[|r|..];
  }

  /** Trimming changes nothing the second time. */
  lemma TrimIdempotent(s: string)
    ensures Trim(Trim(s)) == Trim(s)
  {
    TrimIsCore(s);
  }

  /** The trimmed string is empty exactly when the input is all whitespace. */
  lemma TrimEmptyIffAllSpace(s: string)
    ensures Trim(s) == [] <==> AllSpace(s)
  {
    var t := TrimStart(s);
    var n := |s| - |t|;
    if Trim(s) == [] {
      TrimStartDropsSpace(s);
      TrimEndDropsSpace(t);
      assert t == [] by {
        assert t[|TrimEnd(t)|..] == t;
      }
      forall k | 0 <= k < |s| ensures IsSpace(s[k]) {
        assert s[..n][k] == s[k];
      }
    } else {
      assert Trim(s)[0] == t[0];
      assert t[0] == s[n];
    }
  }

  /** A string without surrounding whitespace is its own trim. */
  lemma TrimOfTrimmed(s: string)
    requires s == [] || (!IsSpace(s[0]) && !IsSpace(s[|s| - 1]))
    ensures Trim(s) == s
  {
  }

  /** `p` occurs in `s` at position `i`. */
  predicate OccursAt(s: string, p: string, i: nat) {
    i + |p| <= |s| && s[i..i + |p|] == p
  }

  /** `String.prototype.startsWith`. */
  predicate StartsWith(s: string, p: string) {
    OccursAt(s, p, 0)
  }

  /** `String.prototype.includes`. */
  predicate Contains(s: string, p: string) {
    exists i :: 0 <= i <= |s| && OccursAt(s, p, i)
  }

  /** A left-to-right search for `p` in `s` from position `from`; the executable
      counterpart of `Contains`. */
  function IndexOf(s: string, p: string, from: nat): (r: Option<nat>)
    requires from <= |s|
    ensures r.Some? ==> from <= r.value && OccursAt(s, p, r.value)
    ensures r.None? ==> forall i: nat :: from <= i ==> !OccursAt(s, p, i)
    decreases |s| - from
  {
    if OccursAt(s, p, from) then Some(from)
    else if from == |s| then None
    else IndexOf(s, p, from + 1)
  }

  /** `Contains` is decided by the search. */
  lemma ContainsIffFound(s: string, p: string)
    ensures Contains(s, p) <==> IndexOf(s, p, 0).Some?
  {
    if IndexOf(s, p, 0).Some? {
      assert OccursAt(s, p, IndexOf(s, p, 0).value);
    }
  }

  /** ASCII lower-casing, as the `i` flag of a regular expression applies it to
      the ASCII letters that occur in the patterns of this model. */
  function LowerAscii(c: char): (r: char)
    ensures 'A' <= c <= 'Z' ==> r as int == c as int + 32
    ensures !('A' <= c <= 'Z') ==> r == c
  {
    if 'A' <= c <= 'Z' then (c as int + 32) as char else c
  }

  /** `s` starts at `i` with the lower-case ASCII word `w`, letters compared
      without regard to case. */
  predicate OccursAtIgnoreCase(s: string, w: string, i: nat) {
    i + |w| <= |s| && forall k :: 0 <= k < |w| ==> LowerAscii(s[i + k]) == w[k]
  }

  predicate IsDigit(c: char) {
    '0' <= c <= '9'
  }

  /** Decimal rendering of a natural number, as `String(n)` gives it. */
  function NatToString(n: nat): (r: string)
    ensures |r| >= 1
    ensures forall i :: 0 <= i < |r| ==> IsDigit(r[i])
    ensures n > 0 ==> r[0] != '0'
    decreases n
  {
    if n < 10 then [('0' as int + n) as char]
    else NatToString(n / 10) + [('0' as int + n % 10) as char]
  }

  /** The value a string of decimal digits denotes. */
  function DigitsValue(s: string): nat
    requires forall i :: 0 <= i < |s| ==> IsDigit(s[i])
  {
    if s == [] then 0
    else
      assert IsDigit(s[|s| - 1]);
      10 * DigitsValue(s[..|s| - 1]) + (s[|s| - 1] as int - '0' as int)
  }

  /** Reading back the decimal rendering gives the number. */
  lemma {:induction false} NatToStringRoundTrip(n: nat)
    ensures DigitsValue(NatToString(n)) == n
    decreases n
  {
    if n >= 10 {
      NatToStringRoundTrip(n / 10);
      var r := NatToString(n);
      assert r[..|r| - 1] == NatToString(n / 10);
    }
  }

  /** Decimal rendering of an integer, with a leading `-` when negative. */
  function IntToString(n: int): (r: string)
    ensures n >= 0 ==> r == NatToString(n)
    ensures n < 0 ==> r == "-" + NatToString(-n)
  {
    if n >= 0 then NatToString(n) else "-" + NatToString(-n)
  }
}
