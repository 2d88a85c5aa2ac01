/** The password-reset request endpoint: a per-client rate limiter over an
    in-memory table, a periodic sweep of expired entries, and the choice of
    response. The clock is a parameter (`now`, in milliseconds). */
module PasswordReset {
  import opened Wrappers
  import opened Text
  import opened Issues
  import AuthSchema

  /** Fifteen minutes, in milliseconds. */
  const Window := 15 * 60 * 1000
  const MaxRequests := 5
  const RetryAfterSeconds := "900"
  const TooManyRequests := "Too many requests. Please try again later."
  const UnknownClient := "unknown"

  /** The text before the first comma (all of it when there is none). */
  function FirstField(s: string): (r: string)
    ensures |r| <= |s| && r == s[..|r|]
    ensures ',' !in r
    ensures |r| < |s| ==> s[|r|] == ','
  {
    if s == [] || s[0] == ',' then [] else [s[0]] + FirstField(s[1..])
  }

  /** The client key: the first entry of a non-empty `x-forwarded-for`,
      trimmed; else a non-empty `x-real-ip` as it is; else "unknown". */
  function ClientIP(forwarded: Option<string>, realIp: Option<string>): (r: string)
    ensures forwarded.Some? && forwarded.value != [] ==> r == Trim(FirstField(forwarded.value))
    ensures (forwarded.None? || forwarded.value == []) && realIp.Some? && realIp.value != [] ==> r == realIp.value
    ensures (forwarded.None? || forwarded.value == []) && (realIp.None? || realIp.value == []) ==> r == UnknownClient
  {
    if forwarded.Some? && forwarded.value != [] then Trim(FirstField(forwarded.value))
    else if realIp.Some? && realIp.value != [] then realIp.value
    else UnknownClient
  }

  /** Trimming a string without commas leaves none. */
  lemma TrimAddsNoComma(f: string)
    requires ',' !in f
    ensures ',' !in Trim(f)
  {
    var a := TrimStart(f);
    forall k | 0 <= k < |a| ensures a[k] != ',' { assert a[k] == f[|f| - |a| + k]; }
    var t := TrimEnd(a);
    forall k | 0 <= k < |t| ensures t[k] != ',' { assert t[k] == a[k]; }
  }

  /** A key taken from `x-forwarded-for` holds no comma and no surrounding
      whitespace. */
  lemma ForwardedKeyIsClean(forwarded: string, realIp: Option<string>)
    requires forwarded != []
    ensures ',' !in ClientIP(Some(forwarded), realIp)
    ensures Trim(ClientIP(Some(forwarded), realIp)) == ClientIP(Some(forwarded), realIp)
  {
    TrimAddsNoComma(FirstField(forwarded));
    TrimIdempotent(FirstField(forwarded));
  }

  /** The first field of a chain is the text before its first comma. */
  lemma {:induction false} FirstFieldOfChain(first: string, rest: string)
    requires ',' !in first
    ensures FirstField(first + "," + rest) == first
    decreases |first|
  {
    if first != [] {
      assert (first + "," + rest)[1..] == first[1..] + "," + rest;
      FirstFieldOfChain(first[1..], rest);
    }
  }

  /** Behind a chain of proxies, the client key is the first address, and
      the other addresses and `x-real-ip` play no part. */
  lemma ProxyChainKey(first: string, rest: string, realIp: Option<string>)
    requires ',' !in first
    requires first == [] || (!IsSpace(first[0]) && !IsSpace(first[|first| - 1]))
    ensures ClientIP(Some(first + "," + rest), realIp) == first
  {
    FirstFieldOfChain(first, rest);
    TrimOfTrimmed(first);
  }

  /** A header that starts with a comma yields the empty key, which every
      such client then shares. */
  lemma LeadingCommaSharesEmptyKey(rest: string, realIp: Option<string>)
    ensures ClientIP(Some("," + rest), realIp) == ""
  {
    assert FirstField("," + rest) == [];
  }

  /** One client's record: requests counted in the current window, and when
      the window ends. */
  datatype Entry = Entry(count: int, resetTime: int)

  type Table = map<string, Entry>

  predicate Expired(e: Entry, now: int) {
    now > e.resetTime
  }

  /** Every recorded count lies between 1 and the maximum. */
  predicate CountsInRange(m: Table) {
    forall ip :: ip in m ==> 1 <= m[ip].count <= MaxRequests
  }

  /** The call starts a new window: no entry, or an expired one. */
  predicate Starts(m: Table, ip: string, now: int) {
    ip !in m || Expired(m[ip], now)
  }

  /** The verdict: limited exactly on a live entry that already holds the
      maximum. */
  predicate Limited(m: Table, ip: string, now: int) {
    !Starts(m, ip, now) && m[ip].count >= MaxRequests
  }

  /** The table after one call: a new window of count 1 when it starts one,
      unchanged when limited, the count one higher otherwise. Only the
      caller's entry changes. */
  function Updated(m: Table, ip: string, now: int): (r: Table)
    ensures r.Keys == m.Keys + {ip}
    ensures forall k :: k in m && k != ip ==> r[k] == m[k]
    ensures Starts(m, ip, now) ==> r[ip] == Entry(1, now + Window)
    ensures !Starts(m, ip, now) ==> r[ip].resetTime == m[ip].resetTime
  {
    if Starts(m, ip, now) then m[ip := Entry(1, now + Window)]
    else if m[ip].count >= MaxRequests then m
    else m[ip := Entry(m[ip].count + 1, m[ip].resetTime)]
  }

  /** A call keeps every count between 1 and the maximum, and a call that is
      let through inside a window raises the count by one. */
  lemma UpdatedKeepsCounts(m: Table, ip: string, now: int)
    requires CountsInRange(m)
    ensures CountsInRange(Updated(m, ip, now))
    ensures !Starts(m, ip, now) && !Limited(m, ip, now) ==> Updated(m, ip, now)[ip].count == m[ip].count + 1
    ensures Limited(m, ip, now) ==> Updated(m, ip, now) == m
  {
  }

  /** How many of the calls at `times` (in order) are let through. */
  function Allowed(m: Table, ip: string, times: seq<int>): nat
    decreases |times|
  {
    if times == [] then 0
    else (if Limited(m, ip, times[0]) then 0 else 1) + Allowed(Updated(m, ip, times[0]), ip, times[1..])
  }

  /** Inside a live window, no more calls get through than the count leaves
      room for. */
  lemma {:induction false} AllowedWithinWindow(m: Table, ip: string, times: seq<int>)
    requires CountsInRange(m) && ip in m
    requires forall i :: 0 <= i < |times| ==> times[i] <= m[ip].resetTime
    ensures Allowed(m, ip, times) <= MaxRequests - m[ip].count
    decreases |times|
  {
    if times != [] {
      UpdatedKeepsCounts(m, ip, times[0]);
      var next := Updated(m, ip, times[0]);
      assert next[ip].resetTime == m[ip].resetTime;
      AllowedWithinWindow(next, ip, times[1..]);
    }
  }

  /** A window opened at `start` lets at most five calls through, the
      opening one included, until it ends at `start + Window`. */
  lemma AtMostFivePerWindow(m: Table, ip: string, start: int, times: seq<int>)
    requires CountsInRange(m) && Starts(m, ip, start)
    requires forall i :: 0 <= i < |times| ==> times[i] <= start + Window
    ensures Allowed(m, ip, [start] + times) <= MaxRequests
  {
    UpdatedKeepsCounts(m, ip, start);
    assert ([start] + times)[1..] == times;
    AllowedWithinWindow(Updated(m, ip, start), ip, times);
  }

  /** Six calls at the same instant from a new client: five get through. */
  lemma SixthCallLimited(ip: string, t: int)
    ensures Allowed(map[], ip, [t, t, t, t, t, t]) == 5
  {
    var m1 := Updated(map[], ip, t);
    var m2 := Updated(m1, ip, t);
    var m3 := Updated(m2, ip, t);
    var m4 := Updated(m3, ip, t);
    var m5 := Updated(m4, ip, t);
    assert m5[ip] == Entry(5, t + Window);
    assert Allowed(m5, ip, [t]) == 0;
    assert Allowed(m4, ip, [t, t]) == 1 + Allowed(m5, ip, [t]) by { assert [t, t][1..] == [t]; }
    assert Allowed(m3, ip, [t, t, t]) == 1 + Allowed(m4, ip, [t, t]) by { assert [t, t, t][1..] == [t, t]; }
    assert Allowed(m2, ip, [t, t, t, t]) == 1 + Allowed(m3, ip, [t, t, t]) by {
      assert [t, t, t, t][1..] == [t, t, t];
    }
    assert Allowed(m1, ip, [t, t, t, t, t]) == 1 + Allowed(m2, ip, [t, t, t, t]) by {
      assert [t, t, t, t, t][1..] == [t, t, t, t];
    }
    assert Allowed(map[], ip, [t, t, t, t, t, t]) == 1 + Allowed(m1, ip, [t, t, t, t, t]) by {
      assert [t, t, t, t, t, t][1..] == [t, t, t, t, t];
    }
  }

  /** The table with the entries expired at `now` removed. */
  function Unexpired(m: Table, now: int): (r: Table)
    ensures forall k :: k in r <==> k in m && !Expired(m[k], now)
    ensures forall k :: k in r ==> r[k] == m[k]
  {
    map k | k in m && !Expired(m[k], now) :: m[k]
  }

  /** Sweeping at some time never changes a later call's verdict, nor the
      caller's entry after it. */
  lemma SweepUnobservable(m: Table, sweptAt: int, ip: string, now: int)
    requires sweptAt <= now
    ensures Limited(Unexpired(m, sweptAt), ip, now) == Limited(m, ip, now)
    ensures Updated(Unexpired(m, sweptAt), ip, now)[ip] == Updated(m, ip, now)[ip]
  {
  }

  /** The in-memory rate-limit table of the endpoint. */
  class RateLimiter {
    var entries: Table

    ghost predicate Valid()
      reads this
    {
      CountsInRange(entries)
    }

    constructor()
      ensures Valid() && entries == map[]
    {
      entries := map[];
    }

    /** Counts one call from `ip` at `now` and says whether it is refused. */
    method IsRateLimited(ip: string, now: int) returns (limited: bool)
      requires Valid()
      modifies this
      ensures Valid()
      ensures limited == Limited(old(entries), ip, now)
      ensures entries == Updated(old(entries), ip, now)
    {
      UpdatedKeepsCounts(entries, ip, now);
      if ip !in entries || now > entries[ip].resetTime {
        entries := entries[ip := Entry(1, now + Window)];
        return false;
      }
      var data := entries[ip];
      if data.count >= MaxRequests {
        return true;
      }
      entries := entries[ip := Entry(data.count + 1, data.resetTime)];
      return false;
    }

    /** The periodic clean-up: deletes exactly the entries expired at
        `now`. */
    method Sweep(now: int)
      requires Valid()
      modifies this
      ensures Valid()
      ensures entries == Unexpired(old(entries), now)
    {
      ghost var start := entries;
      var pending := entries.Keys;
      while pending != {}
        invariant pending <= start.Keys
        invariant entries == map k | k in start && (k in pending || !Expired(start[k], now)) :: start[k]
        invariant Valid()
        decreases |pending|
      {
        var ip :| ip in pending;
        if now > entries[ip].resetTime {
          entries := entries - {ip};
        }
        pending := pending - {ip};
      }
    }
  }

  /** What the body parsed to: not JSON at all, or an object whose `email`
      field is `None` when missing or not a string. */
  datatype RequestBody = Unparsable | Parsed(email: Option<string>)

  datatype ResponseBody =
    | ErrorBody(error: string)
    | ValidationErrorBody(details: seq<Issue>)
    | StatusOk

  datatype Response = Response(status: int, body: ResponseBody, retryAfter: Option<string>)

  /** The response, given the limiter's verdict: 429 with a retry hint when
      limited, 400 with the schema's issues for a JSON body the schema
      rejects, and 200 otherwise, whether the address exists or not. A body
      that is not JSON throws, and the handler answers that with 200 too. */
  function Respond(limited: bool, body: RequestBody, wellFormed: string -> bool): (r: Response)
    ensures r.status == 429 <==> limited
    ensures r.status == 429 ==> r == Response(429, ErrorBody(TooManyRequests), Some(RetryAfterSeconds))
    ensures r.status == 400 <==>
              !limited && body.Parsed? && AuthSchema.ParseResetRequest(body.email, wellFormed).Failure?
    ensures r.status in {200, 400, 429}
    ensures r.status == 200 ==> r == Response(200, StatusOk, None)
  {
    if limited then Response(429, ErrorBody(TooManyRequests), Some(RetryAfterSeconds))
    else match body
      case Unparsable => Response(200, StatusOk, None)
      case Parsed(email) =>
        match AuthSchema.ParseResetRequest(email, wellFormed)
        case Failure(issues) => Response(400, ValidationErrorBody(issues), None)
        case Success(_) => Response(200, StatusOk, None)
  }

  /** The address a reset e-mail is requested for, if any: only a call that
      gets through the limiter with a valid body requests one. */
  function ResetTarget(limited: bool, body: RequestBody, wellFormed: string -> bool): (r: Option<string>)
    ensures r.Some? <==> !limited && body.Parsed? && AuthSchema.ParseResetRequest(body.email, wellFormed).Success?
    ensures r.Some? ==> body.Parsed? && body.email == Some(r.value)
  {
    if !limited && body.Parsed? && AuthSchema.ParseResetRequest(body.email, wellFormed).Success?
    then Some(body.email.value) else None
  }

  /** An account that gets a reset e-mail and one that does not see the same
      response: whenever a reset is requested, the answer is a plain 200. */
  lemma ResetRequestedAnswersOk(limited: bool, body: RequestBody, wellFormed: string -> bool)
    requires ResetTarget(limited, body, wellFormed).Some?
    ensures Respond(limited, body, wellFormed) == Respond(false, Unparsable, wellFormed)
  {
  }

  /** The endpoint: the client is counted before the body is read, so a
      refused or malformed request still uses up one of the five calls. */
  method Post(limiter: RateLimiter, forwarded: Option<string>, realIp: Option<string>,
              body: RequestBody, now: int, wellFormed: string -> bool)
    returns (response: Response, resetFor: Option<string>)
    requires limiter.Valid()
    modifies limiter
    ensures limiter.Valid()
    ensures var ip := ClientIP(forwarded, realIp);
            var limited := Limited(old(limiter.entries), ip, now);
            && limiter.entries == Updated(old(limiter.entries), ip, now)
            && response == Respond(limited, body, wellFormed)
            && resetFor == ResetTarget(limited, body, wellFormed)
  {
    var ip := ClientIP(forwarded, realIp);
    var limited := limiter.IsRateLimited(ip, now);
    if limited {
      return Response(429, ErrorBody(TooManyRequests), Some(RetryAfterSeconds)), None;
    }
    match body
    case Unparsable =>
      response, resetFor := Response(200, StatusOk, None), None;
    case Parsed(email) =>
      var parsed := AuthSchema.ParseResetRequest(email, wellFormed);
      if parsed.Failure? {
        return Response(400, ValidationErrorBody(parsed.error), None), None;
      }
      response, resetFor := Response(200, StatusOk, None), Some(parsed.value);
  }
}
