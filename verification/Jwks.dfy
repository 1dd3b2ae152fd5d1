/**
 The signing keys of one JWKS endpoint, cached for as long as its Cache-Control header allows, or for
 300 seconds when it says nothing usable. Times are in milliseconds.
 */
module Jwks {
  import opened Wrappers

  datatype Jwk = Jwk(kid: Option<string>, material: string)

  /** What a fetch gets: an error, or a key set (if the body has one), a header, and the time it came back. */
  datatype Answer =
    | Unavailable
    | Response(keys: Option<seq<Jwk>>, cacheControl: Option<string>, at: int)

  /** One verification: when it looks at the cache, and what a fetch would get. */
  datatype Call = Call(kid: Option<string>, now: int, answer: Answer)

  datatype Cache = Cache(jwks: Option<seq<Jwk>>, until: Option<int>)

  datatype Failure = FetchFailed | NoKeySet | NoSuchKey

  const EMPTY_CACHE := Cache(None, None)
  const DEFAULT_MAX_AGE := 300

  // ---------- the header ----------

  predicate IsDigit(c: char) { '0' <= c <= '9' }

  /** The number that starts a string, after what has been read of it. */
  function Number(s: string, read: nat): nat {
    if s == [] || !IsDigit(s[0]) then read else Number(s[1..], 10 * read + (s[0] as int - '0' as int))
  }

  /** The number of the first `max-age=` that is followed by a digit. */
  function ParsedMaxAge(s: string): Option<nat> {
    if |s| > 8 && s[..8] == "max-age=" && IsDigit(s[8]) then Some(Number(s[8..], 0))
    else if s == [] then None
    else ParsedMaxAge(s[1..])
  }

  /** How many seconds a response may be cached. Zero counts as unusable. */
  function MaxAge(cacheControl: Option<string>): (seconds: nat)
    ensures seconds > 0
  {
    match cacheControl
    case None => DEFAULT_MAX_AGE
    case Some(s) =>
      (match ParsedMaxAge(s)
       case Some(n) => if n == 0 then DEFAULT_MAX_AGE else n
       case None => DEFAULT_MAX_AGE)
  }

  function ValidUntil(a: Answer): int
    requires a.Response?
  {
    a.at + MaxAge(a.cacheControl) * 1000
  }

  // ---------- one call ----------

  predicate Stale(c: Cache, now: int) {
    c.jwks.None? || (c.until.Some? && now > c.until.value)
  }

  /** The call goes to the endpoint and gets a response. */
  predicate Fetches(c: Cache, call: Call) {
    Stale(c, call.now) && call.answer.Response?
  }

  function Refreshed(c: Cache, call: Call): Cache {
    if Fetches(c, call) then Cache(call.answer.keys, Some(ValidUntil(call.answer))) else c
  }

  /** Looking a key up without a cache: the first key with the identifier. */
  function Lookup(keys: seq<Jwk>, kid: Option<string>): Result<Jwk, Failure> {
    if keys == [] then Err(NoSuchKey)
    else if keys[0].kid == kid then Ok(keys[0])
    else Lookup(keys[1..], kid)
  }

  function Selected(c: Cache, call: Call): Result<Jwk, Failure> {
    if Stale(c, call.now) && call.answer.Unavailable? then Err(FetchFailed)
    else
      match Refreshed(c, call).jwks
      case None => Err(NoKeySet)
      case Some(keys) => Lookup(keys, call.kid)
  }

  class KmsJwtAdapter {
    var cachedJwks: Option<seq<Jwk>>
    var cachedTime: Option<int>

    constructor ()
      ensures View() == EMPTY_CACHE
    {
      cachedJwks, cachedTime := None, None;
    }

    ghost function View(): Cache
      reads this
    {
      Cache(cachedJwks, cachedTime)
    }

    /** The key a token is to be verified with. */
    method SigningKey(call: Call) returns (key: Result<Jwk, Failure>)
      modifies this
      ensures View() == Refreshed(old(View()), call)
      ensures key == Selected(old(View()), call)
    {
      if cachedJwks.None? || (cachedTime.Some? && call.now > cachedTime.value) {
        match call.answer
        case Unavailable => return Err(FetchFailed);
        case Response(keys, cacheControl, at) =>
          cachedJwks := keys;
          var maxAge := MaxAge(cacheControl);
          cachedTime := Some(at + maxAge * 1000);
      }
      if cachedJwks.None? {
        return Err(NoKeySet);
      }
      return Lookup(cachedJwks.value, call.kid);
    }
  }

  // ---------- every sequence of calls ----------

  function CacheAfter(calls: seq<Call>): Cache {
    if calls == [] then EMPTY_CACHE
    else Refreshed(CacheAfter(calls[..|calls| - 1]), calls[|calls| - 1])
  }

  predicate FetchesAt(calls: seq<Call>, i: nat)
    requires i < |calls|
  {
    Fetches(CacheAfter(calls[..i]), calls[i])
  }

  /** The last call that fetched. */
  function LastFetch(calls: seq<Call>): Option<nat> {
    if calls == [] then None
    else
      var n := |calls| - 1;
      if FetchesAt(calls, n) then Some(n) else LastFetch(calls[..n])
  }

  /** The clock does not run backwards, and a response comes back after the cache was looked at. */
  ghost predicate Monotone(calls: seq<Call>) {
    && (forall i, j | 0 <= i < j < |calls| :: calls[i].now <= calls[j].now)
    && (forall i | 0 <= i < |calls| && calls[i].answer.Response? :: calls[i].now <= calls[i].answer.at)
    && (forall i, j | 0 <= i < j < |calls| && calls[i].answer.Response? :: calls[i].answer.at <= calls[j].now)
  }

  lemma Prefix(calls: seq<Call>, n: nat, i: nat)
    requires i <= n <= |calls|
    ensures calls[..n][..i] == calls[..i]
  {
  }

  lemma {:induction false} CacheIsLastFetch(calls: seq<Call>)
    ensures match LastFetch(calls)
            case None => CacheAfter(calls) == EMPTY_CACHE && forall i | 0 <= i < |calls| :: !FetchesAt(calls, i)
            case Some(f) =>
              && f < |calls| && FetchesAt(calls, f)
              && CacheAfter(calls) == Cache(calls[f].answer.keys, Some(ValidUntil(calls[f].answer)))
              && forall i | f < i < |calls| :: !FetchesAt(calls, i)
  {
    if calls != [] {
      var n := |calls| - 1;
      CacheIsLastFetch(calls[..n]);
      forall i | 0 <= i < n ensures FetchesAt(calls, i) <==> FetchesAt(calls[..n], i) { Prefix(calls, n, i); }
    }
  }

  /**
   Whatever key a call is given comes from the key set of the last fetch, which is either its own or at
   most as old as that response allowed. A stale set is never used, not even when the endpoint is down.
   */
  lemma KeysAreFresh(calls: seq<Call>, call: Call)
    requires !Selected(CacheAfter(calls), call).Err?
    ensures var all := calls + [call];
            LastFetch(all).Some? &&
            var f := LastFetch(all).value;
            && f < |all| && all[f].answer.Response? && all[f].answer.keys.Some?
            && Selected(CacheAfter(calls), call) == Lookup(all[f].answer.keys.value, call.kid)
            && (f < |calls| ==> call.now - all[f].answer.at <= MaxAge(all[f].answer.cacheControl) * 1000)
  {
    var all := calls + [call];
    assert all[..|calls|] == calls;
    CacheIsLastFetch(calls);
    CacheIsLastFetch(all);
  }

  /** Two fetches are further apart than the earlier response's lifetime, if that response had a key set. */
  lemma {:induction false} FetchesSpaced(calls: seq<Call>, f: nat, g: nat)
    requires Monotone(calls) && f < g < |calls| && FetchesAt(calls, f) && FetchesAt(calls, g)
    requires calls[f].answer.keys.Some?
    ensures calls[g].now - calls[f].answer.at > MaxAge(calls[f].answer.cacheControl) * 1000
    decreases g
  {
    var before := calls[..g];
    CacheIsLastFetch(before);
    assert FetchesAt(before, f) by { Prefix(calls, g, f); }
    var h := LastFetch(before).value;
    if f < h {
      assert FetchesAt(calls, h) by { Prefix(calls, g, h); }
      FetchesSpaced(calls, f, h);
    }
  }

  /** A response without a key set is not cached: the next call that gets a response fetches again at once. */
  lemma NoKeySetRefetches(calls: seq<Call>, call: Call)
    requires calls != [] && FetchesAt(calls, |calls| - 1) && Last(calls).answer.keys.None? && call.answer.Response?
    ensures FetchesAt(calls + [call], |calls|)
  {
    assert (calls + [call])[..|calls|] == calls;
  }

  function Last(calls: seq<Call>): Call
    requires calls != []
  {
    calls[|calls| - 1]
  }

  /** The endpoint serves what is published when it answers. */
  ghost predicate Honest(calls: seq<Call>, published: int -> seq<Jwk>) {
    forall i | 0 <= i < |calls| && calls[i].answer.Response? :: calls[i].answer.keys == Some(published(calls[i].answer.at))
  }

  /** The selected key is the one an uncached lookup gives, while the published set is what it was at the last fetch. */
  lemma SameAsUncached(calls: seq<Call>, call: Call, published: int -> seq<Jwk>)
    requires Honest(calls + [call], published) && Selected(CacheAfter(calls), call) != Err(FetchFailed)
    requires var all := calls + [call]; LastFetch(all).Some? ==>
               var f := LastFetch(all).value;
               f < |all| && all[f].answer.Response? && published(call.now) == published(all[f].answer.at)
    ensures Selected(CacheAfter(calls), call) == Lookup(published(call.now), call.kid)
  {
    var all := calls + [call];
    assert all[..|calls|] == calls;
    CacheIsLastFetch(calls);
    CacheIsLastFetch(all);
  }

  // ---------- unwrapping the content key of an encrypted token ----------

  datatype KmsAnswer = Refused | NoPlaintext | Plaintext(key: string)

  /** The key under the first alias that unwraps it. */
  function FirstPlaintext(aliases: seq<string>, kms: string -> KmsAnswer): Option<string> {
    if aliases == [] then None
    else if kms(aliases[0]).Plaintext? then Some(kms(aliases[0]).key)
    else FirstPlaintext(aliases[1..], kms)
  }

  /** The aliases in order while key rotation is on, then the legacy key; none means the token cannot be decrypted. */
  method UnwrapKey(rotating: bool, aliases: seq<string>, legacyKeyId: Option<string>, kms: string -> KmsAnswer)
    returns (cek: Option<string>)
    ensures cek == FirstPlaintext((if rotating then aliases else []) + (if legacyKeyId.Some? then [legacyKeyId.value] else []), kms)
  {
    cek := None;
    ghost var tried := if rotating then aliases else [];
    ghost var last := if legacyKeyId.Some? then [legacyKeyId.value] else [];
    FirstPlaintextAppend(tried, last, kms);
    if rotating {
      for i := 0 to |aliases|
        invariant cek == None && FirstPlaintext(aliases, kms) == FirstPlaintext(aliases[i..], kms)
      {
        var output := kms(aliases[i]);
        if output.Plaintext? {
          cek := Some(output.key);
          break;
        }
      }
    }
    if cek == None {
      if legacyKeyId.None? {
        return None;
      }
      var output := kms(legacyKeyId.value);
      if output.Plaintext? {
        cek := Some(output.key);
      }
    }
  }

  lemma {:induction false} FirstPlaintextAppend(a: seq<string>, b: seq<string>, kms: string -> KmsAnswer)
    ensures FirstPlaintext(a + b, kms) == if FirstPlaintext(a, kms).Some? then FirstPlaintext(a, kms) else FirstPlaintext(b, kms)
  {
    if a == [] {
      assert a + b == b;
    } else {
      assert (a + b)[1..] == a[1..] + b;
      FirstPlaintextAppend(a[1..], b, kms);
    }
  }

  // ---------- which key, and for how long ----------

  /** Key `i` is the first with the identifier. */
  ghost predicate FirstWith(keys: seq<Jwk>, kid: Option<string>, i: nat) {
    i < |keys| && keys[i].kid == kid && forall j: nat | j < i :: keys[j].kid != kid
  }

  lemma {:induction false} LookedUpIsFirst(keys: seq<Jwk>, kid: Option<string>) returns (i: nat)
    requires Lookup(keys, kid).Ok?
    ensures FirstWith(keys, kid, i) && keys[i] == Lookup(keys, kid).value
  {
    i := 0;
    if keys[0].kid != kid {
      var k := LookedUpIsFirst(keys[1..], kid);
      forall j: nat | j < k + 1 ensures keys[j].kid != kid {
        assert j > 0 ==> keys[j] == keys[1..][j - 1];
      }
      i := k + 1;
    }
  }

  lemma {:induction false} FirstIsLookedUp(keys: seq<Jwk>, kid: Option<string>, i: nat)
    requires FirstWith(keys, kid, i)
    ensures Lookup(keys, kid) == Ok(keys[i])
  {
    if i > 0 {
      assert forall j: nat | j < i - 1 :: keys[1..][j] == keys[j + 1];
      FirstIsLookedUp(keys[1..], kid, i - 1);
    }
  }

  /** The key given is the first with the identifier asked for; none is given if and only if no key has it. */
  lemma LookupIs(keys: seq<Jwk>, kid: Option<string>, key: Jwk)
    ensures Lookup(keys, kid) == Ok(key) <==> exists i: nat :: FirstWith(keys, kid, i) && keys[i] == key
    ensures Lookup(keys, kid).Err? <==> forall k | k in keys :: k.kid != kid
  {
    if Lookup(keys, kid).Ok? {
      var i := LookedUpIsFirst(keys, kid);
      assert keys[i] in keys;
    }
    forall i: nat | FirstWith(keys, kid, i) ensures Lookup(keys, kid) == Ok(keys[i]) { FirstIsLookedUp(keys, kid, i); }
    if Lookup(keys, kid).Err? {
      forall k | k in keys ensures k.kid != kid { NoneLookedUp(keys, kid, k); }
    }
  }

  lemma {:induction false} NoneLookedUp(keys: seq<Jwk>, kid: Option<string>, k: Jwk)
    requires Lookup(keys, kid).Err? && k in keys
    ensures k.kid != kid
  {
    if k != keys[0] {
      assert k in keys[1..];
      NoneLookedUp(keys[1..], kid, k);
    }
  }

  /** At position `p` stands `max-age=`, followed by a digit. */
  predicate HeaderAt(s: string, p: nat) {
    p + 8 < |s| && s[p..p + 8] == "max-age=" && IsDigit(s[p + 8])
  }

  lemma {:induction false} ParsedFrom(s: string, p: nat)
    requires HeaderAt(s, p) && forall q: nat | q < p :: !HeaderAt(s, q)
    ensures ParsedMaxAge(s) == Some(Number(s[p + 8..], 0))
  {
    if p == 0 {
      assert s[0..8] == s[..8];
    } else {
      assert !HeaderAt(s, 0);
      assert |s| > 8 ==> s[..8] == s[0..8];
      var t := s[1..];
      forall q: nat ensures HeaderAt(t, q) <==> HeaderAt(s, q + 1) { HeaderShift(s, q); }
      ParsedFrom(t, p - 1);
      assert t[p - 1 + 8..] == s[p + 8..];
    }
  }

  lemma HeaderShift(s: string, q: nat)
    requires s != ""
    ensures HeaderAt(s[1..], q) <==> HeaderAt(s, q + 1)
  {
    if q + 9 < |s| {
      assert s[1..][q..q + 8] == s[q + 1..q + 9];
    }
  }

  lemma {:induction false} NothingParsed(s: string)
    requires forall q: nat :: !HeaderAt(s, q)
    ensures ParsedMaxAge(s) == None
  {
    assert !HeaderAt(s, 0);
    assert |s| > 8 ==> s[..8] == s[0..8];
    if s != "" {
      forall q: nat ensures !HeaderAt(s[1..], q) { HeaderShift(s, q); }
      NothingParsed(s[1..]);
    }
  }

  /** A number in decimal digits. */
  function Digits(n: nat): string {
    (if n < 10 then "" else Digits(n / 10)) + [('0' as int + n % 10) as char]
  }

  lemma {:induction false} NumberSnoc(digits: string, c: char, rest: string, read: nat)
    requires (forall d | d in digits :: IsDigit(d)) && IsDigit(c) && (rest != "" ==> !IsDigit(rest[0]))
    ensures Number(digits + [c] + rest, read) == 10 * Number(digits, read) + (c as int - '0' as int)
  {
    if digits == "" {
      assert (digits + [c] + rest)[1..] == rest;
    } else {
      assert digits[0] in digits;
      assert (digits + [c] + rest)[1..] == digits[1..] + [c] + rest;
      NumberSnoc(digits[1..], c, rest, 10 * read + (digits[0] as int - '0' as int));
    }
  }

  lemma {:induction false} NumberOfDigits(n: nat, rest: string)
    requires rest != "" ==> !IsDigit(rest[0])
    ensures Digits(n) != "" && (forall d | d in Digits(n) :: IsDigit(d)) && Number(Digits(n) + rest, 0) == n
  {
    var front := if n < 10 then "" else Digits(n / 10);
    if n >= 10 {
      NumberOfDigits(n / 10, "");
      assert front + "" == front;
    }
    NumberSnoc(front, ('0' as int + n % 10) as char, rest, 0);
  }

  /** A header whose first `max-age=` with a digit behind it names a number of seconds keeps keys that long, or 300 s for zero. */
  lemma MaxAgeReads(before: string, n: nat, rest: string)
    requires rest != "" ==> !IsDigit(rest[0])
    requires forall q: nat | q < |before| :: !HeaderAt(before + "max-age=" + Digits(n) + rest, q)
    ensures MaxAge(Some(before + "max-age=" + Digits(n) + rest)) == if n == 0 then 300 else n
  {
    var s := before + "max-age=" + Digits(n) + rest;
    NumberOfDigits(n, rest);
    assert s[|before|..|before| + 8] == "max-age=";
    assert s[|before| + 8..] == Digits(n) + rest;
    assert s[|before| + 8] == Digits(n)[0] && Digits(n)[0] in Digits(n);
    ParsedFrom(s, |before|);
  }

  /** A header without such a place, or no header, keeps them for 300 seconds. */
  lemma MaxAgeDefaults(cacheControl: Option<string>)
    requires cacheControl.Some? ==> forall q: nat :: !HeaderAt(cacheControl.value, q)
    ensures MaxAge(cacheControl) == 300
  {
    if cacheControl.Some? {
      NothingParsed(cacheControl.value);
    }
  }

  /** The key that unwraps is that of the first alias, in the order given, for which the service has an answer. */
  lemma {:induction false} FirstPlaintextIs(aliases: seq<string>, kms: string -> KmsAnswer)
    ensures FirstPlaintext(aliases, kms).None? ==> forall a | a in aliases :: !kms(a).Plaintext?
    ensures FirstPlaintext(aliases, kms).Some? ==>
              exists i: nat :: i < |aliases| && kms(aliases[i]) == Plaintext(FirstPlaintext(aliases, kms).value)
                               && forall j: nat | j < i :: !kms(aliases[j]).Plaintext?
  {
    if aliases != [] && !kms(aliases[0]).Plaintext? {
      var rest := aliases[1..];
      FirstPlaintextIs(rest, kms);
      assert aliases == [aliases[0]] + rest;
      if FirstPlaintext(rest, kms).Some? {
        var i: nat :| i < |rest| && kms(rest[i]) == Plaintext(FirstPlaintext(rest, kms).value)
                      && forall j: nat | j < i :: !kms(rest[j]).Plaintext?;
        assert kms(aliases[i + 1]) == Plaintext(FirstPlaintext(aliases, kms).value);
        forall j: nat | j < i + 1 ensures !kms(aliases[j]).Plaintext? {
          assert j > 0 ==> aliases[j] == rest[j - 1];
        }
      }
    }
  }
}
