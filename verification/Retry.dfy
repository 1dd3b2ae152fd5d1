/**
 The retry loop around every call to Yoti, and the loop around that loop which fetches the instructions
 PDF. The dependency is an arbitrary stream of answers; how many calls are made, how long the loops sleep
 and what they return is exact.
 */
module Retry {
  import opened Wrappers

  datatype Answer =
    | Success(body: string)
    | Failed(status: Option<int>)  // no status when there was no response

  /** Both failures surface as an error with status 500. */
  datatype Failure = Unretryable | Exhausted

  type Answers = nat -> Answer

  /** The failures worth another try: a server error, or too many requests. */
  predicate Retryable(a: Answer) {
    a.Failed? && a.status.Some? && (500 <= a.status.value < 600 || a.status.value == 429)
  }

  /** Of the calls `first`, `first + 1`, ... the loop makes `k` more after the first one, and stops. */
  ghost predicate StopsAfter(answers: Answers, first: nat, maxRetries: nat, k: nat) {
    && k <= maxRetries
    && (forall i | first <= i < first + k :: Retryable(answers(i)))
    && (k == maxRetries || !Retryable(answers(first + k)))
  }

  /** What the last answer amounts to, when `retries` retries came before it. */
  function Verdict(last: Answer, retries: nat, maxRetries: nat): Result<string, Failure> {
    match last
    case Success(body) => Ok(body)
    case Failed(_) => Err(if retries == maxRetries then Exhausted else Unretryable)
  }

  /** `a` added up `n` times. */
  function Times(n: nat, a: nat): nat {
    if n == 0 then 0 else Times(n - 1, a) + a
  }

  lemma {:induction false} TimesIs(n: nat, a: nat)
    ensures Times(n, a) == n * a
  {
    if n > 0 {
      TimesIs(n - 1, a);
      assert n * a == (n - 1) * a + a;
    }
  }

  /** The sleep before retry `i` is `i` backoff periods, so there is none before the first. */
  function Slept(backoffMs: nat, retries: nat): nat {
    if retries == 0 then 0 else Slept(backoffMs, retries - 1) + Times(retries - 1, backoffMs)
  }

  lemma NextTriangle(r: int)
    ensures (r + 1) * r == r * (r - 1) + 2 * r
  {
  }

  lemma Distribute(b: int, x: int, y: int)
    ensures b * (x + 2 * y) == b * x + 2 * (y * b)
  {
  }

  lemma {:induction false} SleptIs(backoffMs: nat, retries: nat)
    ensures 2 * Slept(backoffMs, retries) == backoffMs * (retries * (retries - 1))
  {
    if retries > 0 {
      var r := retries - 1;
      calc {
        2 * Slept(backoffMs, retries);
        2 * Slept(backoffMs, r) + 2 * Times(r, backoffMs);
        { SleptIs(backoffMs, r); TimesIs(r, backoffMs); }
        backoffMs * (r * (r - 1)) + 2 * (r * backoffMs);
        { Distribute(backoffMs, r * (r - 1), r); }
        backoffMs * (r * (r - 1) + 2 * r);
        { NextTriangle(r); }
        backoffMs * (retries * r);
      }
    }
  }

  /** There is one place only at which the loop can stop. */
  lemma StopsOnce(answers: Answers, first: nat, maxRetries: nat, k: nat, m: nat)
    requires StopsAfter(answers, first, maxRetries, k) && StopsAfter(answers, first, maxRetries, m)
    ensures k == m
  {
    var i: nat, j: nat := first + k, first + m;
    assert k < m ==> Retryable(answers(i));
    assert m < k ==> Retryable(answers(j));
  }

  method MakeRetryableYotiRequest(answers: Answers, first: nat, maxRetries: nat, backoffPeriodMs: nat)
    returns (result: Result<string, Failure>, calls: nat, slept: nat)
    ensures calls > 0 && StopsAfter(answers, first, maxRetries, calls - 1)
    ensures result == Verdict(answers(first + calls - 1), calls - 1, maxRetries)
    ensures forall i | first <= i < first + calls - 1 ::
      answers(i).Failed? && answers(i).status.Some? && (500 <= answers(i).status.value < 600 || answers(i).status.value == 429)
    ensures result == match answers(first + calls - 1)
                      case Success(body) => Ok(body)
                      case Failed(_) => Err(if calls - 1 == maxRetries then Exhausted else Unretryable)
    ensures result == Err(Unretryable) ==>
      var status := answers(first + calls - 1).status;
      status.None? || (status.value != 429 && !(500 <= status.value < 600))
    ensures slept == Slept(backoffPeriodMs, calls - 1)
  {
    var retryCount: nat := 0;
    slept := 0;
    while retryCount <= maxRetries
      invariant retryCount <= maxRetries
      invariant forall i | first <= i < first + retryCount :: Retryable(answers(i))
      invariant slept == Slept(backoffPeriodMs, retryCount)
    {
      var yotiResponse := answers(first + retryCount);
      calls := retryCount + 1;
      if yotiResponse.Success? {
        return Ok(yotiResponse.body), calls, slept;
      }
      if retryCount == maxRetries {
        return Err(Exhausted), calls, slept;
      }
      var is5xx := yotiResponse.status.Some? && yotiResponse.status.value >= 500 && yotiResponse.status.value < 600;
      var shouldRetry := is5xx || yotiResponse.status == Some(429);
      if shouldRetry {
        TimesIs(retryCount, backoffPeriodMs);
        slept := slept + backoffPeriodMs * retryCount;
        retryCount := retryCount + 1;
      } else {
        return Err(Unretryable), calls, slept;
      }
    }
    assert false;
  }

  // ---------- fetching the instructions PDF ----------

  datatype Settings = Settings(maxRetries: nat, backoffMs: nat, pdfMaxRetries: nat, pdfBackoffMs: nat)

  /** How the fetch ends; every error it throws has status 500. */
  datatype Fetched = Pdf(body: string) | ServerError

  datatype Trace = Trace(result: Fetched, calls: nat, slept: nat)

  /** Where the inner loop stops. */
  function Retries(answers: Answers, first: nat, maxRetries: nat): nat
    decreases maxRetries
  {
    if maxRetries == 0 || !Retryable(answers(first)) then 0 else Retries(answers, first + 1, maxRetries - 1) + 1
  }

  lemma {:induction false} RetriesStop(answers: Answers, first: nat, maxRetries: nat)
    ensures StopsAfter(answers, first, maxRetries, Retries(answers, first, maxRetries))
    decreases maxRetries
  {
    if maxRetries > 0 && Retryable(answers(first)) {
      RetriesStop(answers, first + 1, maxRetries - 1);
    }
  }

  /** One attempt. If its request cannot be signed it fails before any call. */
  function Attempt(answers: Answers, signs: nat -> bool, s: Settings, first: nat, j: nat): Trace {
    if !signs(j) then Trace(ServerError, 0, 0)
    else
      var k := Retries(answers, first, s.maxRetries);
      Trace(if answers(first + k).Success? then Pdf(answers(first + k).body) else ServerError, k + 1, Slept(s.backoffMs, k))
  }

  /** The attempts from number `j` on, after `calls` calls and `slept` milliseconds. */
  function Attempts(answers: Answers, signs: nat -> bool, s: Settings, j: nat, calls: nat, slept: nat): Trace
    requires j <= s.pdfMaxRetries
    decreases s.pdfMaxRetries - j
  {
    var a := Attempt(answers, signs, s, calls, j);
    if a.result.Pdf? || j == s.pdfMaxRetries then Trace(a.result, calls + a.calls, slept + a.slept)
    else Attempts(answers, signs, s, j + 1, calls + a.calls, slept + a.slept + s.pdfBackoffMs)
  }

  /** One pass of the outer loop's try block. */
  method TryOnce(answers: Answers, signs: nat -> bool, s: Settings, first: nat, j: nat)
    returns (instructionsPdf: Fetched, calls: nat, slept: nat)
    requires forall i :: answers(i) != Success("")
    ensures Trace(instructionsPdf, calls, slept) == Attempt(answers, signs, s, first, j)
    ensures instructionsPdf.Pdf? ==> instructionsPdf.body != ""
  {
    if !signs(j) {
      return ServerError, 0, 0;
    }
    var response: Result<string, Failure>;
    response, calls, slept := MakeRetryableYotiRequest(answers, first, s.maxRetries, s.backoffMs);
    RetriesStop(answers, first, s.maxRetries);
    StopsOnce(answers, first, s.maxRetries, calls - 1, Retries(answers, first, s.maxRetries));
    instructionsPdf := if response.Ok? then Pdf(response.value) else ServerError;
  }

  method FetchInstructionsPdf(answers: Answers, signs: nat -> bool, configured: bool, s: Settings)
    returns (result: Fetched, calls: nat, slept: nat)
    requires forall i :: answers(i) != Success("")
    ensures Trace(result, calls, slept) ==
            if configured then Attempts(answers, signs, s, 0, 0, 0) else Trace(ServerError, 0, 0)
  {
    calls, slept := 0, 0;
    if !configured {
      return ServerError, calls, slept;
    }
    var retryCount: nat := 0;
    while retryCount <= s.pdfMaxRetries
      invariant retryCount <= s.pdfMaxRetries
      invariant Attempts(answers, signs, s, 0, 0, 0) == Attempts(answers, signs, s, retryCount, calls, slept)
    {
      var instructionsPdf, made, waited := TryOnce(answers, signs, s, calls, retryCount);
      calls, slept := calls + made, slept + waited;
      if instructionsPdf.Pdf? {
        if instructionsPdf.body != "" {
          return instructionsPdf, calls, slept;
        }
      } else if retryCount < s.pdfMaxRetries {
        slept := slept + s.pdfBackoffMs;
        retryCount := retryCount + 1;
      } else {
        return ServerError, calls, slept;
      }
    }
    assert false;
  }

  /** How many attempts are left at attempt `j`. */
  function Left(s: Settings, j: nat): nat
    requires j <= s.pdfMaxRetries
  {
    s.pdfMaxRetries - j + 1
  }

  /** At most (M + 1)(N + 1) calls, whatever the answers. */
  lemma {:induction false} CallsBounded(answers: Answers, signs: nat -> bool, s: Settings, j: nat, calls: nat, slept: nat)
    requires j <= s.pdfMaxRetries
    ensures Attempts(answers, signs, s, j, calls, slept).calls <= calls + Times(Left(s, j), s.maxRetries + 1)
    decreases s.pdfMaxRetries - j
  {
    var a := Attempt(answers, signs, s, calls, j);
    RetriesStop(answers, calls, s.maxRetries);
    if j < s.pdfMaxRetries {
      CallsBounded(answers, signs, s, j + 1, calls + a.calls, slept + a.slept + s.pdfBackoffMs);
    }
  }

  lemma AttemptSuccess(answers: Answers, signs: nat -> bool, s: Settings, first: nat, j: nat, i: nat)
    ensures var a := Attempt(answers, signs, s, first, j);
            && (a.result.Pdf? ==> a.calls > 0 && answers(first + a.calls - 1) == Success(a.result.body))
            && (first <= i < first + a.calls && answers(i).Success? ==> a.result.Pdf? && i == first + a.calls - 1)
  {
    var k := Retries(answers, first, s.maxRetries);
    RetriesStop(answers, first, s.maxRetries);
    assert first <= i < first + k ==> Retryable(answers(i));
  }

  /** The fetch ends with its first success: no call before the last one succeeded, and that one did if any did. */
  lemma {:induction false} FirstSuccess(answers: Answers, signs: nat -> bool, s: Settings, j: nat, calls: nat, slept: nat,
                                        i: nat)
    requires j <= s.pdfMaxRetries
    ensures var t := Attempts(answers, signs, s, j, calls, slept);
            && calls <= t.calls
            && (t.result.Pdf? ==> t.calls > calls && answers(t.calls - 1) == Success(t.result.body))
            && (calls <= i < t.calls && answers(i).Success? ==> t.result.Pdf? && i == t.calls - 1)
    decreases s.pdfMaxRetries - j
  {
    var a := Attempt(answers, signs, s, calls, j);
    AttemptSuccess(answers, signs, s, calls, j, i);
    if j < s.pdfMaxRetries && !a.result.Pdf? {
      FirstSuccess(answers, signs, s, j + 1, calls + a.calls, slept + a.slept + s.pdfBackoffMs, i);
    }
  }

  /** When every call fails retryably: exactly (M + 1)(N + 1) calls, and M outer sleeps beside M + 1 inner series. */
  lemma {:induction false} AllRetryable(answers: Answers, signs: nat -> bool, s: Settings, j: nat, calls: nat, slept: nat)
    requires j <= s.pdfMaxRetries && forall i :: Retryable(answers(i))
    requires forall m :: signs(m)
    ensures var left := Left(s, j);
            Attempts(answers, signs, s, j, calls, slept) ==
            Trace(ServerError, calls + Times(left, s.maxRetries + 1),
                  slept + Times(left - 1, s.pdfBackoffMs) + Times(left, Slept(s.backoffMs, s.maxRetries)))
    decreases s.pdfMaxRetries - j
  {
    var series := Slept(s.backoffMs, s.maxRetries);
    assert Attempt(answers, signs, s, calls, j) == Trace(ServerError, s.maxRetries + 1, series) by {
      RetriesStop(answers, calls, s.maxRetries);
      assert Retryable(answers(calls + Retries(answers, calls, s.maxRetries)));
    }
    if j < s.pdfMaxRetries {
      AllRetryable(answers, signs, s, j + 1, calls + s.maxRetries + 1, slept + series + s.pdfBackoffMs);
    }
  }

  /** When every call fails unretryably, each of the M + 1 attempts is one call: its error has status 500. */
  lemma {:induction false} AllUnretryable(answers: Answers, signs: nat -> bool, s: Settings, j: nat, calls: nat, slept: nat)
    requires j <= s.pdfMaxRetries && forall i :: answers(i).Failed? && !Retryable(answers(i))
    requires forall m :: signs(m)
    ensures Attempts(answers, signs, s, j, calls, slept) ==
            Trace(ServerError, calls + Left(s, j), slept + Times(Left(s, j) - 1, s.pdfBackoffMs))
    decreases s.pdfMaxRetries - j
  {
    assert Attempt(answers, signs, s, calls, j) == Trace(ServerError, 1, 0);
    if j < s.pdfMaxRetries {
      AllUnretryable(answers, signs, s, j + 1, calls + 1, slept + s.pdfBackoffMs);
    }
  }

  lemma DoubleSlept(times: nat, backoffMs: nat, retries: nat)
    ensures 2 * Times(times, Slept(backoffMs, retries)) == times * (backoffMs * (retries * (retries - 1)))
  {
    var series := Slept(backoffMs, retries);
    TimesIs(times, series);
    SleptIs(backoffMs, retries);
    assert 2 * (times * series) == times * (2 * series);
  }

  /** At most (M + 1)(N + 1) calls; exactly so many, and exactly so much sleep, when every call fails retryably. */
  lemma FetchBounds(answers: Answers, signs: nat -> bool, s: Settings)
    ensures var t, m, n := Attempts(answers, signs, s, 0, 0, 0), s.pdfMaxRetries, s.maxRetries;
            && t.calls <= (m + 1) * (n + 1)
            && ((forall i :: Retryable(answers(i))) && (forall j :: signs(j)) ==>
                  && t.result == ServerError && t.calls == (m + 1) * (n + 1)
                  && 2 * t.slept == 2 * (m * s.pdfBackoffMs) + (m + 1) * (s.backoffMs * (n * (n - 1))))
  {
    var m, n := s.pdfMaxRetries, s.maxRetries;
    CallsBounded(answers, signs, s, 0, 0, 0);
    TimesIs(m + 1, n + 1);
    if (forall i :: Retryable(answers(i))) && forall j :: signs(j) {
      AllRetryable(answers, signs, s, 0, 0, 0);
      TimesIs(m, s.pdfBackoffMs);
      DoubleSlept(m + 1, s.backoffMs, n);
    }
  }

  /** An unretryable error of the inner loop has status 500, so the outer loop tries again all the same. */
  lemma UnretryableIsRetried(answers: Answers, signs: nat -> bool, s: Settings)
    requires forall i :: answers(i).Failed? && !Retryable(answers(i))
    requires forall j :: signs(j)
    ensures Attempts(answers, signs, s, 0, 0, 0) == Trace(ServerError, s.pdfMaxRetries + 1, s.pdfMaxRetries * s.pdfBackoffMs)
  {
    AllUnretryable(answers, signs, s, 0, 0, 0);
    TimesIs(s.pdfMaxRetries, s.pdfBackoffMs);
  }

  /** An attempt whose request cannot be signed costs one retry and one outer pause, and no call. */
  lemma {:induction false} UnsignedIsRetried(answers: Answers, signs: nat -> bool, s: Settings, j: nat, k: nat, calls: nat, slept: nat)
    requires j <= k <= s.pdfMaxRetries && forall i | j <= i < k :: !signs(i)
    ensures Attempts(answers, signs, s, j, calls, slept) ==
            Attempts(answers, signs, s, k, calls, slept + Times(k - j, s.pdfBackoffMs))
    decreases k - j
  {
    if j < k {
      UnsignedIsRetried(answers, signs, s, j + 1, k, calls, slept + s.pdfBackoffMs);
    }
  }
}
