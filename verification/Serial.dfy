/**
 Runs in which handlers do not overlap: each reads the current row and takes all its steps before
 another one starts. A scheduled job works on many sessions at once and its steps on them may come in
 any order, but it too runs by itself. Calls fail as they like.

 In a serial run guards hold throughout, so what guards protect holds unconditionally.
 */
module Serial {
  import opened Wrappers
  import opened SessionModel
  import opened Protocol
  import opened Interleaving
  import opened Trails
  import opened Guards
  import opened Credentials
  import opened Notices

  /** One handler from its read of the current row to its end. */
  ghost predicate OneHandler(w: World, acts: seq<Action>) {
    && acts != [] && acts[0].Start? && !IsJob(acts[0].req)
    && acts[0].sid in w.history && acts[0].version == |w.history[acts[0].sid]| - 1
    && forall k | 1 <= k < |acts| :: acts[k].Advance? && acts[k].ticket == acts[0].ticket
  }

  ghost predicate JobStep(w: World, a: Action)
    requires Enabled(w, a)
  {
    match a
    case Create(_, _) => false
    case Start(_, req, _, _, _) => IsJob(req)
    case Advance(t, _) => ExclusiveToJobs(w.flights[t].stage)
  }

  predicate ExclusiveToJobs(stage: Stage) {
    || stage.SendExpiry? || stage.StoreExpired? || stage.ReadPerson? || stage.SendReminder? || stage.FlagReminder?
  }

  ghost predicate OneJob(w: World, acts: seq<Action>)
    requires IsRun(w, acts)
    decreases |acts|
  {
    acts == [] || (JobStep(w, acts[0]) && OneJob(Next(w, acts[0]), acts[1..]))
  }

  lemma OneJobCons(w: World, a: Action, acts: seq<Action>)
    requires Enabled(w, a) && JobStep(w, a) && IsRun(Next(w, a), acts) && OneJob(Next(w, a), acts)
    ensures IsRun(w, [a] + acts) && OneJob(w, [a] + acts)
  {
    assert ([a] + acts)[1..] == acts;
  }

  lemma {:induction false} OneJobConcat(w: World, a: seq<Action>, b: seq<Action>)
    requires IsRun(w, a) && OneJob(w, a) && IsRun(After(w, a), b) && OneJob(After(w, a), b)
    ensures IsRun(w, a + b) && OneJob(w, a + b)
    decreases |a|
  {
    RunConcat(w, a, b);
    if a == [] {
      assert a + b == b;
    } else {
      assert (a + b)[1..] == a[1..] + b;
      var c, rest := a[0], a[1..] + b;
      OneJobConcat(Next(w, c), a[1..], b);
      OneJobCons(w, c, rest);
      assert [c] + rest == a + b;
    }
  }

  /** No session is started twice. A job reads many rows, but of one session only one. */
  ghost predicate EachOnce(acts: seq<Action>) {
    forall i, j | 0 <= i < j < |acts| && acts[i].Start? && acts[j].Start? :: acts[i].sid != acts[j].sid
  }

  /** What happens between two moments with no handler in flight. */
  ghost predicate Episode(w: World, acts: seq<Action>) {
    && IsRun(w, acts) && w.flights == map[] && After(w, acts).flights == map[]
    && ((|acts| == 1 && acts[0].Create?) || OneHandler(w, acts) || (OneJob(w, acts) && EachOnce(acts)))
  }

  ghost predicate Episodes(w: World, eps: seq<seq<Action>>)
    decreases |eps|
  {
    eps == [] || (Episode(w, eps[0]) && Episodes(After(w, eps[0]), eps[1..]))
  }

  function Flatten(eps: seq<seq<Action>>): seq<Action> {
    if eps == [] then [] else eps[0] + Flatten(eps[1..])
  }

  ghost predicate AllRecord(w: World, acts: seq<Action>, sid: SessionId)
    requires IsRun(w, acts)
    decreases |acts|
  {
    acts == [] || (Records(w, acts[0], sid) && AllRecord(Next(w, acts[0]), acts[1..], sid))
  }

  /** Stages a handler reaches before it has stored anything. */
  predicate BeforeStoring(stage: Stage) {
    || Guard(stage).Some? || stage.CreateYotiSession? || stage.StartLetterMachine?
    || stage.CheckYoti? || stage.AuditResponse? || stage.BuildCredential? || stage.SendCredential?
  }

  /** One handler is in flight at most, and until it stores something the row is as it read it. */
  ghost predicate Alone(w: World, t: nat) {
    && w.flights.Keys <= {t}
    && (t in w.flights && BeforeStoring(w.flights[t].stage) ==>
          w.flights[t].sid in w.history && w.history[w.flights[t].sid] != [] &&
          Last(w.history[w.flights[t].sid]) == w.flights[t].snap)
  }

  lemma StillBeforeStoring(f: Flight, env: Env)
    ensures var e := EffectOf(f, env);
            e.outcome.Continue? && BeforeStoring(e.outcome.stage) ==> e.update == None && BeforeStoring(f.stage)
  {
  }

  lemma StepAlone(w: World, t: nat, env: Env)
    requires Alone(w, t) && Enabled(w, Advance(t, env))
    ensures Alone(Next(w, Advance(t, env)), t)
  {
    StillBeforeStoring(w.flights[t], env);
  }

  lemma HeldAlone(w: World, t: nat, env: Env, sid: SessionId)
    requires Inv(w) && Alone(w, t) && Enabled(w, Advance(t, env))
    ensures StillHeld(w, Advance(t, env))
    ensures Records(w, Advance(t, env), sid) ==> Settles(w, Advance(t, env), sid)
  {
    var f := w.flights[t];
    assert FlightOk(f, w);
    if Guard(f.stage).Some? && EffectOf(f, env).update.Some? {
      GuardedUpdate(f, env, f.snap);
    }
    if f.stage.SendCredential? {
      assert forall u :: !Recording(w, u, f.sid);
    }
  }

  lemma {:induction false} AloneHolds(w: World, t: nat, acts: seq<Action>, sid: SessionId)
    requires Inv(w) && Alone(w, t) && IsRun(w, acts)
    requires forall a | a in acts :: a.Advance? && a.ticket == t
    ensures AllHeld(w, acts) && (AllRecord(w, acts, sid) ==> AllSettle(w, acts, sid))
    decreases |acts|
  {
    if acts != [] {
      HeldAlone(w, t, acts[0].env, sid);
      StepAlone(w, t, acts[0].env);
      NextKeepsInv(w, acts[0]);
      AloneHolds(Next(w, acts[0]), t, acts[1..], sid);
    }
  }

  lemma {:induction false} JobHolds(w: World, acts: seq<Action>, sid: SessionId)
    requires IsRun(w, acts) && OneJob(w, acts)
    ensures AllHeld(w, acts) && AllSettle(w, acts, sid) && AllRecord(w, acts, sid)
    decreases |acts|
  {
    if acts != [] {
      JobHolds(Next(w, acts[0]), acts[1..], sid);
    }
  }

  // ---------- jobs ----------

  /** No handler in flight works for the job. */
  ghost predicate NoneWorking(w: World, m: Mailing) {
    forall t | t in w.flights :: !Working(m, w.flights[t].stage)
  }

  /** The steps of handlers that do not work for the job are orderly. */
  lemma {:induction false} OthersOrderly(w: World, acts: seq<Action>, sid: SessionId, m: Mailing)
    requires NoneWorking(w, m) && IsRun(w, acts) && forall a | a in acts :: a.Start? ==> !For(m, a.req)
    ensures AllOrderly(w, acts, sid, m) && AllMark(w, acts, sid, m)
    decreases |acts|
  {
    if acts != [] {
      var a := acts[0];
      assert a in acts;
      if a.Start? {
        BeginUnsent(a.req, w.history[a.sid][a.version], a.env, m);
      } else if a.Advance? {
        NoticeStages(w.flights[a.ticket], a.env, Last(w.history[w.flights[a.ticket].sid]), m);
      }
      OthersOrderly(Next(w, a), acts[1..], sid, m);
    }
  }

  /** A job that starts no session twice is orderly if its reads and marks are; `begun` holds the sessions in flight. */
  lemma {:induction false} JobOrderly(w: World, acts: seq<Action>, begun: set<SessionId>, sid: SessionId, m: Mailing)
    requires IsRun(w, acts) && OneJob(w, acts) && AllMark(w, acts, sid, m) && EachOnce(acts)
    requires forall t | t in w.flights :: w.flights[t].sid in begun
    requires forall a | a in acts && a.Start? :: a.sid !in begun
    ensures AllOrderly(w, acts, sid, m)
    decreases |acts|
  {
    if acts != [] {
      var a, rest := acts[0], acts[1..];
      assert a in acts && !a.Create?;
      var begun' := if a.Start? then begun + {a.sid} else begun;
      forall b | b in rest && b.Start? ensures b.sid !in begun' {
        var k :| 0 <= k < |rest| && rest[k] == b;
        assert acts[k + 1] == b;
      }
      forall i, j | 0 <= i < j < |rest| && rest[i].Start? && rest[j].Start? ensures rest[i].sid != rest[j].sid {
        assert acts[i + 1] == rest[i] && acts[j + 1] == rest[j];
      }
      JobOrderly(Next(w, a), rest, begun', sid, m);
    }
  }

  lemma EpisodeOrderly(w: World, acts: seq<Action>, sid: SessionId, m: Mailing)
    requires Episode(w, acts) && AllMark(w, acts, sid, m)
    ensures AllOrderly(w, acts, sid, m)
  {
    if OneJob(w, acts) && EachOnce(acts) {
      JobOrderly(w, acts, {}, sid, m);
    } else {
      OthersOrderly(w, acts, sid, m);
    }
  }

  lemma {:induction false} ConcatOrderly(w: World, a: seq<Action>, b: seq<Action>, sid: SessionId, m: Mailing)
    requires IsRun(w, a) && IsRun(After(w, a), b)
    ensures IsRun(w, a + b)
    ensures AllMark(w, a + b, sid, m) <==> AllMark(w, a, sid, m) && AllMark(After(w, a), b, sid, m)
    ensures AllOrderly(w, a + b, sid, m) <==> AllOrderly(w, a, sid, m) && AllOrderly(After(w, a), b, sid, m)
    decreases |a|
  {
    RunConcat(w, a, b);
    if a == [] {
      assert a + b == b;
    } else {
      assert (a + b)[1..] == a[1..] + b;
      ConcatOrderly(Next(w, a[0]), a[1..], b, sid, m);
    }
  }

  lemma {:induction false} SerialOrderly(w: World, eps: seq<seq<Action>>, sid: SessionId, m: Mailing)
    requires Inv(w) && Episodes(w, eps) && IsRun(w, Flatten(eps)) && AllMark(w, Flatten(eps), sid, m)
    ensures AllOrderly(w, Flatten(eps), sid, m)
    decreases |eps|
  {
    if eps != [] {
      RunKeepsInv(w, eps[0]);
      SerialHolds(After(w, eps[0]), eps[1..], sid);
      ConcatOrderly(w, eps[0], Flatten(eps[1..]), sid, m);
      EpisodeOrderly(w, eps[0], sid, m);
      SerialOrderly(After(w, eps[0]), eps[1..], sid, m);
    }
  }

  lemma EpisodeHolds(w: World, acts: seq<Action>, sid: SessionId)
    requires Inv(w) && Episode(w, acts)
    ensures AllHeld(w, acts) && (AllRecord(w, acts, sid) ==> AllSettle(w, acts, sid))
  {
    if OneJob(w, acts) {
      JobHolds(w, acts, sid);
    } else {
      NextKeepsInv(w, acts[0]);
      var t := if acts[0].Start? then acts[0].ticket else 0;
      AloneHolds(Next(w, acts[0]), t, acts[1..], sid);
    }
  }

  lemma {:induction false} ConcatHolds(w: World, a: seq<Action>, b: seq<Action>, sid: SessionId)
    requires IsRun(w, a) && IsRun(After(w, a), b)
    ensures IsRun(w, a + b)
    ensures AllHeld(w, a + b) <==> AllHeld(w, a) && AllHeld(After(w, a), b)
    ensures AllRecord(w, a + b, sid) <==> AllRecord(w, a, sid) && AllRecord(After(w, a), b, sid)
    ensures AllSettle(w, a + b, sid) <==> AllSettle(w, a, sid) && AllSettle(After(w, a), b, sid)
    decreases |a|
  {
    RunConcat(w, a, b);
    if a == [] {
      assert a + b == b;
    } else {
      assert (a + b)[1..] == a[1..] + b;
      ConcatHolds(Next(w, a[0]), a[1..], b, sid);
    }
  }

  /** A serial run is a run, and one in which every guard still holds when its update lands. */
  lemma {:induction false} SerialHolds(w: World, eps: seq<seq<Action>>, sid: SessionId)
    requires Inv(w) && Episodes(w, eps)
    ensures IsRun(w, Flatten(eps)) && AllHeld(w, Flatten(eps))
    ensures AllRecord(w, Flatten(eps), sid) ==> AllSettle(w, Flatten(eps), sid)
    decreases |eps|
  {
    if eps != [] {
      EpisodeHolds(w, eps[0], sid);
      RunKeepsInv(w, eps[0]);
      SerialHolds(After(w, eps[0]), eps[1..], sid);
      ConcatHolds(w, eps[0], Flatten(eps[1..]), sid);
    }
  }

  /**
   In every serial run, whatever fails, a session never goes back, is handed one code and one token at most, and
   its Yoti id is stored once.
   */
  lemma SerialHandedOnce(eps: seq<seq<Action>>, sid: SessionId)
    requires Episodes(EmptyWorld, eps)
    ensures IsRun(EmptyWorld, Flatten(eps))
    ensures var w := After(EmptyWorld, Flatten(eps));
            && ForwardOf(w, sid)
            && Count(w.trail, sid, CodeGiven) <= 1 && Count(w.trail, sid, TokenGiven) <= 1
            && Count(w.trail, sid, YotiIdStored) <= 1
  {
    SerialHolds(EmptyWorld, eps, sid);
    HeldOf(EmptyWorld, Flatten(eps), sid);
    HandedOnce(Flatten(eps), sid);
  }

  /** In every serial run that records what it issues a session, its credentials and thank-you callbacks alternate. */
  lemma SerialCredentialsAlternate(eps: seq<seq<Action>>, sid: SessionId, i: nat, j: nat)
    requires Episodes(EmptyWorld, eps)
    requires IsRun(EmptyWorld, Flatten(eps)) && AllRecord(EmptyWorld, Flatten(eps), sid)
    ensures var trail := After(EmptyWorld, Flatten(eps)).trail;
            && Count(trail, sid, CredentialSent) <= Count(trail, sid, ThankYouStored)
            && (i < j < |trail| && trail[i] == trail[j] == Credential(sid) ==>
                  exists k :: i < k < j && trail[k] == Thanked(sid))
  {
    SerialHolds(EmptyWorld, eps, sid);
    CredentialsAlternate(Flatten(eps), sid, i, j);
  }

  /** In every serial run whose jobs read current flags of a session and mark it when it is notified: one notice at most. */
  lemma SerialNoticedOnce(eps: seq<seq<Action>>, sid: SessionId, m: Mailing)
    requires Episodes(EmptyWorld, eps)
    requires IsRun(EmptyWorld, Flatten(eps)) && AllMark(EmptyWorld, Flatten(eps), sid, m)
    ensures Count(After(EmptyWorld, Flatten(eps)).trail, sid, Sent(m)) <= 1
  {
    SerialOrderly(EmptyWorld, eps, sid, m);
    NoticedAtMostOnce(Flatten(eps), sid, m);
  }

  /** ... and when it is over, a session that was notified is flagged. */
  lemma SerialFlagged(eps: seq<seq<Action>>, sid: SessionId, m: Mailing)
    requires Episodes(EmptyWorld, eps)
    requires IsRun(EmptyWorld, Flatten(eps)) && AllMark(EmptyWorld, Flatten(eps), sid, m)
    requires After(EmptyWorld, Flatten(eps)).flights == map[]
    ensures var w := After(EmptyWorld, Flatten(eps)); SentSome(w, sid, m) ==> Flagged(w, sid, m)
  {
    SerialOrderly(EmptyWorld, eps, sid, m);
    RunNoticed(EmptyWorld, Flatten(eps), sid, m);
  }
}
