/**
 One run of the expiry job is one serial episode of the protocol, whatever version of each row the index returns.
 */
module JobEpisode {
  import opened Wrappers
  import opened SessionModel
  import opened Protocol
  import opened Trails
  import opened Notices
  import opened Serial
  import opened HandlerSpec
  import opened HandlerEpisode
  import opened Sweep
  import opened ExpiryJob
  import opened Versions

  /** The sessions a job may work on, each once: its read and its filter accept a version their row had at some time. */
  ghost predicate Workable(w: World, m: Mailing, items: seq<Item>, cutoff: int) {
    && Distinct(items)
    && forall k | 0 <= k < |items| :: Known(w, items[k]) && Queries(m, items[k].row.state) && Eligible(m, items[k].row, cutoff)
  }

  ghost predicate Known(w: World, item: Item) {
    item.sid in w.history && item.row in w.history[item.sid]
  }

  predicate SentBefore(st: Store, sid: SessionId, m: Mailing) {
    Count(st.trail, sid, Sent(m)) > 0
  }

  /** Once the session has been sent one, the index is not behind on its flag. */
  predicate FlagCurrent(st: Store, item: Item, m: Mailing) {
    item.sid in st.table && (SentBefore(st, item.sid, m) ==> Flag(m, item.row) == Flag(m, st.table[item.sid]))
  }

  /** The flag of the session is current when it is read. */
  ghost predicate ReadsCurrent(st: Store, items: seq<Item>, sid: SessionId, m: Mailing) {
    forall x | x in items && x.sid == sid :: FlagCurrent(st, x, m)
  }

  /** Once the session has been sent a notice, its mark succeeds; the marks are the calls after all notices. */
  ghost predicate MarksSent(noticed: Store, items: seq<Item>, script: Script, sid: SessionId) {
    forall k | 0 <= k < |items| && items[k].sid == sid :: SentBefore(noticed, sid, ExpiryMail) ==> script(|items| + k).ok
  }

  /** A run of job steps from `w` to `w'`, which reads the first `n` sessions and keeps the marks of `sid` if `marks` says so. */
  ghost predicate JobRun(w: World, acts: seq<Action>, w': World, items: seq<Item>, n: nat, sid: SessionId, marks: bool) {
    && IsRun(w, acts) && After(w, acts) == w' && OneJob(w, acts)
    && n <= |items| && n <= |acts|
    && (forall k | 0 <= k < n :: acts[k].Start? && acts[k].sid == items[k].sid && acts[k].req.Expire?)
    && (forall k | n <= k < |acts| :: acts[k].Advance?)
    && (marks ==> AllMark(w, acts, sid, ExpiryMail))
  }

  lemma {:induction false} OneJobSnoc(w: World, acts: seq<Action>, a: Action)
    requires IsRun(w, acts) && OneJob(w, acts) && Enabled(After(w, acts), a) && JobStep(After(w, acts), a)
    ensures IsRun(w, acts + [a]) && OneJob(w, acts + [a]) && After(w, acts + [a]) == Next(After(w, acts), a)
    decreases |acts|
  {
    RunSnoc(w, acts, a);
    if acts == [] {
      assert [a][1..] == [];
      assert acts + [a] == [a];
    } else {
      assert (acts + [a])[1..] == acts[1..] + [a];
      OneJobSnoc(Next(w, acts[0]), acts[1..], a);
    }
  }

  lemma MarkSnoc(w: World, acts: seq<Action>, a: Action, sid: SessionId, m: Mailing)
    requires IsRun(w, acts) && Enabled(After(w, acts), a) && AllMark(w, acts, sid, m) && Marks(After(w, acts), a, sid, m)
    ensures IsRun(w, acts + [a]) && AllMark(w, acts + [a], sid, m)
  {
    assert [a][1..] == [];
    assert IsRun(After(w, acts), [a]) && AllMark(After(w, acts), [a], sid, m);
    ConcatOrderly(w, acts, [a], sid, m);
  }

  lemma ReadSnoc(w: World, acts: seq<Action>, w': World, items: seq<Item>, n: nat, sid: SessionId, marks: bool, a: Action)
    requires JobRun(w, acts, w', items, n, sid, marks) && |acts| == n < |items|
    requires a.Start? && a.req.Expire? && a.sid == items[n].sid && Enabled(w', a)
    requires marks ==> Marks(w', a, sid, ExpiryMail)
    ensures JobRun(w, acts + [a], Next(w', a), items, n + 1, sid, marks)
  {
    OneJobSnoc(w, acts, a);
    if marks { MarkSnoc(w, acts, a, sid, ExpiryMail); }
  }

  lemma AdvanceSnoc(w: World, acts: seq<Action>, w': World, items: seq<Item>, n: nat, sid: SessionId, marks: bool, a: Action)
    requires JobRun(w, acts, w', items, n, sid, marks)
    requires a.Advance? && Enabled(w', a) && ExclusiveToJobs(w'.flights[a.ticket].stage)
    requires marks ==> Marks(w', a, sid, ExpiryMail)
    ensures JobRun(w, acts + [a], Next(w', a), items, n, sid, marks)
  {
    OneJobSnoc(w, acts, a);
    if marks { MarkSnoc(w, acts, a, sid, ExpiryMail); }
  }

  /** A handler expiring one of the sessions has reached a stage. */
  predicate Expires(f: Flight, item: Item, cutoff: int, stage: Stage) {
    f == Flight(Expire(cutoff), item.sid, f.seen, item.row, stage)
  }

  /** The handlers in flight: sessions from `from` up to `to` each have theirs, the first `sent` past the notice. */
  ghost predicate InFlight(flights: map<nat, Flight>, items: seq<Item>, cutoff: int, from: nat, to: nat, sent: nat) {
    && from <= to <= |items|
    && (forall k :: k in flights <==> from <= k < to)
    && (forall k | k in flights :: Expires(flights[k], items[k], cutoff, if k < sent then StoreExpired else SendExpiry))
  }

  lemma ReadStep(w: World, acts: seq<Action>, before: World, st: Store, items: seq<Item>, cutoff: int, sid: SessionId,
                 marks: bool, n: nat)
    returns (acts': seq<Action>, w': World)
    requires n < |items| && Workable(w, ExpiryMail, items, cutoff) && Abstracts(w, st) && before.history == w.history
    requires |acts| == n && JobRun(w, acts, before, items, n, sid, marks) && Abstracts(before, st)
    requires InFlight(before.flights, items, cutoff, 0, n, 0) && (marks ==> ReadsCurrent(st, items, sid, ExpiryMail))
    ensures |acts'| == n + 1 && JobRun(w, acts', w', items, n + 1, sid, marks)
    ensures Abstracts(w', st) && InFlight(w'.flights, items, cutoff, 0, n + 1, 0) && w'.history == w.history
  {
    var a := ReadOf(w, items[n], cutoff, n);
    assert marks && items[n].sid == sid ==> FlagCurrent(st, items[n], ExpiryMail);
    ReadSnoc(w, acts, before, items, n, sid, marks, a);
    acts', w' := acts + [a], Next(before, a);
  }

  /** The reads: the first `n` sessions are in flight. */
  lemma {:induction false} ReadAll(w: World, st: Store, items: seq<Item>, cutoff: int, sid: SessionId, marks: bool, n: nat)
    returns (acts: seq<Action>, w': World)
    requires Abstracts(w, st) && w.flights == map[] && Workable(w, ExpiryMail, items, cutoff) && n <= |items|
    requires marks ==> ReadsCurrent(st, items, sid, ExpiryMail)
    ensures |acts| == n && JobRun(w, acts, w', items, n, sid, marks)
    ensures Abstracts(w', st) && InFlight(w'.flights, items, cutoff, 0, n, 0) && w'.history == w.history
    decreases n
  {
    if n == 0 {
      acts, w' := [], w;
    } else {
      acts, w' := ReadAll(w, st, items, cutoff, sid, marks, n - 1);
      acts, w' := ReadStep(w, acts, w', st, items, cutoff, sid, marks, n - 1);
    }
  }

  /** The read that finds the version the index returned. */
  lemma ReadOf(w: World, item: Item, cutoff: int, t: nat) returns (a: Action)
    requires Known(w, item) && Swept(item.row.state) && Eligible(ExpiryMail, item.row, cutoff)
    ensures a.Start? && a.ticket == t && a.req == Expire(cutoff) && a.sid == item.sid
    ensures a.version < |w.history[item.sid]| && w.history[item.sid][a.version] == item.row
    ensures Begin(Expire(cutoff), item.row, a.env) == Continue(SendExpiry)
  {
    var v :| 0 <= v < |w.history[item.sid]| && w.history[item.sid][v] == item.row;
    a := Start(t, Expire(cutoff), item.sid, v, Env(true, None, true, 500, "", item.row.expiryDate - 1));
  }

  /** What the handler of session `k` is answered in a round. */
  function Answer(items: seq<Item>, stage: Stage, script: Script, k: nat): Env {
    if stage.SendExpiry? then script(k) else script(|items| + k)
  }

  /** One step of a round, on the store. */
  function One(st: Store, sid: SessionId, stage: Stage, ok: bool): Store
    requires sid in st.table
  {
    if stage.SendExpiry? then NoticeOne(st, sid, ok) else MarkOne(st, sid, ok)
  }

  lemma OneIs(st: Store, item: Item, cutoff: int, stage: Stage, env: Env)
    requires item.sid in st.table && (stage.SendExpiry? || stage.StoreExpired?)
    ensures Enact(st, item.sid, Act(Expire(cutoff), item.sid, item.row, stage, env)) == One(st, item.sid, stage, env.ok)
  {
  }

  /** The stores a round goes through. */
  ghost predicate Staged(stores: seq<Store>, items: seq<Item>, stage: Stage, script: Script) {
    && |stores| == |items| + 1
    && forall k {:trigger items[k]} | 0 <= k < |items| ::
         items[k].sid in stores[k].table &&
         stores[k + 1] == One(stores[k], items[k].sid, stage, Answer(items, stage, script, k).ok)
  }

  lemma NoticesStaged(st: Store, items: seq<Item>, script: Script) returns (stores: seq<Store>)
    requires AllStored(items, st.table)
    ensures Staged(stores, items, SendExpiry, script) && stores[0] == st
    ensures stores[|items|] == NoticeWave(st, items, |items|, script)
  {
    stores := seq(|items| + 1, i requires 0 <= i <= |items| => NoticeWave(st, items, i, script));
    assert forall k | 0 <= k < |items| :: items[k] in items;
  }

  lemma MarkWaveStep(st: Store, items: seq<Item>, script: Script, k: nat)
    requires AllStored(items, st.table) && k < |items|
    ensures items[k].sid in MarkWave(st, items, k, script).table
    ensures MarkWave(st, items, k + 1, script) ==
            One(MarkWave(st, items, k, script), items[k].sid, StoreExpired, Answer(items, StoreExpired, script, k).ok)
  {
    assert items[k] in items;
  }

  lemma MarksStaged(st: Store, items: seq<Item>, script: Script) returns (stores: seq<Store>)
    requires AllStored(items, st.table)
    ensures Staged(stores, items, StoreExpired, script) && stores[0] == st
    ensures stores[|items|] == MarkWave(st, items, |items|, script)
  {
    stores := seq(|items| + 1, i requires 0 <= i <= |items| => MarkWave(st, items, i, script));
    forall k | 0 <= k < |items|
      ensures items[k].sid in stores[k].table &&
              stores[k + 1] == One(stores[k], items[k].sid, StoreExpired, Answer(items, StoreExpired, script, k).ok)
    {
      MarkWaveStep(st, items, script, k);
    }
  }

  /** The handlers in flight after handler `t` has taken a step. */
  function Stepped(flights: map<nat, Flight>, t: nat, stage: Stage): map<nat, Flight>
    requires t in flights
  {
    if stage.SendExpiry? then flights[t := flights[t].(stage := StoreExpired)] else flights - {t}
  }

  lemma StepFlight(before: World, t: nat, env: Env)
    requires Enabled(before, Advance(t, env))
    requires before.flights[t].stage.SendExpiry? || before.flights[t].stage.StoreExpired?
    ensures Next(before, Advance(t, env)).flights == Stepped(before.flights, t, before.flights[t].stage)
  {
  }

  /** The `n`-th step in a round, on the world and on the store. */
  lemma JobStepBoth(w: World, acts: seq<Action>, before: World, stores: seq<Store>, items: seq<Item>, sid: SessionId,
                    marks: bool, n: nat, cutoff: int, stage: Stage, script: Script)
    returns (acts': seq<Action>, w': World)
    requires Staged(stores, items, stage, script) && 0 < n <= |items| && (stage.SendExpiry? || stage.StoreExpired?)
    requires JobRun(w, acts, before, items, |items|, sid, marks) && Abstracts(before, stores[n - 1])
    requires n - 1 in before.flights && Expires(before.flights[n - 1], items[n - 1], cutoff, stage)
    requires marks && stage.StoreExpired? && items[n - 1].sid == sid && SentSome(before, sid, ExpiryMail) ==>
      Answer(items, stage, script, n - 1).ok
    ensures w'.flights == Stepped(before.flights, n - 1, stage) && JobRun(w, acts', w', items, |items|, sid, marks)
    ensures Abstracts(w', stores[n])
  {
    var a := Advance(n - 1, Answer(items, stage, script, n - 1));
    OneIs(stores[n - 1], items[n - 1], cutoff, stage, a.env);
    AdvanceSnoc(w, acts, before, items, |items|, sid, marks, a);
    StepAbstracts(before, stores[n - 1], n - 1, a.env);
    StepFlight(before, n - 1, a.env);
    acts', w' := acts + [a], Next(before, a);
    assert stores[n] == stores[n - 1 + 1];
  }

  lemma MarkCount(st: Store, item: Item, ok: bool, sid: SessionId)
    requires item.sid in st.table
    ensures Count(MarkOne(st, item.sid, ok).trail, sid, NoticeSent) == Count(st.trail, sid, NoticeSent)
  {
    CountAppend(st.trail, [Stored(item.sid, MarkAsExpired)], sid, NoticeSent);
    CountFew([Stored(item.sid, MarkAsExpired)], sid, NoticeSent);
  }

  /** Marking adds no notices. */
  lemma {:induction false} MarkCounts(stores: seq<Store>, items: seq<Item>, n: nat, script: Script, sid: SessionId)
    requires Staged(stores, items, StoreExpired, script) && n <= |items|
    ensures SentBefore(stores[n], sid, ExpiryMail) <==> SentBefore(stores[0], sid, ExpiryMail)
  {
    if n > 0 {
      MarkCounts(stores, items, n - 1, script, sid);
      assert stores[n] == stores[n - 1 + 1];
      MarkCount(stores[n - 1], items[n - 1], Answer(items, StoreExpired, script, n - 1).ok, sid);
    }
  }

  /** A session that has been sent a notice after the first round had one before, or its own has just been accepted. */
  lemma {:induction false} NoticeCounts(st: Store, items: seq<Item>, n: nat, script: Script, k: nat)
    requires n <= |items| && k < |items| && Distinct(items)
    ensures SentBefore(NoticeWave(st, items, n, script), items[k].sid, ExpiryMail) ==>
            SentBefore(st, items[k].sid, ExpiryMail) || script(k).ok
  {
    if n > 0 {
      NoticeCounts(st, items, n - 1, script, k);
      var notice := [ExpiryNotice(items[n - 1].sid)];
      CountAppend(NoticeWave(st, items, n - 1, script).trail, notice, items[k].sid, NoticeSent);
      CountFew(notice, items[k].sid, NoticeSent);
    }
  }

  lemma NoticeFlights(flights: map<nat, Flight>, items: seq<Item>, cutoff: int, n: nat)
    requires 0 < n <= |items| && InFlight(flights, items, cutoff, 0, |items|, n - 1)
    ensures InFlight(Stepped(flights, n - 1, SendExpiry), items, cutoff, 0, |items|, n)
  {
  }

  lemma MarkFlights(flights: map<nat, Flight>, items: seq<Item>, cutoff: int, n: nat)
    requires 0 < n <= |items| && InFlight(flights, items, cutoff, n - 1, |items|, |items|)
    ensures InFlight(Stepped(flights, n - 1, StoreExpired), items, cutoff, n, |items|, |items|)
  {
  }

  /** The first `n` sessions have tried their notice; then, in a second round, their mark, and are done. */
  ghost predicate Reached(w: World, acts: seq<Action>, w': World, st: Store, items: seq<Item>, cutoff: int,
                          stage: Stage, sid: SessionId, marks: bool, n: nat)
  {
    && JobRun(w, acts, w', items, |items|, sid, marks) && Abstracts(w', st)
    && (if stage.SendExpiry? then InFlight(w'.flights, items, cutoff, 0, |items|, n)
        else InFlight(w'.flights, items, cutoff, n, |items|, |items|))
  }

  lemma NoticeStep(w: World, acts: seq<Action>, before: World, stores: seq<Store>, items: seq<Item>, cutoff: int,
                   script: Script, sid: SessionId, marks: bool, n: nat)
    returns (acts': seq<Action>, w': World)
    requires Staged(stores, items, SendExpiry, script) && 0 < n <= |items|
    requires Reached(w, acts, before, stores[n - 1], items, cutoff, SendExpiry, sid, marks, n - 1)
    ensures Reached(w, acts', w', stores[n], items, cutoff, SendExpiry, sid, marks, n)
  {
    acts', w' := JobStepBoth(w, acts, before, stores, items, sid, marks, n, cutoff, SendExpiry, script);
    NoticeFlights(before.flights, items, cutoff, n);
  }

  lemma {:induction false} NotifyAll(w: World, acts: seq<Action>, mid: World, stores: seq<Store>, items: seq<Item>,
                                     cutoff: int, script: Script, sid: SessionId, marks: bool, n: nat)
    returns (acts': seq<Action>, w': World)
    requires Staged(stores, items, SendExpiry, script) && n <= |items|
    requires Reached(w, acts, mid, stores[0], items, cutoff, SendExpiry, sid, marks, 0)
    ensures Reached(w, acts', w', stores[n], items, cutoff, SendExpiry, sid, marks, n)
    decreases n
  {
    if n == 0 {
      acts', w' := acts, mid;
    } else {
      acts', w' := NotifyAll(w, acts, mid, stores, items, cutoff, script, sid, marks, n - 1);
      acts', w' := NoticeStep(w, acts', w', stores, items, cutoff, script, sid, marks, n);
    }
  }

  lemma MarkStep(w: World, acts: seq<Action>, before: World, stores: seq<Store>, items: seq<Item>, cutoff: int,
                 script: Script, sid: SessionId, marks: bool, n: nat)
    returns (acts': seq<Action>, w': World)
    requires Staged(stores, items, StoreExpired, script) && 0 < n <= |items|
    requires marks ==> MarksSent(stores[0], items, script, sid)
    requires Reached(w, acts, before, stores[n - 1], items, cutoff, StoreExpired, sid, marks, n - 1)
    ensures Reached(w, acts', w', stores[n], items, cutoff, StoreExpired, sid, marks, n)
  {
    MarkCounts(stores, items, n - 1, script, sid);
    acts', w' := JobStepBoth(w, acts, before, stores, items, sid, marks, n, cutoff, StoreExpired, script);
    MarkFlights(before.flights, items, cutoff, n);
  }

  lemma {:induction false} MarkAll(w: World, acts: seq<Action>, mid: World, stores: seq<Store>, items: seq<Item>,
                                   cutoff: int, script: Script, sid: SessionId, marks: bool, n: nat)
    returns (acts': seq<Action>, w': World)
    requires Staged(stores, items, StoreExpired, script) && n <= |items|
    requires marks ==> MarksSent(stores[0], items, script, sid)
    requires Reached(w, acts, mid, stores[0], items, cutoff, StoreExpired, sid, marks, 0)
    ensures Reached(w, acts', w', stores[n], items, cutoff, StoreExpired, sid, marks, n)
    decreases n
  {
    if n == 0 {
      acts', w' := acts, mid;
    } else {
      acts', w' := MarkAll(w, acts, mid, stores, items, cutoff, script, sid, marks, n - 1);
      acts', w' := MarkStep(w, acts', w', stores, items, cutoff, script, sid, marks, n);
    }
  }

  lemma ReadsEachOnce(w: World, acts: seq<Action>, w': World, items: seq<Item>, sid: SessionId, marks: bool)
    requires JobRun(w, acts, w', items, |items|, sid, marks) && Distinct(items)
    ensures EachOnce(acts)
    ensures forall a | a in acts && a.Start? :: a.req.Expire?
  {
  }

  /** The session is read with a current flag, and marked if it had a notice before or its own is accepted. */
  ghost predicate MarksBehind(st: Store, items: seq<Item>, script: Script, sid: SessionId) {
    && ReadsCurrent(st, items, sid, ExpiryMail)
    && forall k | 0 <= k < |items| && items[k].sid == sid :: MarkBehind(st, items, script, k)
  }

  predicate MarkBehind(st: Store, items: seq<Item>, script: Script, k: nat)
    requires k < |items|
  {
    SentBefore(st, items[k].sid, ExpiryMail) || script(k).ok ==> script(|items| + k).ok
  }

  lemma BehindIsSent(st: Store, items: seq<Item>, script: Script, sid: SessionId)
    requires Distinct(items) && MarksBehind(st, items, script, sid)
    ensures MarksSent(NoticeWave(st, items, |items|, script), items, script, sid)
  {
    forall k | 0 <= k < |items| && items[k].sid == sid
      ensures SentBefore(NoticeWave(st, items, |items|, script), sid, ExpiryMail) ==> script(|items| + k).ok
    {
      NoticeCounts(st, items, |items|, script, k);
      assert MarkBehind(st, items, script, k);
    }
  }

  /** The reads, the notices, the marks. */
  lemma JobSteps(w: World, st: Store, items: seq<Item>, cutoff: int, script: Script, sid: SessionId, marks: bool)
    returns (acts: seq<Action>, w': World)
    requires Abstracts(w, st) && w.flights == map[]
    requires AllStored(items, st.table) && Workable(w, ExpiryMail, items, cutoff)
    requires marks ==> ReadsCurrent(st, items, sid, ExpiryMail)
    requires marks ==> MarksSent(NoticeWave(st, items, |items|, script), items, script, sid)
    ensures JobRun(w, acts, w', items, |items|, sid, marks) && w'.flights.Keys == {}
    ensures Abstracts(w', RunJob(st, items, script))
  {
    var stores := NoticesStaged(st, items, script);
    var stores' := MarksStaged(stores[|items|], items, script);
    acts, w' := ReadAll(w, st, items, cutoff, sid, marks, |items|);
    acts, w' := NotifyAll(w, acts, w', stores, items, cutoff, script, sid, marks, |items|);
    acts, w' := MarkAll(w, acts, w', stores', items, cutoff, script, sid, marks, |items|);
  }

  /** One run of the job, on whatever versions its reads returned, is one serial episode with the same effects. */
  lemma JobIsEpisode(w: World, st: Store, items: seq<Item>, cutoff: int, script: Script, sid: SessionId)
    returns (acts: seq<Action>)
    requires Abstracts(w, st) && w.flights == map[]
    requires AllStored(items, st.table) && Workable(w, ExpiryMail, items, cutoff)
    ensures Episode(w, acts) && Abstracts(After(w, acts), RunJob(st, items, script))
    ensures AllRecord(w, acts, sid) && AllMark(w, acts, sid, ReminderMail)
    ensures MarksBehind(st, items, script, sid) ==> AllMark(w, acts, sid, ExpiryMail)
  {
    var w';
    var marks := MarksBehind(st, items, script, sid);
    if marks { BehindIsSent(st, items, script, sid); }
    acts, w' := JobSteps(w, st, items, cutoff, script, sid, marks);
    ReadsEachOnce(w, acts, w', items, sid, marks);
    JobHolds(w, acts, sid);
    OthersOrderly(w, acts, sid, ReminderMail);
  }

  /** A version the item's row had at some time, told from the trail. */
  ghost predicate Had(st: Store, item: Item) {
    item.sid in st.table && IsReplay(NewRow(st.table[item.sid].createdDate), item.sid, st.trail, item.row)
  }

  /** What index queries may return: of each session a version of its row in a state asked for, current or not. */
  ghost predicate Indexed(m: Mailing, results: seq<seq<Item>>, st: Store) {
    forall x | x in Concat(results) :: Had(st, x) && Queries(m, x.row.state)
  }

  lemma SweepWorks(m: Mailing, results: seq<seq<Item>>, clock: nat -> int, cutoff: int, w: World, st: Store)
    requires Indexed(m, results, st) && forall x | Had(st, x) :: Known(w, x)
    ensures Workable(w, m, SweepOf(m, results, clock, cutoff), cutoff)
    ensures AllStored(SweepOf(m, results, clock, cutoff), st.table)
  {
    var items := SweepOf(m, results, clock, cutoff);
    SweepOfOnce(m, results, clock, cutoff);
    forall x | x in items ensures x in Concat(results) && Eligible(m, x.row, cutoff) {
      SweepOfReturned(m, results, clock, cutoff, x);
    }
  }
}
