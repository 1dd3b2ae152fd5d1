/** One run of the reminder job is one serial episode of the protocol, whatever version of each row the index returns. */
module ReminderEpisode {
  import opened Wrappers
  import opened SessionModel
  import opened Protocol
  import opened Interleaving
  import opened Trails
  import opened Notices
  import opened Serial
  import opened HandlerSpec
  import opened HandlerEpisode
  import opened Sweep
  import opened ExpiryJob
  import opened ReminderJob
  import opened JobEpisode

  lemma NextWorks(req: Request, sid: SessionId, snap: Row, stage: Stage, env: Env)
    requires Working(ReminderMail, stage)
    ensures var next := Act(req, sid, snap, stage, env).outcome; next.Continue? ==> Working(ReminderMail, next.stage)
  {
  }

  /** The steps of one handler of the job are steps of a job. */
  lemma {:induction false} AdvancesAreJob(w: World, acts: seq<Action>, t: nat)
    requires IsRun(w, acts) && forall a | a in acts :: a.Advance? && a.ticket == t
    requires t in w.flights ==> Working(ReminderMail, w.flights[t].stage)
    ensures OneJob(w, acts)
    decreases |acts|
  {
    if acts != [] {
      assert acts[0] in acts;
      var f := w.flights[t];
      NextWorks(f.req, f.sid, f.snap, f.stage, acts[0].env);
      AdvancesAreJob(Next(w, acts[0]), acts[1..], t);
    }
  }

  /** Steps that are about other sessions mark nothing of this one. */
  lemma {:induction false} OthersMark(w: World, acts: seq<Action>, sid: SessionId)
    requires IsRun(w, acts) && (forall t | t in w.flights :: w.flights[t].sid != sid)
    requires forall a | a in acts && a.Start? :: a.sid != sid
    ensures AllMark(w, acts, sid, ReminderMail)
    decreases |acts|
  {
    if acts != [] {
      assert acts[0] in acts;
      OthersMark(Next(w, acts[0]), acts[1..], sid);
    }
  }

  /** Sending, and flagging behind it. */
  lemma SendIsDrive(st: Store, item: Item, cutoff: int, script: Script, i: nat)
    requires item.sid in st.table
    ensures Drive(st, Remind(cutoff), item.sid, item.row, SendReminder, script, i).0 ==
            if !script(i).ok then st
            else FlagOne(Store(st.table, st.trail + [ReminderQueued(item.sid)]), item.sid, script(i + 1).ok)
  {
    if script(i).ok {
      var sent := Store(st.table, st.trail + [ReminderQueued(item.sid)]);
      FlagIsDrive(sent, item, cutoff, script, i + 1);
      assert Drive(st, Remind(cutoff), item.sid, item.row, SendReminder, script, i) ==
             Drive(sent, Remind(cutoff), item.sid, item.row, FlagReminder, script, i + 1);
    }
  }

  function FlagOne(st: Store, sid: SessionId, ok: bool): Store
    requires sid in st.table
  {
    if ok then Store(st.table[sid := Apply(SetReminderFlag, st.table[sid])], st.trail + [Stored(sid, SetReminderFlag)]) else st
  }

  lemma FlagIsDrive(st: Store, item: Item, cutoff: int, script: Script, i: nat)
    requires item.sid in st.table
    ensures Drive(st, Remind(cutoff), item.sid, item.row, FlagReminder, script, i).0 == FlagOne(st, item.sid, script(i).ok)
  {
  }

  lemma OneIsDrive(st: Store, item: Item, cutoff: int, script: Script, k: nat)
    requires item.sid in st.table
    ensures RemindOne(st, item.sid, Fetch(script, k), Queueing(script, k), Flagging(script, k)) ==
            Drive(st, Remind(cutoff), item.sid, item.row, ReadPerson, script, 3 * k).0
  {
    if Fetch(script, k).ok {
      SendIsDrive(st, item, cutoff, script, 3 * k + 1);
      assert Drive(st, Remind(cutoff), item.sid, item.row, ReadPerson, script, 3 * k) ==
             Drive(st, Remind(cutoff), item.sid, item.row, SendReminder, script, 3 * k + 1);
    }
  }

  /** The row is flagged behind an accepted reminder. */
  predicate FlagBehind(script: Script, k: nat) {
    Fetch(script, k).ok && Queueing(script, k).ok ==> Flagging(script, k).ok
  }

  lemma BehindSends(item: Item, cutoff: int, script: Script, k: nat)
    requires Queueing(script, k).ok ==> Flagging(script, k).ok
    ensures DriveFlags(Remind(cutoff), item.sid, item.row, SendReminder, script, 3 * k + 1)
  {
    if Queueing(script, k).ok {
      assert DriveFlags(Remind(cutoff), item.sid, item.row, FlagReminder, script, 3 * k + 2);
    }
  }

  lemma BehindDrives(item: Item, cutoff: int, script: Script, k: nat)
    requires FlagBehind(script, k)
    ensures DriveFlags(Remind(cutoff), item.sid, item.row, ReadPerson, script, 3 * k)
  {
    if Fetch(script, k).ok {
      BehindSends(item, cutoff, script, k);
    }
  }

  /** The read that finds the version the index returned. */
  lemma RemindRead(w: World, item: Item, cutoff: int) returns (a: Action)
    requires Known(w, item) && AwaitsVisit(item.row.state) && Eligible(ReminderMail, item.row, cutoff)
    ensures a.Start? && a.ticket == 0 && a.req == Remind(cutoff) && a.sid == item.sid
    ensures a.version < |w.history[item.sid]| && w.history[item.sid][a.version] == item.row
    ensures Begin(Remind(cutoff), item.row, a.env) == Continue(ReadPerson)
  {
    var v :| 0 <= v < |w.history[item.sid]| && w.history[item.sid][v] == item.row;
    a := Start(0, Remind(cutoff), item.sid, v, Env(true, None, true, 500, "", item.row.expiryDate - 1));
  }

  /** What one reminder comes to: a read of this item, then steps of its handler until it is done. */
  ghost predicate ReminderRun(w: World, acts: seq<Action>, item: Item, st': Store) {
    && IsRun(w, acts) && OneJob(w, acts) && After(w, acts).flights == map[] && Abstracts(After(w, acts), st')
    && acts != [] && acts[0].Start? && acts[0].sid == item.sid && acts[0].req.Remind?
    && forall j | 1 <= j < |acts| :: acts[j].Advance?
  }

  lemma RemindIsRun(w: World, st: Store, item: Item, cutoff: int, script: Script, k: nat, sid: SessionId)
    returns (acts: seq<Action>)
    requires Abstracts(w, st) && w.flights == map[] && Known(w, item)
    requires AwaitsVisit(item.row.state) && Eligible(ReminderMail, item.row, cutoff)
    ensures item.sid in st.table
    ensures ReminderRun(w, acts, item, RemindOne(st, item.sid, Fetch(script, k), Queueing(script, k), Flagging(script, k)))
    ensures item.sid == sid && FlagCurrent(st, item, ReminderMail) && FlagBehind(script, k) ==>
      AllMark(w, acts, sid, ReminderMail)
  {
    var read := RemindRead(w, item, cutoff);
    var f := Flight(Remind(cutoff), item.sid, read.version, item.row, ReadPerson);
    var w1 := Next(w, read);
    assert w1.flights == map[0 := f];
    if FlagBehind(script, k) { BehindDrives(item, cutoff, script, k); }
    var rest := DriveIsRun(w1, st, 0, f, script, 3 * k, sid);
    OneIsDrive(st, item, cutoff, script, k);
    AdvancesAreJob(w1, rest, 0);
    acts := [read] + rest;
    assert acts[1..] == rest;
    assert forall j | 1 <= j < |acts| :: acts[j] in rest;
  }

  /** What one session's reminder leaves alone of another. */
  lemma OneOthers(st: Store, other: SessionId, fetch: Env, queueing: Env, flagging: Env, sid: SessionId)
    requires other in st.table && sid in st.table && other != sid
    ensures var st' := RemindOne(st, other, fetch, queueing, flagging);
            && st'.table[sid] == st.table[sid]
            && Count(st'.trail, sid, ReminderSent) == Count(st.trail, sid, ReminderSent)
  {
    var queued, flagged := [ReminderQueued(other)], [Stored(other, SetReminderFlag)];
    CountAppend(st.trail, queued, sid, ReminderSent);
    CountFew(queued, sid, ReminderSent);
    CountAppend(st.trail + queued, flagged, sid, ReminderSent);
    CountFew(flagged, sid, ReminderSent);
  }

  lemma RemindersStep(st: Store, items: seq<Item>, n: nat, script: Script)
    requires AllStored(items, st.table) && 0 < n <= |items|
    ensures items[n - 1].sid in Reminders(st, items, n - 1, script).table
    ensures Reminders(st, items, n, script) ==
            RemindOne(Reminders(st, items, n - 1, script), items[n - 1].sid,
                      Fetch(script, n - 1), Queueing(script, n - 1), Flagging(script, n - 1))
  {
    assert items[n - 1] in items;
  }

  /** Other reminders leave the row and the reminders of a session alone. */
  ghost predicate Untouched(st: Store, st': Store, sid: SessionId) {
    && sid in st.table && sid in st'.table && st'.table[sid] == st.table[sid]
    && Count(st'.trail, sid, ReminderSent) == Count(st.trail, sid, ReminderSent)
  }

  lemma {:induction false} RemindersOthers(st: Store, items: seq<Item>, n: nat, script: Script, k: nat)
    requires AllStored(items, st.table) && Distinct(items) && n <= k < |items|
    ensures Untouched(st, Reminders(st, items, n, script), items[k].sid)
  {
    assert items[k] in items;
    if n > 0 {
      RemindersOthers(st, items, n - 1, script, k);
      RemindersStep(st, items, n, script);
      OneOthers(Reminders(st, items, n - 1, script), items[n - 1].sid, Fetch(script, n - 1), Queueing(script, n - 1),
                Flagging(script, n - 1), items[k].sid);
    }
  }

  /** The session's flag is current when it is read, and set behind its reminder. */
  ghost predicate FlagsBehind(st: Store, items: seq<Item>, script: Script, sid: SessionId) {
    forall k | 0 <= k < |items| && items[k].sid == sid :: FlagCurrent(st, items[k], ReminderMail) && FlagBehind(script, k)
  }

  /** The starts among some actions are reads of the first `n` items. */
  ghost predicate Reads(acts: seq<Action>, items: seq<Item>, n: nat)
    requires n <= |items|
  {
    && EachOnce(acts)
    && forall a | a in acts && a.Start? :: a.req.Remind? && HasId(items[..n], a.sid)
  }

  lemma ReadsMore(acts: seq<Action>, more: seq<Action>, items: seq<Item>, n: nat)
    requires n < |items| && Distinct(items) && Reads(acts, items, n)
    requires more != [] && more[0].Start? && more[0].sid == items[n].sid && more[0].req.Remind?
    requires forall j | 1 <= j < |more| :: more[j].Advance?
    ensures Reads(acts + more, items, n + 1)
  {
    var all := acts + more;
    assert items[..n + 1] == items[..n] + [items[n]];
    forall a | a in all && a.Start? ensures a.req.Remind? && HasId(items[..n + 1], a.sid) {
      HasIdAppend(items[..n], items[n], a.sid);
    }
    forall i, j | 0 <= i < j < |all| && all[i].Start? && all[j].Start? ensures all[i].sid != all[j].sid {
      if j >= |acts| {
        assert all[j] == more[0] && all[i] in acts;
        var k :| 0 <= k < |items[..n]| && items[..n][k].sid == all[i].sid;
        assert items[k].sid != items[n].sid;
      }
    }
  }

  /** The next session, in a store in which its row and its reminders are as before the job. */
  lemma RemindNext(w: World, st: Store, before: Store, item: Item, cutoff: int, script: Script, k: nat, sid: SessionId)
    returns (more: seq<Action>)
    requires w.flights == map[] && Abstracts(w, before) && Untouched(st, before, item.sid) && Known(w, item)
    requires AwaitsVisit(item.row.state) && Eligible(ReminderMail, item.row, cutoff)
    ensures ReminderRun(w, more, item, RemindOne(before, item.sid, Fetch(script, k), Queueing(script, k), Flagging(script, k)))
    ensures (item.sid == sid ==> FlagCurrent(st, item, ReminderMail) && FlagBehind(script, k)) ==>
      AllMark(w, more, sid, ReminderMail)
  {
    more := RemindIsRun(w, before, item, cutoff, script, k, sid);
    if item.sid != sid {
      assert forall a | a in more && a.Start? :: a == more[0];
      OthersMark(w, more, sid);
    }
  }

  /** The reminders of the first `n` sessions, one after the other. */
  ghost predicate RemindersRun(w: World, acts: seq<Action>, st': Store, items: seq<Item>, n: nat)
    requires n <= |items|
  {
    && IsRun(w, acts) && OneJob(w, acts) && After(w, acts).flights == map[] && Abstracts(After(w, acts), st')
    && Reads(acts, items, n)
  }

  lemma RunsThen(w: World, acts: seq<Action>, more: seq<Action>, before: Store, after: Store, items: seq<Item>, n: nat,
                 sid: SessionId)
    requires n < |items| && Distinct(items) && RemindersRun(w, acts, before, items, n)
    requires ReminderRun(After(w, acts), more, items[n], after)
    ensures RemindersRun(w, acts + more, after, items, n + 1)
    ensures AllMark(w, acts, sid, ReminderMail) && AllMark(After(w, acts), more, sid, ReminderMail) ==>
      AllMark(w, acts + more, sid, ReminderMail)
  {
    RunConcat(w, acts, more);
    OneJobConcat(w, acts, more);
    ConcatOrderly(w, acts, more, sid, ReminderMail);
    ReadsMore(acts, more, items, n);
  }

  lemma {:induction false} RunReminders(w: World, st: Store, items: seq<Item>, cutoff: int, script: Script, n: nat,
                                        sid: SessionId)
    returns (acts: seq<Action>)
    requires Inv(w) && Abstracts(w, st) && w.flights == map[] && n <= |items|
    requires AllStored(items, st.table) && Workable(w, ReminderMail, items, cutoff)
    ensures RemindersRun(w, acts, Reminders(st, items, n, script), items, n)
    ensures FlagsBehind(st, items, script, sid) ==> AllMark(w, acts, sid, ReminderMail)
    decreases n
  {
    if n == 0 {
      acts := [];
    } else {
      var k := n - 1;
      acts := RunReminders(w, st, items, cutoff, script, k, sid);
      RunGrows(w, acts, items[k].sid);
      RemindersOthers(st, items, k, script, k);
      RemindersStep(st, items, n, script);
      var more := RemindNext(After(w, acts), st, Reminders(st, items, k, script), items[k], cutoff, script, k, sid);
      RunsThen(w, acts, more, Reminders(st, items, k, script), Reminders(st, items, n, script), items, k, sid);
      acts := acts + more;
    }
  }

  /** One run of the job, on whatever versions its query returned, is one serial episode with the same effects. */
  lemma RemindersAreEpisode(w: World, st: Store, items: seq<Item>, cutoff: int, script: Script, sid: SessionId)
    returns (acts: seq<Action>)
    requires Inv(w) && Abstracts(w, st) && w.flights == map[]
    requires AllStored(items, st.table) && Workable(w, ReminderMail, items, cutoff)
    ensures Episode(w, acts) && Abstracts(After(w, acts), Reminders(st, items, |items|, script))
    ensures AllRecord(w, acts, sid) && AllMark(w, acts, sid, ExpiryMail)
    ensures FlagsBehind(st, items, script, sid) ==> AllMark(w, acts, sid, ReminderMail)
  {
    acts := RunReminders(w, st, items, cutoff, script, |items|, sid);
    JobHolds(w, acts, sid);
    OthersOrderly(w, acts, sid, ExpiryMail);
  }
}
