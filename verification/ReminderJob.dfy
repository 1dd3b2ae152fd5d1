/** The reminder job: select, read every person, then send each reminder and flag its session, each on its own. */
module ReminderJob {
  import opened Wrappers
  import opened SessionModel
  import opened Protocol
  import opened HandlerSpec
  import opened Handlers
  import opened Sweep
  import opened ExpiryJob

  /** The answers for session `k`: its person is read, its reminder is queued, its row is flagged. */
  function Fetch(script: Script, k: nat): Env { script(3 * k) }

  function Queueing(script: Script, k: nat): Env { script(3 * k + 1) }

  function Flagging(script: Script, k: nat): Env { script(3 * k + 2) }

  /** One reminder: without a person nothing is sent, without an accepted reminder nothing is flagged. */
  function RemindOne(st: Store, sid: SessionId, fetch: Env, queueing: Env, flagging: Env): (st': Store)
    requires sid in st.table
    ensures st'.table.Keys == st.table.Keys
  {
    if !fetch.ok || !queueing.ok then st
    else
      var sent := st.trail + [ReminderQueued(sid)];
      if flagging.ok
      then Store(st.table[sid := Apply(SetReminderFlag, st.table[sid])], sent + [Stored(sid, SetReminderFlag)])
      else Store(st.table, sent)
  }

  /** The reminders of the first `n` sessions. */
  function Reminders(st: Store, items: seq<Item>, n: nat, script: Script): (st': Store)
    requires AllStored(items, st.table) && n <= |items|
    ensures st'.table.Keys == st.table.Keys
  {
    if n == 0 then st
    else
      assert items[n - 1] in items;
      RemindOne(Reminders(st, items, n - 1, script), items[n - 1].sid,
                Fetch(script, n - 1), Queueing(script, n - 1), Flagging(script, n - 1))
  }

  /** Reading a person fails for good: an expired session, or a table that does not answer. */
  predicate Throws(fetch: Env) {
    !fetch.ok && !fetch.known
  }

  /** The events a run adds: each accepted reminder, and behind it its flag where that is accepted. */
  ghost predicate RemindEvent(e: Event, items: seq<Item>, script: Script, k: nat) {
    && k < |items| && Fetch(script, k).ok && Queueing(script, k).ok
    && (e == ReminderQueued(items[k].sid) || (e == Stored(items[k].sid, SetReminderFlag) && Flagging(script, k).ok))
  }

  ghost predicate AmongFirst(e: Event, items: seq<Item>, script: Script, n: nat) {
    exists k: nat :: k < n && RemindEvent(e, items, script, k)
  }

  lemma AmongSnoc(e: Event, items: seq<Item>, script: Script, n: nat)
    ensures AmongFirst(e, items, script, n + 1) <==> AmongFirst(e, items, script, n) || RemindEvent(e, items, script, n)
  {
  }

  lemma RemindOneAdds(st: Store, items: seq<Item>, k: nat, script: Script, e: Event) returns (more: seq<Event>)
    requires k < |items| && items[k].sid in st.table
    ensures RemindOne(st, items[k].sid, Fetch(script, k), Queueing(script, k), Flagging(script, k)).trail == st.trail + more
    ensures e in more <==> RemindEvent(e, items, script, k)
  {
    more := if !Fetch(script, k).ok || !Queueing(script, k).ok then []
            else if Flagging(script, k).ok then [ReminderQueued(items[k].sid), Stored(items[k].sid, SetReminderFlag)]
            else [ReminderQueued(items[k].sid)];
    assert RemindOne(st, items[k].sid, Fetch(script, k), Queueing(script, k), Flagging(script, k)).trail == st.trail + more;
  }

  lemma AddedThen(before: seq<Event>, after: seq<Event>, more: seq<Event>, e: Event)
    requires before <= after
    ensures before <= after + more
    ensures e in (after + more)[|before|..] <==> e in after[|before|..] || e in more
  {
    assert (after + more)[|before|..] == after[|before|..] + more;
  }

  /** A run adds nothing but the accepted reminders and flags of the sessions it works on, and all of those. */
  lemma {:induction false} RemindEvents(st: Store, items: seq<Item>, n: nat, script: Script, e: Event, after: Store)
    requires AllStored(items, st.table) && n <= |items| && after == Reminders(st, items, n, script)
    ensures st.trail <= after.trail
    ensures e in after.trail[|st.trail|..] <==> AmongFirst(e, items, script, n)
  {
    if n > 0 {
      var before := Reminders(st, items, n - 1, script);
      RemindEvents(st, items, n - 1, script, e, before);
      AmongSnoc(e, items, script, n - 1);
      assert items[n - 1] in items;
      var more := RemindOneAdds(before, items, n - 1, script, e);
      AddedThen(st.trail, before.trail, more, e);
    }
  }

  /** The row of every session after a run: flagged where all three calls succeed, untouched otherwise. */
  lemma {:induction false} RemindRows(st: Store, items: seq<Item>, n: nat, script: Script, sid: SessionId)
    requires AllStored(items, st.table) && n <= |items| && sid in st.table
    ensures Reminders(st, items, n, script).table[sid] ==
            if exists k: nat :: k < n && items[k].sid == sid && Fetch(script, k).ok && Queueing(script, k).ok && Flagging(script, k).ok
            then st.table[sid].(reminderEmailSent := true) else st.table[sid]
  {
    if n > 0 {
      RemindRows(st, items, n - 1, script, sid);
      assert items[n - 1] in items;
    }
  }

  /** The session of an event is one that a query returned unexpired, unflagged, and five days old. */
  ghost predicate OfOld(e: Event, items: seq<Item>, clock: nat -> int, now: int) {
    exists k: nat ::
      && FirstLive(items, clock, k)
      && items[k].row.createdDate + 5 * 86400 <= now && !items[k].row.reminderEmailSent
      && e in {ReminderQueued(items[k].sid), Stored(items[k].sid, SetReminderFlag)}
  }

  /** Only sessions that are five days old are reminded and flagged, whatever the queries return and whatever fails. */
  lemma OnlyOldAreReminded(st: Store, results: seq<seq<Item>>, clock: nat -> int, now: int, script: Script)
    requires AllStored(SweepOf(ReminderMail, results, clock, ReminderCutoff(now)), st.table)
    ensures var swept := SweepOf(ReminderMail, results, clock, ReminderCutoff(now));
            var st' := Reminders(st, swept, |swept|, script);
            && st.trail <= st'.trail
            && forall e | e in st'.trail[|st.trail|..] :: OfOld(e, Concat(results), clock, now)
  {
    var swept := SweepOf(ReminderMail, results, clock, ReminderCutoff(now));
    var st' := Reminders(st, swept, |swept|, script);
    RemindEvents(st, swept, |swept|, script, ReminderQueued(""), st');
    forall e | e in st'.trail[|st.trail|..] ensures OfOld(e, Concat(results), clock, now) {
      RemindEvents(st, swept, |swept|, script, e, st');
      var k: nat :| k < |swept| && RemindEvent(e, swept, script, k);
      SweptExactly(results, clock, now, 0, swept[k]);
    }
  }

  /** What a run adds of one session, and its row. */
  lemma RunOnOne(st: Store, items: seq<Item>, script: Script, n: nat)
    requires AllStored(items, st.table) && Distinct(items) && n < |items| && items[n].sid in st.table
    ensures var st' := Reminders(st, items, |items|, script);
            var sid := items[n].sid;
            var sent := script(3 * n).ok && script(3 * n + 1).ok;
            && st.trail <= st'.trail
            && (ReminderQueued(sid) in st'.trail[|st.trail|..] <==> sent)
            && (Stored(sid, SetReminderFlag) in st'.trail[|st.trail|..] <==> sent && script(3 * n + 2).ok)
            && st'.table[sid] == if sent && script(3 * n + 2).ok then st.table[sid].(reminderEmailSent := true) else st.table[sid]
  {
    var sid := items[n].sid;
    EventsOfOne(st, items, script, n, ReminderQueued(sid));
    EventsOfOne(st, items, script, n, Stored(sid, SetReminderFlag));
    RowOfOne(st, items, script, n);
  }

  lemma EventsOfOne(st: Store, items: seq<Item>, script: Script, n: nat, e: Event)
    requires AllStored(items, st.table) && Distinct(items) && n < |items| && e.sid == items[n].sid
    ensures var st' := Reminders(st, items, |items|, script);
            st.trail <= st'.trail && (e in st'.trail[|st.trail|..] <==> RemindEvent(e, items, script, n))
  {
    RemindEvents(st, items, |items|, script, e, Reminders(st, items, |items|, script));
    if k: nat :| k < |items| && RemindEvent(e, items, script, k) {
      assert items[k].sid == items[n].sid;
    }
  }

  lemma RowOfOne(st: Store, items: seq<Item>, script: Script, n: nat)
    requires AllStored(items, st.table) && Distinct(items) && n < |items| && items[n].sid in st.table
    ensures var sid := items[n].sid;
            Reminders(st, items, |items|, script).table[sid] ==
            if script(3 * n).ok && script(3 * n + 1).ok && script(3 * n + 2).ok then st.table[sid].(reminderEmailSent := true)
            else st.table[sid]
  {
    RemindRows(st, items, |items|, script, items[n].sid);
    assert Fetch(script, n).ok && Queueing(script, n).ok && Flagging(script, n).ok <==>
           script(3 * n).ok && script(3 * n + 1).ok && script(3 * n + 2).ok;
  }

  /** Of a session that is old enough a reminder is there if its person is read and it is accepted, and only then. */
  lemma OldAreReminded(st: Store, results: seq<seq<Item>>, clock: nat -> int, now: int, script: Script, k: nat)
    returns (n: nat)
    requires AllStored(SweepOf(ReminderMail, results, clock, ReminderCutoff(now)), st.table)
    requires FirstLive(Concat(results), clock, k)
    requires var row := Concat(results)[k].row; row.createdDate + 5 * 86400 <= now && !row.reminderEmailSent
    ensures var swept := SweepOf(ReminderMail, results, clock, ReminderCutoff(now));
            var st' := Reminders(st, swept, |swept|, script);
            var sid := Concat(results)[k].sid;
            var sent := script(3 * n).ok && script(3 * n + 1).ok;
            && n < |swept| && st.trail <= st'.trail
            && (ReminderQueued(sid) in st'.trail[|st.trail|..] <==> sent)
            && (Stored(sid, SetReminderFlag) in st'.trail[|st.trail|..] <==> sent && script(3 * n + 2).ok)
            && sid in st.table
            && st'.table[sid] == if sent && script(3 * n + 2).ok then st.table[sid].(reminderEmailSent := true) else st.table[sid]
  {
    var swept := SweepOf(ReminderMail, results, clock, ReminderCutoff(now));
    SweptExactly(results, clock, now, 0, Concat(results)[k]);
    n :| n < |swept| && swept[n] == Concat(results)[k];
    SweepOfOnce(ReminderMail, results, clock, ReminderCutoff(now));
    assert swept[n] in swept;
    RunOnOne(st, swept, script, n);
  }

  class ReminderEmailProcessor {
    const service: F2fService

    constructor (service: F2fService)
      ensures this.service == service
    {
      this.service := service;
    }

    /** The sessions whose person is found, and whether some reading threw. */
    method FetchUsers(sessions: seq<Item>, script: Script) returns (found: seq<bool>, threw: bool)
      ensures |found| == |sessions| && forall k | 0 <= k < |sessions| :: found[k] == Fetch(script, k).ok
      ensures threw <==> exists k: nat :: k < |sessions| && Throws(Fetch(script, k))
    {
      found, threw := [], false;
      for i := 0 to |sessions|
        invariant |found| == i && forall k | 0 <= k < i :: found[k] == Fetch(script, k).ok
        invariant threw <==> exists k: nat :: k < i && Throws(Fetch(script, k))
      {
        var fetch := Fetch(script, i);
        found := found + [fetch.ok];
        threw := threw || Throws(fetch);
      }
    }

    method SendReminders(sessions: seq<Item>, found: seq<bool>, script: Script)
      requires AllStored(sessions, service.table)
      requires |found| == |sessions| && forall k | 0 <= k < |sessions| :: found[k] == Fetch(script, k).ok
      modifies service
      ensures service.View() == Reminders(old(service.View()), sessions, |sessions|, script)
    {
      ghost var start := service.View();
      for i := 0 to |sessions|
        invariant service.View() == Reminders(start, sessions, i, script)
      {
        assert sessions[i] in sessions;
        if found[i] {
          var sent := service.Send(ReminderQueued(sessions[i].sid), Queueing(script, i));
          if sent {
            var _ := service.Update(sessions[i].sid, SetReminderFlag, Flagging(script, i));
          }
        }
      }
    }

    /**
     One run of the job; no results when a query failed. A reading that threw fails the job, though the other
     reminders are sent.
     */
    method ProcessRequest(results: Option<seq<seq<Item>>>, clock: nat -> int, now: int, script: Script)
      returns (response: Response)
      requires results.Some? ==> AllStored(Concat(results.value), service.table)
      modifies service
      ensures results.None? ==> service.View() == old(service.View()) && response == Reply(500)
      ensures results.Some? ==>
        var swept := SweepOf(ReminderMail, results.value, clock, ReminderCutoff(now));
        && AllStored(swept, old(service.table))
        && service.View() == Reminders(old(service.View()), swept, |swept|, script)
        && response == Reply(if exists k: nat :: k < |swept| && !script(3 * k).ok && !script(3 * k).known then 500 else 200)
        && old(service.trail) <= service.trail
        && forall e | e in service.trail[|old(service.trail)|..] :: OfOld(e, Concat(results.value), clock, now)
    {
      if results.None? {
        return Reply(500);
      }
      SweptAreStored(ReminderMail, results.value, clock, ReminderCutoff(now), service.table);
      OnlyOldAreReminded(service.View(), results.value, clock, now, script);
      var records := GetSessions(results.value, clock);
      var sessions := Select(ReminderMail, records, ReminderCutoff(now));
      if sessions == [] {
        return Reply(200);
      }
      var found, threw := FetchUsers(sessions, script);
      SendReminders(sessions, found, script);
      assert forall k: nat :: Throws(Fetch(script, k)) <==> !script(3 * k).ok && !script(3 * k).known;
      return if threw then Reply(500) else Reply(200);
    }
  }

  // ---------- who is selected again ----------

  lemma {:induction false} FlaggedRow(st: Store, items: seq<Item>, n: nat, script: Script, k: nat)
    requires AllStored(items, st.table) && Distinct(items) && n <= |items| && k < |items| && items[k] in items
    ensures Reminders(st, items, n, script).table[items[k].sid] ==
            if k < n && Fetch(script, k).ok && Queueing(script, k).ok && Flagging(script, k).ok
            then Apply(SetReminderFlag, st.table[items[k].sid]) else st.table[items[k].sid]
  {
    if n > 0 {
      FlaggedRow(st, items, n - 1, script, k);
      assert items[n - 1] in items;
    }
  }

  /** After a run of the job a session it worked on would be selected again if and only if one of its three calls failed. */
  lemma RemindsAgainExactly(st: Store, items: seq<Item>, script: Script, cutoff: int, k: nat)
    requires AllStored(items, st.table) && Distinct(items) && k < |items| && items[k] in items
    requires Queries(ReminderMail, st.table[items[k].sid].state) && Eligible(ReminderMail, st.table[items[k].sid], cutoff)
    ensures var row := Reminders(st, items, |items|, script).table[items[k].sid];
            Queries(ReminderMail, row.state) && Eligible(ReminderMail, row, cutoff) <==>
            !(Fetch(script, k).ok && Queueing(script, k).ok && Flagging(script, k).ok)
  {
    FlaggedRow(st, items, |items|, script, k);
  }
}
