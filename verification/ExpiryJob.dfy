/** The expiry job: select, then send every notice, then mark every session, each call failing on its own. */
module ExpiryJob {
  import opened Wrappers
  import opened SessionModel
  import opened Protocol
  import opened HandlerSpec
  import opened Handlers
  import opened Sweep

  predicate AllStored(items: seq<Item>, table: map<SessionId, Row>) {
    forall item | item in items :: item.sid in table
  }

  /** One notice, if it is accepted. */
  function NoticeOne(st: Store, sid: SessionId, ok: bool): Store {
    if ok then st.(trail := st.trail + [ExpiryNotice(sid)]) else st
  }

  /** One mark, if the update succeeds. */
  function MarkOne(st: Store, sid: SessionId, ok: bool): (st': Store)
    requires sid in st.table
    ensures st'.table.Keys == st.table.Keys
  {
    if ok then Store(st.table[sid := Apply(MarkAsExpired, st.table[sid])], st.trail + [Stored(sid, MarkAsExpired)]) else st
  }

  /** The notices of the first `n` sessions, in order; that of session `k` is call `k`. */
  function NoticeWave(st: Store, items: seq<Item>, n: nat, script: Script): (st': Store)
    requires n <= |items|
    ensures st'.table == st.table
  {
    if n == 0 then st else NoticeOne(NoticeWave(st, items, n - 1, script), items[n - 1].sid, script(n - 1).ok)
  }

  /** The marks of the first `n` sessions, in order; they are the calls after all notices. */
  function MarkWave(st: Store, items: seq<Item>, n: nat, script: Script): (st': Store)
    requires AllStored(items, st.table) && n <= |items|
    ensures st'.table.Keys == st.table.Keys
  {
    if n == 0 then st
    else
      assert items[n - 1] in items;
      MarkOne(MarkWave(st, items, n - 1, script), items[n - 1].sid, script(|items| + (n - 1)).ok)
  }

  /** The two rounds of the job: no session is marked before every notice has been tried. */
  function RunJob(st: Store, items: seq<Item>, script: Script): Store
    requires AllStored(items, st.table)
  {
    MarkWave(NoticeWave(st, items, |items|, script), items, |items|, script)
  }

  /** The events a run adds: the notice of each session where it is accepted, and its mark where that is. */
  ghost predicate RunEvent(e: Event, items: seq<Item>, script: Script, k: nat) {
    && k < |items|
    && ((e == ExpiryNotice(items[k].sid) && script(k).ok) ||
        (e == Stored(items[k].sid, MarkAsExpired) && script(|items| + k).ok))
  }

  lemma {:induction false} NoticeEvents(st: Store, items: seq<Item>, n: nat, script: Script)
    requires n <= |items|
    ensures st.trail <= NoticeWave(st, items, n, script).trail
    ensures forall e :: e in NoticeWave(st, items, n, script).trail[|st.trail|..] <==>
              exists k: nat :: k < n && e == ExpiryNotice(items[k].sid) && script(k).ok
  {
    if n > 0 {
      NoticeEvents(st, items, n - 1, script);
      var before, after := NoticeWave(st, items, n - 1, script).trail, NoticeWave(st, items, n, script).trail;
      assert script(n - 1).ok ==> after[|st.trail|..] == before[|st.trail|..] + [ExpiryNotice(items[n - 1].sid)];
    }
  }

  lemma {:induction false} MarkEvents(st: Store, items: seq<Item>, n: nat, script: Script)
    requires AllStored(items, st.table) && n <= |items|
    ensures st.trail <= MarkWave(st, items, n, script).trail
    ensures forall e :: e in MarkWave(st, items, n, script).trail[|st.trail|..] <==>
              exists k: nat :: k < n && e == Stored(items[k].sid, MarkAsExpired) && script(|items| + k).ok
  {
    if n > 0 {
      MarkEvents(st, items, n - 1, script);
      var before, after := MarkWave(st, items, n - 1, script).trail, MarkWave(st, items, n, script).trail;
      assert items[n - 1] in items;
      assert script(|items| + (n - 1)).ok ==>
        after[|st.trail|..] == before[|st.trail|..] + [Stored(items[n - 1].sid, MarkAsExpired)];
    }
  }

  /** A run adds nothing but the accepted notices and marks of the sessions it works on, and all of those. */
  lemma RunEvents(st: Store, items: seq<Item>, script: Script)
    requires AllStored(items, st.table)
    ensures st.trail <= RunJob(st, items, script).trail
    ensures forall e :: e in RunJob(st, items, script).trail[|st.trail|..] <==> exists k: nat :: RunEvent(e, items, script, k)
  {
    var noticed := NoticeWave(st, items, |items|, script);
    NoticeEvents(st, items, |items|, script);
    MarkEvents(noticed, items, |items|, script);
    var marked := RunJob(st, items, script);
    assert marked.trail[|st.trail|..] == noticed.trail[|st.trail|..] + marked.trail[|noticed.trail|..];
    forall e ensures e in marked.trail[|st.trail|..] <==> exists k: nat :: RunEvent(e, items, script, k) {
      if k: nat :| RunEvent(e, items, script, k) {
        assert e in noticed.trail[|st.trail|..] || e in marked.trail[|noticed.trail|..];
      }
      if k: nat :| k < |items| && e == ExpiryNotice(items[k].sid) && script(k).ok { assert RunEvent(e, items, script, k); }
      if k: nat :| k < |items| && e == Stored(items[k].sid, MarkAsExpired) && script(|items| + k).ok {
        assert RunEvent(e, items, script, k);
      }
    }
  }

  /** The row of every session after the marks: expired and flagged where a mark is accepted, untouched otherwise. */
  lemma {:induction false} MarkRows(st: Store, items: seq<Item>, n: nat, script: Script, sid: SessionId)
    requires AllStored(items, st.table) && n <= |items| && sid in st.table
    ensures MarkWave(st, items, n, script).table[sid] ==
            if exists k: nat :: k < n && items[k].sid == sid && script(|items| + k).ok
            then st.table[sid].(expiredNotificationSent := true, state := SessionExpired) else st.table[sid]
  {
    if n > 0 {
      MarkRows(st, items, n - 1, script, sid);
      assert items[n - 1] in items;
    }
  }

  /** The session of an event is one that a query returned unexpired, unflagged, and past its days and one more. */
  ghost predicate OfDue(e: Event, items: seq<Item>, clock: nat -> int, now: int, ttlDays: int) {
    exists k: nat ::
      && FirstLive(items, clock, k)
      && items[k].row.createdDate + (ttlDays + 1) * 86400 <= now && !items[k].row.expiredNotificationSent
      && e in {ExpiryNotice(items[k].sid), Stored(items[k].sid, MarkAsExpired)}
  }

  /** Only sessions that are due are told of and marked, whatever the queries return and whatever fails. */
  lemma OnlyDueAreExpired(st: Store, results: seq<seq<Item>>, clock: nat -> int, now: int, ttlDays: int, script: Script)
    requires AllStored(SweepOf(ExpiryMail, results, clock, Cutoff(now, ttlDays)), st.table)
    ensures var st' := RunJob(st, SweepOf(ExpiryMail, results, clock, Cutoff(now, ttlDays)), script);
            && st.trail <= st'.trail
            && forall e | e in st'.trail[|st.trail|..] :: OfDue(e, Concat(results), clock, now, ttlDays)
  {
    var swept := SweepOf(ExpiryMail, results, clock, Cutoff(now, ttlDays));
    var st' := RunJob(st, swept, script);
    RunEvents(st, swept, script);
    forall e | e in st'.trail[|st.trail|..] ensures OfDue(e, Concat(results), clock, now, ttlDays) {
      var k: nat :| RunEvent(e, swept, script, k);
      SweptExactly(results, clock, now, ttlDays, swept[k]);
    }
  }

  /** What a run adds of one session, and its row. */
  lemma RunOnOne(st: Store, items: seq<Item>, script: Script, n: nat)
    requires AllStored(items, st.table) && Distinct(items) && n < |items| && items[n].sid in st.table
    ensures var st' := RunJob(st, items, script);
            var sid := items[n].sid;
            && st.trail <= st'.trail
            && (ExpiryNotice(sid) in st'.trail[|st.trail|..] <==> script(n).ok)
            && (Stored(sid, MarkAsExpired) in st'.trail[|st.trail|..] <==> script(|items| + n).ok)
            && st'.table[sid] == if script(|items| + n).ok
                                 then st.table[sid].(expiredNotificationSent := true, state := SessionExpired)
                                 else st.table[sid]
  {
    var sid := items[n].sid;
    RunEvents(st, items, script);
    assert script(n).ok ==> RunEvent(ExpiryNotice(sid), items, script, n);
    assert script(|items| + n).ok ==> RunEvent(Stored(sid, MarkAsExpired), items, script, n);
    MarkRows(NoticeWave(st, items, |items|, script), items, |items|, script, sid);
  }

  /** Of a session that is due the run tries a notice and a mark, and each is there if and only if it is accepted. */
  lemma DueAreExpired(st: Store, results: seq<seq<Item>>, clock: nat -> int, now: int, ttlDays: int, script: Script, k: nat)
    returns (n: nat)
    requires AllStored(SweepOf(ExpiryMail, results, clock, Cutoff(now, ttlDays)), st.table)
    requires FirstLive(Concat(results), clock, k)
    requires var row := Concat(results)[k].row;
             row.createdDate + (ttlDays + 1) * 86400 <= now && !row.expiredNotificationSent
    ensures var swept := SweepOf(ExpiryMail, results, clock, Cutoff(now, ttlDays));
            var st' := RunJob(st, swept, script);
            var sid := Concat(results)[k].sid;
            && n < |swept| && st.trail <= st'.trail
            && (ExpiryNotice(sid) in st'.trail[|st.trail|..] <==> script(n).ok)
            && (Stored(sid, MarkAsExpired) in st'.trail[|st.trail|..] <==> script(|swept| + n).ok)
            && sid in st.table
            && st'.table[sid] == if script(|swept| + n).ok
                                 then st.table[sid].(expiredNotificationSent := true, state := SessionExpired)
                                 else st.table[sid]
  {
    var swept := SweepOf(ExpiryMail, results, clock, Cutoff(now, ttlDays));
    SweptExactly(results, clock, now, ttlDays, Concat(results)[k]);
    n :| n < |swept| && swept[n] == Concat(results)[k];
    SweepOfOnce(ExpiryMail, results, clock, Cutoff(now, ttlDays));
    assert swept[n] in swept;
    RunOnOne(st, swept, script, n);
  }

  class ExpiredSessionsProcessor {
    const service: F2fService

    constructor (service: F2fService)
      ensures this.service == service
    {
      this.service := service;
    }

    method SendNotices(sessions: seq<Item>, script: Script)
      modifies service
      ensures service.View() == NoticeWave(old(service.View()), sessions, |sessions|, script)
    {
      ghost var start := service.View();
      for i := 0 to |sessions|
        invariant service.View() == NoticeWave(start, sessions, i, script)
      {
        var _ := service.Send(ExpiryNotice(sessions[i].sid), script(i));
      }
    }

    method MarkSessions(sessions: seq<Item>, script: Script)
      requires AllStored(sessions, service.table)
      modifies service
      ensures service.View() == MarkWave(old(service.View()), sessions, |sessions|, script)
    {
      ghost var start := service.View();
      for i := 0 to |sessions|
        invariant service.View() == MarkWave(start, sessions, i, script)
      {
        assert sessions[i] in sessions;
        var _ := service.Update(sessions[i].sid, MarkAsExpired, script(|sessions| + i));
      }
    }

    method ExpireSessions(sessions: seq<Item>, script: Script)
      requires AllStored(sessions, service.table)
      modifies service
      ensures service.View() == RunJob(old(service.View()), sessions, script)
    {
      SendNotices(sessions, script);
      MarkSessions(sessions, script);
    }

    /**
     One run of the job; no results when a query failed. A lifetime that is not a number fails the job,
     but only once a record was found.
     */
    method ProcessRequest(results: Option<seq<seq<Item>>>, clock: nat -> int, now: int, ttlDays: Option<int>, script: Script)
      returns (response: Response)
      requires results.Some? ==> AllStored(Concat(results.value), service.table)
      modifies service
      ensures results.Some? && ttlDays.Some? ==>
        var cutoff := Cutoff(now, ttlDays.value);
        var swept := SweepOf(ExpiryMail, results.value, clock, cutoff);
        && AllStored(swept, old(service.table))
        && service.View() == RunJob(old(service.View()), swept, script) && response == Reply(200)
        && old(service.trail) <= service.trail
        && forall e | e in service.trail[|old(service.trail)|..] :: OfDue(e, Concat(results.value), clock, now, ttlDays.value)
      ensures results.None? || ttlDays.None? ==>
        && service.View() == old(service.View())
        && response == if results.Some? && Collected(Concat(results.value), clock) == [] then Reply(200) else Reply(500)
    {
      if results.None? {
        return Reply(500);
      }
      if ttlDays.Some? {
        SweptAreStored(ExpiryMail, results.value, clock, Cutoff(now, ttlDays.value), service.table);
        OnlyDueAreExpired(service.View(), results.value, clock, now, ttlDays.value, script);
      }
      var records := GetSessions(results.value, clock);
      if records == [] {
        return Reply(200);
      }
      if ttlDays.None? {
        return Reply(500);
      }
      var expirationTime := Cutoff(now, ttlDays.value);
      var sessions := Select(ExpiryMail, records, expirationTime);
      ExpireSessions(sessions, script);
      return Reply(200);
    }
  }

  lemma SweptAreStored(m: Mailing, results: seq<seq<Item>>, clock: nat -> int, cutoff: int, table: map<SessionId, Row>)
    requires AllStored(Concat(results), table)
    ensures AllStored(SweepOf(m, results, clock, cutoff), table)
  {
    forall item | item in SweepOf(m, results, clock, cutoff) ensures item.sid in table {
      SweepOfReturned(m, results, clock, cutoff, item);
    }
  }

  // ---------- who is selected again ----------

  /** The row of session `k` after the first `n` marks. */
  lemma {:induction false} MarkedRow(st: Store, items: seq<Item>, n: nat, script: Script, k: nat)
    requires AllStored(items, st.table) && Distinct(items) && n <= |items| && k < |items| && items[k] in items
    ensures MarkWave(st, items, n, script).table[items[k].sid] ==
            if k < n && script(|items| + k).ok then Apply(MarkAsExpired, st.table[items[k].sid]) else st.table[items[k].sid]
  {
    if n > 0 {
      MarkedRow(st, items, n - 1, script, k);
      assert items[n - 1] in items;
    }
  }

  /**
   After a run of the job a session it worked on would be selected again, by the state and the flag it now has, if and
   only if its mark failed; whether its notice was accepted does not matter.
   */
  lemma SelectsAgainExactly(st: Store, items: seq<Item>, script: Script, cutoff: int, k: nat)
    requires AllStored(items, st.table) && Distinct(items) && k < |items| && items[k] in items
    requires Queries(ExpiryMail, st.table[items[k].sid].state) && Eligible(ExpiryMail, st.table[items[k].sid], cutoff)
    ensures var row := RunJob(st, items, script).table[items[k].sid];
            Queries(ExpiryMail, row.state) && Eligible(ExpiryMail, row, cutoff) <==> !script(|items| + k).ok
  {
    MarkedRow(NoticeWave(st, items, |items|, script), items, |items|, script, k);
  }
}
