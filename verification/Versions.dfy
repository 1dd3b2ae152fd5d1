/**
 The trail tells the table: the versions a row has had are those obtained by replaying, on the row the
 session was opened with, the updates on the trail up to some point.
 */
module Versions {
  import opened SessionModel
  import opened Protocol
  import opened Interleaving
  import Plans

  /** A session's row after the first `n` events. */
  function VersionAt(first: Row, sid: SessionId, trail: seq<Event>, n: nat): Row
    requires n <= |trail|
  {
    if n == 0 then first
    else
      var before, e := VersionAt(first, sid, trail, n - 1), trail[n - 1];
      if e.Stored? && e.sid == sid then Apply(e.update, before) else before
  }

  ghost predicate IsReplay(first: Row, sid: SessionId, trail: seq<Event>, r: Row) {
    exists n :: 0 <= n <= |trail| && VersionAt(first, sid, trail, n) == r
  }

  /** The versions of a row are the replays of the trail. */
  ghost predicate Replays(rows: seq<Row>, sid: SessionId, trail: seq<Event>) {
    && rows != [] && rows[0] == NewRow(rows[0].createdDate)
    && VersionAt(rows[0], sid, trail, |trail|) == Last(rows)
    && (forall r :: r in rows <==> IsReplay(rows[0], sid, trail, r))
  }

  ghost predicate ReplayInv(w: World) {
    && (forall sid | sid in w.history :: Replays(w.history[sid], sid, w.trail))
    && (forall e | e in w.trail && e.Stored? :: e.sid in w.history)
  }

  lemma {:induction false} VersionPrefix(first: Row, sid: SessionId, trail: seq<Event>, more: seq<Event>, n: nat)
    requires n <= |trail|
    ensures VersionAt(first, sid, trail + more, n) == VersionAt(first, sid, trail, n)
  {
    if n > 0 { VersionPrefix(first, sid, trail, more, n - 1); }
  }

  /** A session no update on the trail is about stays as it was opened. */
  lemma {:induction false} Untouched(first: Row, sid: SessionId, trail: seq<Event>, n: nat)
    requires n <= |trail| && forall e | e in trail && e.Stored? :: e.sid != sid
    ensures VersionAt(first, sid, trail, n) == first
  {
    if n > 0 { Untouched(first, sid, trail, n - 1); }
  }

  lemma CreateReplays(w: World, sid: SessionId, now: int)
    requires ReplayInv(w) && sid !in w.history
    ensures Replays([NewRow(now)], sid, w.trail)
  {
    var rows := [NewRow(now)];
    forall n | 0 <= n <= |w.trail| ensures VersionAt(rows[0], sid, w.trail, n) == rows[0] {
      Untouched(rows[0], sid, w.trail, n);
    }
    assert VersionAt(rows[0], sid, w.trail, 0) == rows[0];
  }

  /** Replaying one more event. */
  lemma EventReplays(rows: seq<Row>, sid: SessionId, trail: seq<Event>, e: Event)
    requires Replays(rows, sid, trail)
    ensures Replays(if e.Stored? && e.sid == sid then rows + [Apply(e.update, Last(rows))] else rows, sid, trail + [e])
  {
    var rows' := if e.Stored? && e.sid == sid then rows + [Apply(e.update, Last(rows))] else rows;
    var trail' := trail + [e];
    forall n | 0 <= n <= |trail| ensures VersionAt(rows[0], sid, trail', n) == VersionAt(rows[0], sid, trail, n) {
      VersionPrefix(rows[0], sid, trail, [e], n);
    }
    assert VersionAt(rows[0], sid, trail', |trail'|) == Last(rows');
    forall r ensures r in rows' <==> IsReplay(rows[0], sid, trail', r) {
      if r in rows {
        var n :| 0 <= n <= |trail| && VersionAt(rows[0], sid, trail, n) == r;
        assert VersionAt(rows[0], sid, trail', n) == r;
      }
      if n :| 0 <= n <= |trail'| && VersionAt(rows[0], sid, trail', n) == r {
        assert n <= |trail| ==> IsReplay(rows[0], sid, trail, r);
      }
    }
  }

  /** What a row becomes by some events, of which only the first may be an update. */
  function Grown(rows: seq<Row>, sid: SessionId, events: seq<Event>): seq<Row>
    requires rows != []
  {
    if events != [] && events[0].Stored? && events[0].sid == sid then rows + [Apply(events[0].update, Last(rows))] else rows
  }

  lemma EventsReplay(rows: seq<Row>, sid: SessionId, trail: seq<Event>, events: seq<Event>)
    requires Replays(rows, sid, trail)
    requires |events| <= 2 && (|events| > 1 ==> !events[1].Stored?)
    ensures Replays(Grown(rows, sid, events), sid, trail + events)
  {
    if |events| == 0 {
      assert trail + events == trail;
    } else if |events| == 1 {
      assert events == [events[0]];
      EventReplays(rows, sid, trail, events[0]);
    } else {
      EventReplays(rows, sid, trail, events[0]);
      EventReplays(Grown(rows, sid, events), sid, trail + [events[0]], events[1]);
      assert trail + [events[0]] + [events[1]] == trail + events;
    }
  }

  lemma AdvanceGrows(w: World, t: nat, env: Env, sid: SessionId)
    requires Inv(w) && ReplayInv(w) && Enabled(w, Advance(t, env)) && sid in w.history
    ensures Replays(Next(w, Advance(t, env)).history[sid], sid, Next(w, Advance(t, env)).trail)
  {
    var f := w.flights[t];
    var events := EffectOf(f, env).events;
    assert FlightOk(f, w);
    Plans.ActStores(f.req, f.sid, f.snap, f.stage, env);
    EventsReplay(w.history[sid], sid, w.trail, events);
    assert Next(w, Advance(t, env)).history[sid] == Grown(w.history[sid], sid, events);
  }

  lemma StoredKnown(known: set<SessionId>, trail: seq<Event>, events: seq<Event>, sid: SessionId)
    requires (forall e | e in trail && e.Stored? :: e.sid in known) && sid in known
    requires |events| <= 2 && (|events| > 0 ==> events[0].sid == sid) && (|events| > 1 ==> !events[1].Stored?)
    ensures forall e | e in trail + events && e.Stored? :: e.sid in known
  {
  }

  lemma AdvanceStores(w: World, t: nat, env: Env)
    requires Inv(w) && ReplayInv(w) && Enabled(w, Advance(t, env))
    ensures forall e | e in Next(w, Advance(t, env)).trail && e.Stored? :: e.sid in Next(w, Advance(t, env)).history
  {
    var f := w.flights[t];
    Plans.ActStores(f.req, f.sid, f.snap, f.stage, env);
    StoredKnown(w.history.Keys, w.trail, EffectOf(f, env).events, f.sid);
  }

  lemma NextReplays(w: World, a: Action)
    requires Inv(w) && ReplayInv(w) && Enabled(w, a)
    ensures ReplayInv(Next(w, a))
  {
    match a
    case Create(sid, now) => CreateReplays(w, sid, now);
    case Start(_, _, _, _, _) =>
    case Advance(t, env) =>
      var w' := Next(w, a);
      forall sid | sid in w'.history ensures Replays(w'.history[sid], sid, w'.trail) { AdvanceGrows(w, t, env, sid); }
      AdvanceStores(w, t, env);
  }

  lemma {:induction false} RunReplays(w: World, acts: seq<Action>)
    requires Inv(w) && ReplayInv(w) && IsRun(w, acts)
    ensures ReplayInv(After(w, acts))
    decreases |acts|
  {
    if acts != [] {
      NextReplays(w, acts[0]);
      NextKeepsInv(w, acts[0]);
      RunReplays(Next(w, acts[0]), acts[1..]);
    }
  }

  lemma OpenedWhen(w: World, sid: SessionId)
    requires Inv(w) && sid in w.history
    ensures w.history[sid] != [] && w.history[sid][0].createdDate == Last(w.history[sid]).createdDate
  {
    var rows := w.history[sid];
    assert HistoryOk(sid, rows, w.trail);
    assert Evolves(rows[0], rows[|rows| - 1]);
  }

  /** In every run, with any handlers in flight: a row was in the table if and only if some replay of the trail gives it. */
  lemma VersionsAreReplays(acts: seq<Action>, sid: SessionId, r: Row)
    requires IsRun(EmptyWorld, acts) && sid in After(EmptyWorld, acts).history
    ensures var w := After(EmptyWorld, acts);
            && w.history[sid] != []
            && var first := NewRow(Last(w.history[sid]).createdDate);
            && Last(w.history[sid]) == VersionAt(first, sid, w.trail, |w.trail|)
            && (r in w.history[sid] <==> IsReplay(first, sid, w.trail, r))
  {
    RunReplays(EmptyWorld, acts);
    RunKeepsInv(EmptyWorld, acts);
    var w := After(EmptyWorld, acts);
    OpenedWhen(w, sid);
    assert Replays(w.history[sid], sid, w.trail);
  }
}
