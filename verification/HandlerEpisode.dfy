/** Every invocation of a handler is one serial episode of the protocol. */
module HandlerEpisode {
  import opened SessionModel
  import opened Protocol
  import opened Notices
  import opened Serial
  import opened HandlerSpec

  ghost predicate Abstracts(w: World, st: Store) {
    && w.trail == st.trail && w.history.Keys == st.table.Keys
    && (forall sid | sid in w.history :: w.history[sid] != [] && Last(w.history[sid]) == st.table[sid])
  }

  lemma StepAbstracts(w: World, st: Store, t: nat, env: Env)
    requires Abstracts(w, st) && Enabled(w, Advance(t, env))
    ensures Abstracts(Next(w, Advance(t, env)), Enact(st, w.flights[t].sid, EffectOf(w.flights[t], env)))
  {
  }

  lemma StepFlights(w: World, t: nat, f: Flight, env: Env)
    requires w.flights == map[t := f] && Enabled(w, Advance(t, env))
    ensures var next := EffectOf(f, env).outcome;
            Next(w, Advance(t, env)).flights ==
            if next.Continue? then map[t := f.(stage := next.stage)] else map[]
  {
    assert map[t := f] - {t} == map[];
  }

  /** A credential that the rest of an invocation sends is recorded. */
  predicate DriveRecords(req: Request, sid: SessionId, snap: Row, stage: Stage, script: Script, i: nat)
    decreases Remaining(stage)
  {
    RemainingDecreases(req, sid, snap, stage, script(i));
    var next := Act(req, sid, snap, stage, script(i)).outcome;
    && (stage.AuditIssued? ==> script(i).known) && (stage.StoreIssued? ==> script(i).ok)
    && (next.Continue? ==> DriveRecords(req, sid, snap, next.stage, script, i + 1))
  }

  /** A reminder that the rest of an invocation queues is marked. */
  predicate DriveFlags(req: Request, sid: SessionId, snap: Row, stage: Stage, script: Script, i: nat)
    decreases Remaining(stage)
  {
    RemainingDecreases(req, sid, snap, stage, script(i));
    var next := Act(req, sid, snap, stage, script(i)).outcome;
    && (stage.FlagReminder? ==> script(i).ok)
    && (next.Continue? ==> DriveFlags(req, sid, snap, next.stage, script, i + 1))
  }

  predicate HandleRecords(row: Row, req: Request, sid: SessionId, script: Script) {
    var first := Begin(req, row, script(0));
    first.Continue? ==> DriveRecords(req, sid, row, first.stage, script, 1)
  }

  /** The protocol steps that make up the rest of an invocation. */
  lemma {:induction false} DriveIsRun(w: World, st: Store, t: nat, f: Flight, script: Script, i: nat, sid: SessionId)
    returns (acts: seq<Action>)
    requires Abstracts(w, st) && w.flights == map[t := f] && f.sid in st.table
    ensures IsRun(w, acts) && After(w, acts).flights == map[]
    ensures Abstracts(After(w, acts), Drive(st, f.req, f.sid, f.snap, f.stage, script, i).0)
    ensures forall a | a in acts :: a.Advance? && a.ticket == t
    ensures DriveRecords(f.req, f.sid, f.snap, f.stage, script, i) ==> AllRecord(w, acts, sid)
    ensures DriveFlags(f.req, f.sid, f.snap, f.stage, script, i) ==> AllMark(w, acts, sid, ReminderMail)
    decreases Remaining(f.stage)
  {
    var a := Advance(t, script(i));
    var e := EffectOf(f, script(i));
    StepFlights(w, t, f, script(i));
    StepAbstracts(w, st, t, script(i));
    RemainingDecreases(f.req, f.sid, f.snap, f.stage, script(i));
    if e.outcome.Continue? {
      var rest := DriveIsRun(Next(w, a), Enact(st, f.sid, e), t, f.(stage := e.outcome.stage), script, i + 1, sid);
      acts := [a] + rest;
      assert acts[1..] == rest;
    } else {
      acts := [a];
      assert acts[1..] == [];
    }
  }

  /** Steps that are about other sessions record nothing of this one. */
  lemma {:induction false} OthersRecordNothing(w: World, acts: seq<Action>, sid: SessionId)
    requires IsRun(w, acts) && (forall t | t in w.flights :: w.flights[t].sid != sid)
    requires forall a | a in acts && a.Start? :: a.sid != sid
    ensures AllRecord(w, acts, sid)
    decreases |acts|
  {
    if acts != [] {
      assert acts[0] in acts;
      OthersRecordNothing(Next(w, acts[0]), acts[1..], sid);
    }
  }

  /** Every invocation that finds its row is a serial episode with the same effects, which expires nothing. */
  lemma HandleIsEpisode(w: World, st: Store, req: Request, sid: SessionId, script: Script, s: SessionId)
    returns (acts: seq<Action>)
    requires Abstracts(w, st) && w.flights == map[]
    requires !IsJob(req) && sid in st.table && Matches(req, sid, st.table[sid])
    ensures Episode(w, acts) && Abstracts(After(w, acts), Handle(st, req, sid, script).0)
    ensures s != sid || HandleRecords(st.table[sid], req, sid, script) ==> AllRecord(w, acts, s)
    ensures forall m :: AllMark(w, acts, s, m)
  {
    var start := Start(0, req, sid, |w.history[sid]| - 1, script(0));
    var w1 := Next(w, start);
    match Begin(req, st.table[sid], script(0)) {
      case Continue(stage) =>
        var f := Flight(req, sid, |w.history[sid]| - 1, st.table[sid], stage);
        assert w1.flights == map[0 := f];
        var rest := DriveIsRun(w1, st, 0, f, script, 1, s);
        acts := [start] + rest;
        assert acts[1..] == rest;
        assert forall k | 1 <= k < |acts| :: acts[k] in rest;
      case Finish(_) =>
        acts := [start];
        assert acts[1..] == [];
    }
    forall m ensures AllMark(w, acts, s, m) { OthersOrderly(w, acts, s, m); }
    if s != sid {
      assert forall a | a in acts && a.Start? :: a == acts[0];
      OthersRecordNothing(w, acts, s);
    }
  }

  // ---------- handlers that issue nothing record nothing ----------

  predicate Issuing(stage: Stage) {
    || stage.CheckYoti? || stage.AuditResponse? || stage.BuildCredential?
    || stage.SendCredential? || stage.AuditIssued? || stage.StoreIssued?
  }

  lemma {:induction false} OthersDriveRecords(req: Request, sid: SessionId, snap: Row, stage: Stage, script: Script, i: nat)
    requires !Issuing(stage)
    ensures DriveRecords(req, sid, snap, stage, script, i)
    decreases Remaining(stage)
  {
    RemainingDecreases(req, sid, snap, stage, script(i));
    var next := Act(req, sid, snap, stage, script(i)).outcome;
    if next.Continue? {
      OthersDriveRecords(req, sid, snap, next.stage, script, i + 1);
    }
  }

  lemma OthersRecord(row: Row, req: Request, sid: SessionId, script: Script)
    requires !req.Completion?
    ensures HandleRecords(row, req, sid, script)
  {
    var first := Begin(req, row, script(0));
    if first.Continue? {
      OthersDriveRecords(req, sid, row, first.stage, script, 1);
    }
  }

  /** A completion records its credential when the calls after an accepted credential succeed. */
  lemma CompletionRecords(row: Row, req: Request, sid: SessionId, script: Script)
    requires req.Completion?
    requires row.expiryDate >= script(0).now && script(0).ok && row.state == YotiSessionComplete ==>
      (script(1).ok && script(3).ok && script(4).ok ==> script(5).known && script(6).ok)
    ensures HandleRecords(row, req, sid, script)
  {
    if Begin(req, row, script(0)).Continue? && script(1).ok && row.state == YotiSessionComplete {
      SendRecords(row, req, sid, script);
      assert DriveRecords(req, sid, row, AuditResponse, script, 2);
    } else if Begin(req, row, script(0)).Continue? {
      var next := Act(req, sid, row, CheckYoti, script(1)).outcome;
      if next.Continue? { OthersDriveRecords(req, sid, row, next.stage, script, 2); }
    }
  }

  lemma SentRecords(row: Row, req: Request, sid: SessionId, script: Script)
    requires script(4).ok ==> script(5).known && script(6).ok
    ensures DriveRecords(req, sid, row, SendCredential, script, 4)
  {
    if script(4).ok {
      assert DriveRecords(req, sid, row, StoreIssued, script, 6);
      assert DriveRecords(req, sid, row, AuditIssued, script, 5);
    }
  }

  lemma SendRecords(row: Row, req: Request, sid: SessionId, script: Script)
    requires script(3).ok && script(4).ok ==> script(5).known && script(6).ok
    ensures DriveRecords(req, sid, row, BuildCredential, script, 3)
  {
    var next := Act(req, sid, row, BuildCredential, script(3)).outcome;
    if script(3).ok {
      SentRecords(row, req, sid, script);
    } else if next.Continue? {
      OthersDriveRecords(req, sid, row, next.stage, script, 4);
    }
  }
}
