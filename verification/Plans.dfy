/**
 What every handler does, whatever fails. A handler has a plan: the effects of its calls, in order, the audit
 events among them only as far as the queue accepts them. It carries out the plan up to the first call whose
 failure stops it, the answer is that call's, and no other session is touched. The one thing it may do beyond
 its plan, after a failure, is report to IPV Core why no credential was issued.
 */
module Plans {
  import opened Wrappers
  import opened SessionModel
  import opened Protocol
  import opened HandlerSpec

  /** A row after the updates among some events. */
  function Folded(row: Row, events: seq<Event>): Row {
    FoldedOf(row, events, |events|)
  }

  function FoldedOf(row: Row, events: seq<Event>, n: nat): Row
    requires n <= |events|
  {
    if n == 0 then row
    else if events[n - 1].Stored? then Apply(events[n - 1].update, FoldedOf(row, events, n - 1))
    else FoldedOf(row, events, n - 1)
  }

  lemma {:induction false} FoldedPrefix(row: Row, a: seq<Event>, b: seq<Event>, n: nat)
    requires n <= |a|
    ensures FoldedOf(row, a + b, n) == FoldedOf(row, a, n)
  {
    if n > 0 { FoldedPrefix(row, a, b, n - 1); }
  }

  lemma {:induction false} FoldedSuffix(row: Row, a: seq<Event>, b: seq<Event>, n: nat)
    requires n <= |b|
    ensures FoldedOf(row, a + b, |a| + n) == FoldedOf(Folded(row, a), b, n)
  {
    if n == 0 {
      FoldedPrefix(row, a, b, |a|);
    } else {
      FoldedSuffix(row, a, b, n - 1);
      assert (a + b)[|a| + n - 1] == b[n - 1];
    }
  }

  lemma FoldedAppend(row: Row, a: seq<Event>, b: seq<Event>)
    ensures Folded(row, a + b) == Folded(Folded(row, a), b)
  {
    FoldedSuffix(row, a, b, |b|);
  }

  // ---------- plans ----------

  /** The number of a handler's last call; call 0 is its read. */
  function LastCall(req: Request): nat {
    match req
    case SelectDocument(_, _) => 7
    case Authorize(_) => 3
    case Redeem(_) => 1
    case FirstBranchVisit(_) => 1
    case ThankYou(_) => 3
    case Completion(_) => 6
    case Abort(_) => 2
    case _ => 0
  }

  /** An audit event whose loss is only logged. */
  function Logged(sid: SessionId, event: AuditEvent, env: Env): seq<Event> {
    if env.ok then [Audit(sid, event)] else []
  }

  /** The effects of a call that does not stop its handler. */
  function Planned(req: Request, sid: SessionId, script: Script, i: nat): seq<Event> {
    match req
    case SelectDocument(_, document) =>
      if i == 2 then [LetterStarted(sid, script(1).id)]
      else if i == 3 then [Stored(sid, SetYotiIdAndStatus(script(1).id))]
      else if i == 4 then [Stored(sid, SetTtl(script(4).now + AUTH_SESSION_TTL_SECS))]
      else if i == 6 && DocumentTypeOf(document).Some? then [Stored(sid, SetDocumentUsed(DocumentTypeOf(document).value))]
      else if i == 7 then Logged(sid, YotiStart, script(7))
      else []
    case Authorize(_) =>
      if i == 1 then [Stored(sid, SetAuthorizationCode(script(1).id))]
      else if i == 2 then Logged(sid, AuthCodeIssuedEvent, script(2))
      else if i == 3 then Logged(sid, CriEnd, script(3)) + [CodeHanded(sid, script(1).id)]
      else []
    case Redeem(_) =>
      if i == 1 then [Stored(sid, SetAccessTokenDetails(script(1).now + TOKEN_EXPIRY_SECONDS)), TokenHanded(sid)] else []
    case FirstBranchVisit(_) => if i == 1 then [Stored(sid, SetAuthState(PostOfficeVisited))] else []
    case ThankYou(_) =>
      if i == 2 then [Audit(sid, DocumentUploaded)]
      else if i == 3 then [Stored(sid, SetAuthState(YotiSessionComplete))]
      else []
    case Completion(_) =>
      if i == 2 then Logged(sid, YotiResponseReceived, script(2))
      else if i == 4 then [Credential(sid)]
      else if i == 5 then Logged(sid, VcIssued, script(5))
      else if i == 6 then [Stored(sid, SetAuthState(CredentialIssued))]
      else []
    case Abort(_) =>
      if i == 1 then [Stored(sid, SetAuthState(CriSessionAborted))]
      else if i == 2 then Logged(sid, SessionAbortedEvent, script(2))
      else []
    case _ => []
  }

  /** The answer when the handler's call `i` stops it. */
  function Failing(req: Request, i: nat, env: Env): Response {
    match req
    case SelectDocument(_, document) => if i == 6 && DocumentTypeOf(document).None? then Thrown(500) else Reply(500)
    case Redeem(_) => Reply(500)
    case Abort(_) => Reply(500)
    case Completion(_) =>
      if i == 3 then (if env.report.Some? then Refusal(env) else Thrown(env.status)) else Thrown(500)
    case _ => Thrown(500)
  }

  /** The call succeeds, or is one whose failure is only logged. */
  predicate Clear(req: Request, i: nat, env: Env) {
    match req
    case SelectDocument(_, document) => i == 7 || (env.ok && (i == 6 ==> DocumentTypeOf(document).Some?))
    case Authorize(_) => i != 1 || env.ok
    case Redeem(_) => env.ok && (i == 0 ==> env.known)
    case FirstBranchVisit(_) => i == 0 || env.ok
    case ThankYou(_) => env.ok
    case Completion(_) => i == 2 || (if i == 5 then env.known else env.ok)
    case Abort(_) => i != 1 || env.ok
    case _ => true
  }

  /** The states a handler is for. */
  predicate Admits(req: Request, row: Row) {
    match req
    case SelectDocument(_, _) => row.state == SessionCreated && row.yotiSessionId == None
    case Authorize(_) => row.state == YotiSessionCreated
    case Redeem(_) => row.state == AuthCodeIssued
    case Completion(_) => row.state == YotiSessionComplete
    case Abort(_) => row.state != CriSessionAborted
    case _ => true
  }

  /** The report to IPV Core behind the handler's call `i` when that call stops it. */
  function Reported(req: Request, sid: SessionId, script: Script, i: nat): seq<Event> {
    if req.Completion? && (i == 1 || i == 3) && script(i).report.Some? && script(i + 1).ok
    then [CoreError(sid, script(i).report.value)] else []
  }

  /** The whole plan from call `i` on. */
  function Plan(req: Request, sid: SessionId, script: Script, i: nat): seq<Event>
    decreases LastCall(req) + 1 - i
  {
    if i > LastCall(req) then [] else Planned(req, sid, script, i) + Plan(req, sid, script, i + 1)
  }

  /** The plan from call `i` on, up to the first call that stops the handler. */
  function Effects(req: Request, sid: SessionId, script: Script, i: nat): seq<Event>
    decreases LastCall(req) + 1 - i
  {
    if i > LastCall(req) || !Clear(req, i, script(i)) then []
    else Planned(req, sid, script, i) + Effects(req, sid, script, i + 1)
  }

  /** The report of a handler that makes its calls from call `i` on. */
  function Report(req: Request, sid: SessionId, script: Script, i: nat): seq<Event>
    decreases LastCall(req) + 1 - i
  {
    if i > LastCall(req) then []
    else if !Clear(req, i, script(i)) then Reported(req, sid, script, i)
    else Report(req, sid, script, i + 1)
  }

  /** The answer of a handler that makes its calls from call `i` on. */
  function Answered(req: Request, script: Script, i: nat): Response
    decreases LastCall(req) + 1 - i
  {
    if i > LastCall(req) then Reply(200)
    else if !Clear(req, i, script(i)) then Failing(req, i, script(i))
    else Answered(req, script, i + 1)
  }

  ghost predicate AllClear(req: Request, script: Script, i: nat) {
    forall j | i <= j <= LastCall(req) :: Clear(req, j, script(j))
  }

  /** What is carried out is a prefix of the plan, and all of it when no call fails. */
  lemma {:induction false} EffectsWithinPlan(req: Request, sid: SessionId, script: Script, i: nat)
    ensures Effects(req, sid, script, i) <= Plan(req, sid, script, i)
    ensures AllClear(req, script, i) ==> Effects(req, sid, script, i) == Plan(req, sid, script, i)
    ensures AllClear(req, script, i) ==> Report(req, sid, script, i) == []
    ensures !IsJob(req) && i > 0 ==> (Answered(req, script, i) == Reply(200) <==> AllClear(req, script, i))
    decreases LastCall(req) + 1 - i
  {
    if i <= LastCall(req) {
      EffectsWithinPlan(req, sid, script, i + 1);
    }
  }

  // ---------- handlers keep to their plans ----------

  /** The stage a handler has reached when it makes call `i` of its plan. */
  function Path(req: Request, script: Script, i: nat): Stage {
    match req
    case SelectDocument(_, _) =>
      if i == 1 then CreateYotiSession
      else if i == 2 then StartLetterMachine(script(1).id)
      else if i == 3 then StoreYotiId(script(1).id)
      else if i == 4 then ExtendSessionTtl
      else if i == 5 then ExtendPersonTtl
      else if i == 6 then StoreDocument
      else AuditYotiStart
    case Authorize(_) => if i == 1 then StoreCode else if i == 2 then AuditCode(script(1).id) else AuditEnd(script(1).id)
    case Redeem(_) => StoreToken
    case FirstBranchVisit(_) => StoreVisit
    case ThankYou(_) => if i == 1 then FetchYotiSession else if i == 2 then AuditUpload else StoreComplete
    case Completion(_) =>
      if i == 1 then CheckYoti
      else if i == 2 then AuditResponse
      else if i == 3 then BuildCredential
      else if i == 4 then SendCredential
      else if i == 5 then AuditIssued
      else StoreIssued
    case _ => if i == 1 then StoreAbort else AuditAbort
  }

  /** The step behind call `i` ends a handler that this call stops, at most after a report. */
  predicate GivesUp(o: Outcome, req: Request, sid: SessionId, script: Script, i: nat) {
    match o
    case Continue(stage) =>
      && stage.ReportError? && stage.reply == Failing(req, i, script(i))
      && Reported(req, sid, script, i) == if script(i + 1).ok then [CoreError(sid, stage.reason)] else []
    case Finish(given) => given == Failing(req, i, script(i)) && Reported(req, sid, script, i) == []
  }

  /** One call keeps to the plan: what it adds to the trail, and where the handler goes from there. */
  ghost predicate OnPlan(e: Effect, req: Request, sid: SessionId, script: Script, i: nat)
    requires !IsJob(req) && 1 <= i <= LastCall(req)
  {
    if Clear(req, i, script(i))
    then e.events == Planned(req, sid, script, i) &&
         e.outcome == if i < LastCall(req) then Continue(Path(req, script, i + 1)) else Finish(Reply(200))
    else e.events == [] && GivesUp(e.outcome, req, sid, script, i)
  }

  lemma SelectOnPlan(req: Request, sid: SessionId, snap: Row, script: Script, i: nat)
    requires req.SelectDocument? && 1 <= i <= 7
    ensures OnPlan(Act(req, sid, snap, Path(req, script, i), script(i)), req, sid, script, i)
  {
  }

  lemma CompletionOnPlan(req: Request, sid: SessionId, snap: Row, script: Script, i: nat)
    requires req.Completion? && snap.state == YotiSessionComplete && 1 <= i <= 6
    ensures OnPlan(Act(req, sid, snap, Path(req, script, i), script(i)), req, sid, script, i)
  {
  }

  lemma AuthorizeOnPlan(req: Request, sid: SessionId, snap: Row, script: Script, i: nat)
    requires req.Authorize? && 1 <= i <= 3
    ensures OnPlan(Act(req, sid, snap, Path(req, script, i), script(i)), req, sid, script, i)
  {
  }

  lemma OtherOnPlan(req: Request, sid: SessionId, snap: Row, script: Script, i: nat)
    requires !IsJob(req) && !req.SelectDocument? && !req.Completion? && !req.Authorize? && 1 <= i <= LastCall(req)
    ensures OnPlan(Act(req, sid, snap, Path(req, script, i), script(i)), req, sid, script, i)
  {
  }

  lemma OnPath(req: Request, sid: SessionId, snap: Row, script: Script, i: nat)
    requires !IsJob(req) && Admits(req, snap) && 1 <= i <= LastCall(req)
    ensures OnPlan(Act(req, sid, snap, Path(req, script, i), script(i)), req, sid, script, i)
  {
    match req
    case SelectDocument(_, _) => SelectOnPlan(req, sid, snap, script, i);
    case Completion(_) => CompletionOnPlan(req, sid, snap, script, i);
    case Authorize(_) => AuthorizeOnPlan(req, sid, snap, script, i);
    case _ => OtherOnPlan(req, sid, snap, script, i);
  }

  /** A step's update is the first of its events. */
  lemma ActStores(req: Request, sid: SessionId, snap: Row, stage: Stage, env: Env)
    ensures var e := Act(req, sid, snap, stage, env);
            && |e.events| <= 2
            && (|e.events| > 0 ==> e.events[0].sid == sid) && (|e.events| > 1 ==> e.events[1].sid == sid && !e.events[1].Stored?)
            && (e.update.Some? ==> |e.events| > 0 && e.events[0] == Stored(sid, e.update.value))
            && (e.update.None? && |e.events| > 0 ==> !e.events[0].Stored?)
  {
  }

  lemma FoldedFew(row: Row, events: seq<Event>)
    requires |events| <= 2
    ensures Folded(row, events) ==
            if |events| == 0 then row
            else
              var first := if events[0].Stored? then Apply(events[0].update, row) else row;
              if |events| == 2 && events[1].Stored? then Apply(events[1].update, first) else first
  {
    assert FoldedOf(row, events, 0) == row;
    if |events| > 0 {
      assert FoldedOf(row, events, 1) == if events[0].Stored? then Apply(events[0].update, row) else row;
    }
  }

  /** `st'` is `st` with these events added, all of one session, and its row changed as they say. */
  ghost predicate Adds(st: Store, st': Store, sid: SessionId, added: seq<Event>) {
    && sid in st.table
    && st'.trail == st.trail + added && (forall e | e in added :: e.sid == sid)
    && st'.table == st.table[sid := Folded(st.table[sid], added)]
  }

  lemma EffectAdds(st: Store, sid: SessionId, e: Effect)
    requires sid in st.table && |e.events| <= 2
    requires (|e.events| > 0 ==> e.events[0].sid == sid) && (|e.events| > 1 ==> e.events[1].sid == sid && !e.events[1].Stored?)
    requires e.update.Some? ==> |e.events| > 0 && e.events[0] == Stored(sid, e.update.value)
    requires e.update.None? && |e.events| > 0 ==> !e.events[0].Stored?
    ensures Adds(st, Enact(st, sid, e), sid, e.events)
  {
    FoldedFew(st.table[sid], e.events);
    assert e.events == [] ==> st.trail + e.events == st.trail;
  }

  lemma EnactAdds(st: Store, req: Request, sid: SessionId, snap: Row, stage: Stage, env: Env)
    requires sid in st.table
    ensures Adds(st, Enact(st, sid, Act(req, sid, snap, stage, env)), sid, Act(req, sid, snap, stage, env).events)
  {
    ActStores(req, sid, snap, stage, env);
    EffectAdds(st, sid, Act(req, sid, snap, stage, env));
  }

  lemma AddsThen(st: Store, st1: Store, st2: Store, sid: SessionId, a: seq<Event>, b: seq<Event>)
    requires Adds(st, st1, sid, a) && Adds(st1, st2, sid, b)
    ensures Adds(st, st2, sid, a + b)
  {
    FoldedAppend(st.table[sid], a, b);
  }

  /** What a handler that has given up still does is at most a report. */
  lemma GivenUp(st: Store, req: Request, sid: SessionId, snap: Row, stage: Stage, script: Script, i: nat)
    requires sid in st.table && stage.ReportError?
    ensures Adds(st, Drive(st, req, sid, snap, stage, script, i).0, sid,
                 if script(i).ok then [CoreError(sid, stage.reason)] else [])
    ensures Drive(st, req, sid, snap, stage, script, i).1 == stage.reply
  {
    EnactAdds(st, req, sid, snap, stage, script(i));
  }

  lemma StepThen(st: Store, req: Request, sid: SessionId, snap: Row, stage: Stage, script: Script, i: nat)
    requires sid in st.table
    ensures var e := Act(req, sid, snap, stage, script(i));
            Drive(st, req, sid, snap, stage, script, i) ==
            if e.outcome.Continue? then Drive(Enact(st, sid, e), req, sid, snap, e.outcome.stage, script, i + 1)
            else (Enact(st, sid, e), e.outcome.response)
  {
    RemainingDecreases(req, sid, snap, stage, script(i));
  }

  /** The rest of an invocation, from call `i` on: what it adds and how it is answered. */
  ghost predicate KeepsTo(st: Store, r: (Store, Response), req: Request, sid: SessionId, script: Script, i: nat) {
    && Adds(st, r.0, sid, Effects(req, sid, script, i) + Report(req, sid, script, i))
    && r.1 == Answered(req, script, i)
  }

  lemma PlanStep(req: Request, sid: SessionId, script: Script, i: nat)
    requires i <= LastCall(req)
    ensures Effects(req, sid, script, i) ==
            if Clear(req, i, script(i)) then Planned(req, sid, script, i) + Effects(req, sid, script, i + 1) else []
    ensures Answered(req, script, i) ==
            if Clear(req, i, script(i)) then Answered(req, script, i + 1) else Failing(req, i, script(i))
    ensures Report(req, sid, script, i) ==
            if Clear(req, i, script(i)) then Report(req, sid, script, i + 1) else Reported(req, sid, script, i)
  {
  }

  /** A call that stops its handler, with what follows it. */
  lemma DriveStops(st: Store, req: Request, sid: SessionId, snap: Row, script: Script, i: nat)
    requires sid in st.table && !IsJob(req) && Admits(req, snap) && 1 <= i <= LastCall(req) && !Clear(req, i, script(i))
    ensures KeepsTo(st, Drive(st, req, sid, snap, Path(req, script, i), script, i), req, sid, script, i)
  {
    var stage := Path(req, script, i);
    var e := Act(req, sid, snap, stage, script(i));
    OnPath(req, sid, snap, script, i);
    EnactAdds(st, req, sid, snap, stage, script(i));
    StepThen(st, req, sid, snap, stage, script, i);
    PlanStep(req, sid, script, i);
    var report := Report(req, sid, script, i);
    assert Effects(req, sid, script, i) + report == [] + report == report;
    if e.outcome.Continue? {
      GivenUp(Enact(st, sid, e), req, sid, snap, e.outcome.stage, script, i + 1);
      AddsThen(st, Enact(st, sid, e), Drive(st, req, sid, snap, stage, script, i).0, sid, [], report);
    }
  }

  /** A step's events, then the rest of the invocation. */
  lemma KeepsOn(st: Store, st1: Store, r: (Store, Response), req: Request, sid: SessionId, script: Script, i: nat)
    requires i <= LastCall(req) && Clear(req, i, script(i))
    requires Adds(st, st1, sid, Planned(req, sid, script, i)) && KeepsTo(st1, r, req, sid, script, i + 1)
    ensures KeepsTo(st, r, req, sid, script, i)
  {
    var now, rest, report := Planned(req, sid, script, i), Effects(req, sid, script, i + 1), Report(req, sid, script, i + 1);
    AddsThen(st, st1, r.0, sid, now, rest + report);
    assert now + (rest + report) == now + rest + report;
    PlanStep(req, sid, script, i);
  }

  /** A call that does not stop its handler: its effects, and where the handler goes from there. */
  lemma DriveGoesOn(st: Store, req: Request, sid: SessionId, snap: Row, script: Script, i: nat) returns (st1: Store)
    requires sid in st.table && !IsJob(req) && Admits(req, snap) && 1 <= i <= LastCall(req) && Clear(req, i, script(i))
    ensures Adds(st, st1, sid, Planned(req, sid, script, i))
    ensures Drive(st, req, sid, snap, Path(req, script, i), script, i) ==
            if i == LastCall(req) then (st1, Reply(200))
            else Drive(st1, req, sid, snap, Path(req, script, i + 1), script, i + 1)
  {
    var stage := Path(req, script, i);
    st1 := Enact(st, sid, Act(req, sid, snap, stage, script(i)));
    OnPath(req, sid, snap, script, i);
    EnactAdds(st, req, sid, snap, stage, script(i));
    StepThen(st, req, sid, snap, stage, script, i);
  }

  lemma {:induction false} DriveKeepsToPlan(st: Store, req: Request, sid: SessionId, snap: Row, script: Script, i: nat,
                                            r: (Store, Response))
    requires sid in st.table && !IsJob(req) && Admits(req, snap) && 1 <= i <= LastCall(req)
    requires r == Drive(st, req, sid, snap, Path(req, script, i), script, i)
    ensures KeepsTo(st, r, req, sid, script, i)
    decreases LastCall(req) - i
  {
    if !Clear(req, i, script(i)) {
      DriveStops(st, req, sid, snap, script, i);
    } else {
      var st1 := DriveGoesOn(st, req, sid, snap, script, i);
      if i == LastCall(req) {
        Finished(st1, req, sid, script);
      } else {
        DriveKeepsToPlan(st1, req, sid, snap, script, i + 1, r);
      }
      KeepsOn(st, st1, r, req, sid, script, i);
    }
  }

  lemma Finished(st: Store, req: Request, sid: SessionId, script: Script)
    requires sid in st.table
    ensures KeepsTo(st, (st, Reply(200)), req, sid, script, LastCall(req) + 1)
  {
    assert st.trail + [] == st.trail;
  }

  /** The report of a completion that is not awaited, or that finds Yoti failing. */
  function RefusalReport(sid: SessionId, script: Script): seq<Event> {
    if !script(2).ok then []
    else if script(1).ok then [CoreError(sid, WrongAuthState)]
    else if script(1).report.Some? then [CoreError(sid, script(1).report.value)]
    else []
  }

  /** A completion in a state that is not awaited is refused, with a report if that can be sent. */
  lemma CompletionRefused(st: Store, req: Request, sid: SessionId, snap: Row, script: Script)
    requires sid in st.table && snap.state != YotiSessionComplete
    ensures Adds(st, Drive(st, req, sid, snap, CheckYoti, script, 1).0, sid, RefusalReport(sid, script))
    ensures Drive(st, req, sid, snap, CheckYoti, script, 1).1 == if script(1).ok then Reply(401) else Thrown(500)
  {
    var e := Act(req, sid, snap, CheckYoti, script(1));
    EnactAdds(st, req, sid, snap, CheckYoti, script(1));
    StepThen(st, req, sid, snap, CheckYoti, script, 1);
    if e.outcome.Continue? {
      var report := RefusalReport(sid, script);
      GivenUp(Enact(st, sid, e), req, sid, snap, e.outcome.stage, script, 2);
      AddsThen(st, Enact(st, sid, e), Drive(st, req, sid, snap, CheckYoti, script, 1).0, sid, e.events, report);
      assert e.events + report == report;
    }
  }

  /** The handler gets past its read. */
  predicate Starts(req: Request, row: Row, env: Env) {
    row.expiryDate >= env.now && Admits(req, row) && Clear(req, 0, env)
  }

  /** The answer of a handler that does not get past its read. */
  function Refused(req: Request, row: Row, script: Script): Response {
    if row.expiryDate < script(0).now then (if req.Redeem? then Reply(401) else Thrown(401))
    else match req
      case SelectDocument(_, _) => if script(0).ok then Reply(401) else Refusal(script(0))
      case Authorize(_) => Reply(401)
      case Redeem(_) => if script(0).ok && row.state != AuthCodeIssued then Reply(401) else Reply(script(0).status)
      case Completion(_) => if !script(0).ok then Reply(400) else if script(1).ok then Reply(401) else Thrown(500)
      case Abort(_) => Reply(200)
      case _ => Refusal(script(0))
  }

  lemma BeginStarts(req: Request, row: Row, script: Script)
    requires !IsJob(req)
    ensures Starts(req, row, script(0)) ==> Begin(req, row, script(0)) == Continue(Path(req, script, 1))
    ensures !Starts(req, row, script(0)) ==>
      match Begin(req, row, script(0))
      case Continue(stage) =>
        && stage == CheckYoti && req.Completion? && row.state != YotiSessionComplete
        && row.expiryDate >= script(0).now && script(0).ok
      case Finish(response) => response == Refused(req, row, script)
  {
  }

  /** What a handler adds to the trail. */
  function Added(req: Request, sid: SessionId, row: Row, script: Script): seq<Event> {
    if Starts(req, row, script(0)) then Effects(req, sid, script, 1) + Report(req, sid, script, 1)
    else if req.Completion? && row.expiryDate >= script(0).now && script(0).ok then RefusalReport(sid, script)
    else []
  }

  /** How a handler answers. */
  function Answer(req: Request, row: Row, script: Script): Response {
    if Starts(req, row, script(0)) then Answered(req, script, 1) else Refused(req, row, script)
  }

  lemma HandleAdds(st: Store, req: Request, sid: SessionId, script: Script, r: (Store, Response))
    requires sid in st.table && !IsJob(req) && r == Handle(st, req, sid, script)
    ensures Adds(st, r.0, sid, Added(req, sid, st.table[sid], script)) && r.1 == Answer(req, st.table[sid], script)
  {
    var row := st.table[sid];
    BeginStarts(req, row, script);
    if Starts(req, row, script(0)) {
      DriveKeepsToPlan(st, req, sid, row, script, 1, r);
    } else if Begin(req, row, script(0)).Continue? {
      CompletionRefused(st, req, sid, row, script);
    } else {
      assert st.trail + [] == st.trail;
    }
  }

  /**
   For every request, row and answer of every call: a handler that starts carries out its plan up to the first
   call that stops it, answers as that call says, and at most reports beyond its plan; one that does not start
   at most reports. It answers with success if and only if it starts and no call stops it, or an abort finds the
   session aborted already. Its row changes as its effects say, and no other session is touched.
   */
  lemma HandlerKeepsToPlan(st: Store, req: Request, sid: SessionId, script: Script)
    requires sid in st.table && !IsJob(req)
    ensures var (st', response) := Handle(st, req, sid, script);
            var row := st.table[sid];
            && Adds(st, st', sid, Added(req, sid, row, script))
            && response == Answer(req, row, script)
            && (response == Reply(200) <==>
                  || (Starts(req, row, script(0)) && AllClear(req, script, 1))
                  || (row.expiryDate >= script(0).now && req.Abort? && row.state == CriSessionAborted))
            && (response == Reply(200) && Admits(req, row) ==> Added(req, sid, row, script) == Plan(req, sid, script, 1))
    ensures Effects(req, sid, script, 1) <= Plan(req, sid, script, 1)
  {
    var r := Handle(st, req, sid, script);
    HandleAdds(st, req, sid, script, r);
    EffectsWithinPlan(req, sid, script, 1);
  }
}
