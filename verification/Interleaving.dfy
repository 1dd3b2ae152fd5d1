/**
 What survives every interleaving: invariants of all reachable worlds, with any number of handlers
 in flight, reads of old row versions, and failures at every call.
 */
module Interleaving {
  import opened Wrappers
  import opened SessionModel
  import opened Protocol

  /** What a handler knows about its snapshot when it has reached a stage. */
  ghost predicate StageOk(snap: Row, stage: Stage) {
    match stage
    case CreateYotiSession => snap.state == SessionCreated
    case StartLetterMachine(_) => snap.state == SessionCreated
    case StoreYotiId(_) => snap.state == SessionCreated
    case StoreCode => snap.state == YotiSessionCreated
    case StoreToken => snap.state == AuthCodeIssued
    case StoreVisit => snap.yotiSessionId.Some?
    case FetchYotiSession => snap.yotiSessionId.Some?
    case AuditUpload => snap.yotiSessionId.Some?
    case StoreComplete => snap.yotiSessionId.Some?
    case CheckYoti => snap.yotiSessionId.Some?
    case AuditResponse => snap.state == YotiSessionComplete
    case BuildCredential => snap.state == YotiSessionComplete
    case SendCredential => snap.state == YotiSessionComplete
    case AuditIssued => snap.state == YotiSessionComplete
    case StoreIssued => snap.state == YotiSessionComplete
    case SendExpiry => Swept(snap.state)
    case StoreExpired => Swept(snap.state)
    case ReadPerson => AwaitsVisit(snap.state)
    case SendReminder => AwaitsVisit(snap.state)
    case _ => true
  }

  /** A Yoti id has been stored for the session. */
  ghost predicate Named(sid: SessionId, trail: seq<Event>) {
    exists y :: Stored(sid, SetYotiIdAndStatus(y)) in trail
  }

  /** The effect a handler must already have had when it has reached a stage. */
  ghost predicate Due(sid: SessionId, stage: Stage, trail: seq<Event>) {
    match stage
    case StoreYotiId(y) => LetterStarted(sid, y) in trail
    case ExtendSessionTtl => Named(sid, trail)
    case ExtendPersonTtl => Named(sid, trail)
    case StoreDocument => Named(sid, trail)
    case AuditYotiStart => Named(sid, trail) && exists d :: Stored(sid, SetDocumentUsed(d)) in trail
    case StoreComplete => Audit(sid, DocumentUploaded) in trail
    case AuditAbort => Stored(sid, SetAuthState(CriSessionAborted)) in trail
    case AuditIssued => Credential(sid) in trail
    case StoreIssued => Credential(sid) in trail
    case FlagReminder => ReminderQueued(sid) in trail
    case AuditCode(c) => Stored(sid, SetAuthorizationCode(c)) in trail
    case AuditEnd(c) => Stored(sid, SetAuthorizationCode(c)) in trail
    case _ => true
  }

  /** Every mark in a row is backed by the effect it records. */
  ghost predicate Backed(sid: SessionId, r: Row, trail: seq<Event>) {
    && (r.state == CredentialIssued ==> Credential(sid) in trail)
    && (r.state == YotiSessionComplete ==>
          Audit(sid, DocumentUploaded) in trail && Stored(sid, SetAuthState(YotiSessionComplete)) in trail)
    && (r.yotiSessionId.Some? ==>
          LetterStarted(sid, r.yotiSessionId.value) in trail && Stored(sid, SetYotiIdAndStatus(r.yotiSessionId.value)) in trail)
    && (r.reminderEmailSent ==> ReminderQueued(sid) in trail)
    && (r.authorizationCode.Some? ==> Stored(sid, SetAuthorizationCode(r.authorizationCode.value)) in trail)
  }

  /** An audit event comes after what it reports. */
  ghost predicate Reports(sid: SessionId, event: AuditEvent, before: seq<Event>) {
    match event
    case YotiStart => Named(sid, before) && exists d :: Stored(sid, SetDocumentUsed(d)) in before
    case AuthCodeIssuedEvent => exists c :: Stored(sid, SetAuthorizationCode(c)) in before
    case CriEnd => exists c :: Stored(sid, SetAuthorizationCode(c)) in before
    case DocumentUploaded => Named(sid, before)
    case YotiResponseReceived => Stored(sid, SetAuthState(YotiSessionComplete)) in before
    case VcIssued => Credential(sid) in before
    case SessionAbortedEvent => Stored(sid, SetAuthState(CriSessionAborted)) in before
  }

  /** An update comes after what it records, or what its handler has found in the row. */
  ghost predicate Entitled(sid: SessionId, update: Update, before: seq<Event>) {
    match update
    case SetYotiIdAndStatus(y) => LetterStarted(sid, y) in before
    case SetTtl(_) => Named(sid, before)
    case SetDocumentUsed(_) => Named(sid, before)
    case SetAuthorizationCode(_) => Named(sid, before)
    case SetAccessTokenDetails(_) => exists c :: Stored(sid, SetAuthorizationCode(c)) in before
    case SetAuthState(CredentialIssued) => Credential(sid) in before
    case SetAuthState(YotiSessionComplete) => Audit(sid, DocumentUploaded) in before
    case SetAuthState(PostOfficeVisited) => Named(sid, before)
    case SetAuthState(CriSessionAborted) => true
    case SetAuthState(_) => false
    case MarkAsExpired => Named(sid, before)
    case SetReminderFlag => ReminderQueued(sid) in before
  }

  /** An event comes after the events it presupposes. */
  ghost predicate Paid(e: Event, before: seq<Event>) {
    match e
    case Stored(sid, update) => Entitled(sid, update, before)
    case Audit(sid, event) => Reports(sid, event, before)
    case Credential(sid) => Stored(sid, SetAuthState(YotiSessionComplete)) in before
    case CodeHanded(sid, c) => Stored(sid, SetAuthorizationCode(c)) in before
    case TokenHanded(sid) => exists expiry :: Stored(sid, SetAccessTokenDetails(expiry)) in before
    case ExpiryNotice(sid) => Named(sid, before)
    case ReminderQueued(sid) => Named(sid, before)
    case _ => true
  }

  ghost predicate TrailOk(trail: seq<Event>) {
    forall i | 0 <= i < |trail| :: Paid(trail[i], trail[..i])
  }

  ghost predicate HistoryOk(sid: SessionId, rows: seq<Row>, trail: seq<Event>) {
    && rows != []
    && (forall r | r in rows :: RowOk(r) && Backed(sid, r, trail))
    && (forall i, j | 0 <= i <= j < |rows| :: Evolves(rows[i], rows[j]))
  }

  ghost predicate FlightOk(f: Flight, w: World) {
    && f.sid in w.history
    && f.seen < |w.history[f.sid]|
    && w.history[f.sid][f.seen] == f.snap
    && StageOk(f.snap, f.stage)
    && Due(f.sid, f.stage, w.trail)
  }

  ghost predicate Inv(w: World) {
    && (forall sid | sid in w.history :: HistoryOk(sid, w.history[sid], w.trail))
    && (forall t | t in w.flights :: FlightOk(w.flights[t], w))
    && TrailOk(w.trail)
  }

  lemma BeginOk(req: Request, sid: SessionId, row: Row, env: Env, trail: seq<Event>)
    requires RowOk(row) && Matches(req, sid, row)
    ensures Begin(req, row, env).Continue? ==>
              var stage := Begin(req, row, env).stage; StageOk(row, stage) && Due(sid, stage, trail)
  {
  }

  /** What a handler must have seen to send an update: only a session with a Yoti id leaves the first state. */
  ghost predicate Grounded(snap: Row, u: Update) {
    match u
    case SetAuthorizationCode(_) => snap.yotiSessionId.Some?
    case SetAccessTokenDetails(_) => snap.yotiSessionId.Some?
    case MarkAsExpired => snap.yotiSessionId.Some?
    case SetAuthState(s) =>
      || s == CriSessionAborted
      || (s in {PostOfficeVisited, YotiSessionComplete, CredentialIssued} && snap.yotiSessionId.Some?)
    case _ => true
  }

  lemma UpdateGrounded(f: Flight, env: Env)
    requires StageOk(f.snap, f.stage) && RowOk(f.snap)
    requires EffectOf(f, env).update.Some?
    ensures Grounded(f.snap, EffectOf(f, env).update.value)
  {
  }

  /** A grounded update keeps the row good, whatever the row has become since the handler read it. */
  lemma GroundedOk(snap: Row, cur: Row, u: Update)
    requires Grounded(snap, u) && Evolves(snap, cur) && RowOk(cur)
    ensures RowOk(Apply(u, cur)) && Evolves(cur, Apply(u, cur))
  {
  }

  lemma NextStageOk(f: Flight, env: Env)
    requires StageOk(f.snap, f.stage) && RowOk(f.snap)
    requires EffectOf(f, env).outcome.Continue?
    ensures StageOk(f.snap, EffectOf(f, env).outcome.stage)
  {
  }

  /** The update of a step is the first event it adds, and that event comes after what it presupposes. */
  lemma UpdateStored(f: Flight, env: Env, trail: seq<Event>)
    requires StageOk(f.snap, f.stage) && RowOk(f.snap) && Backed(f.sid, f.snap, trail) && Due(f.sid, f.stage, trail)
    requires EffectOf(f, env).update.Some?
    ensures EffectOf(f, env).events != []
    ensures EffectOf(f, env).events[0] == Stored(f.sid, EffectOf(f, env).update.value)
    ensures Paid(EffectOf(f, env).events[0], trail)
  {
  }

  lemma PaidBacks(sid: SessionId, u: Update, cur: Row, trail: seq<Event>, events: seq<Event>)
    requires Backed(sid, cur, trail)
    requires events != [] && events[0] == Stored(sid, u) && Paid(events[0], trail)
    ensures Backed(sid, Apply(u, cur), trail + events)
  {
    assert events[0] in trail + events;
  }

  lemma NextDue(f: Flight, env: Env, trail: seq<Event>)
    requires Due(f.sid, f.stage, trail)
    requires EffectOf(f, env).outcome.Continue?
    ensures Due(f.sid, EffectOf(f, env).outcome.stage, trail + EffectOf(f, env).events)
  {
    var events := EffectOf(f, env).events;
    assert events != [] ==> events[0] in trail + events;
  }

  /** The first event of a step comes after what it presupposes, and the second after the first. */
  lemma StepPaid(f: Flight, env: Env, trail: seq<Event>)
    requires StageOk(f.snap, f.stage) && RowOk(f.snap) && Backed(f.sid, f.snap, trail) && Due(f.sid, f.stage, trail)
    ensures var events := EffectOf(f, env).events;
            && |events| <= 2
            && (|events| > 0 ==> Paid(events[0], trail))
            && (|events| > 1 ==> Paid(events[1], trail + [events[0]]))
  {
    var e := EffectOf(f, env);
    if e.update.Some? {
      UpdateStored(f, env, trail);
      assert e.events[0] in trail + [e.events[0]];
    }
  }

  lemma EventsPaid(f: Flight, env: Env, trail: seq<Event>)
    requires StageOk(f.snap, f.stage) && RowOk(f.snap) && Backed(f.sid, f.snap, trail) && Due(f.sid, f.stage, trail)
    requires TrailOk(trail)
    ensures TrailOk(trail + EffectOf(f, env).events)
  {
    var events := EffectOf(f, env).events;
    StepPaid(f, env, trail);
    forall i | 0 <= i < |trail + events| ensures Paid((trail + events)[i], (trail + events)[..i]) {
      if i < |trail| {
        assert (trail + events)[..i] == trail[..i];
      } else if i == |trail| {
        assert (trail + events)[..i] == trail;
      } else {
        assert (trail + events)[..i] == trail + [events[0]];
      }
    }
  }

  lemma BackedGrows(sid: SessionId, rows: seq<Row>, trail: seq<Event>, more: seq<Event>)
    requires HistoryOk(sid, rows, trail)
    ensures HistoryOk(sid, rows, trail + more)
  {
  }

  lemma HistoryGrows(sid: SessionId, rows: seq<Row>, trail: seq<Event>, r: Row)
    requires HistoryOk(sid, rows, trail)
    requires RowOk(r) && Evolves(Last(rows), r) && Backed(sid, r, trail)
    ensures HistoryOk(sid, rows + [r], trail)
  {
    var rows' := rows + [r];
    forall i, j | 0 <= i <= j < |rows'| ensures Evolves(rows'[i], rows'[j]) {
      if j == |rows| && i < j { assert Evolves(rows[i], Last(rows)); }
    }
  }

  lemma AdvanceKeepsHistory(w: World, t: nat, env: Env, sid: SessionId)
    requires Inv(w) && Enabled(w, Advance(t, env)) && sid in w.history
    ensures var w' := Next(w, Advance(t, env));
            sid in w'.history && w.history[sid] <= w'.history[sid] && HistoryOk(sid, w'.history[sid], w'.trail)
  {
    var f := w.flights[t];
    var e := EffectOf(f, env);
    BackedGrows(sid, w.history[sid], w.trail, e.events);
    if sid == f.sid && e.update.Some? {
      var rows := w.history[sid];
      assert FlightOk(f, w);
      assert Evolves(rows[f.seen], Last(rows));
      assert rows[f.seen] in rows && Last(rows) in rows;
      UpdateGrounded(f, env);
      GroundedOk(f.snap, Last(rows), e.update.value);
      UpdateStored(f, env, w.trail);
      PaidBacks(sid, e.update.value, Last(rows), w.trail, e.events);
      HistoryGrows(sid, rows, w.trail + e.events, Apply(e.update.value, Last(rows)));
    }
  }

  lemma DueGrows(sid: SessionId, stage: Stage, trail: seq<Event>, more: seq<Event>)
    requires Due(sid, stage, trail)
    ensures Due(sid, stage, trail + more)
  {
  }

  lemma AdvanceKeepsFlight(w: World, t: nat, env: Env, u: nat)
    requires Inv(w) && Enabled(w, Advance(t, env))
    requires u in Next(w, Advance(t, env)).flights
    ensures FlightOk(Next(w, Advance(t, env)).flights[u], Next(w, Advance(t, env)))
  {
    var f := w.flights[u];
    assert FlightOk(f, w);
    AdvanceKeepsHistory(w, t, env, f.sid);
    if u == t {
      var rows := w.history[f.sid];
      assert rows[f.seen] in rows;
      NextStageOk(f, env);
      NextDue(f, env, w.trail);
    } else {
      DueGrows(f.sid, f.stage, w.trail, EffectOf(w.flights[t], env).events);
    }
  }

  lemma AdvanceKeepsInv(w: World, t: nat, env: Env)
    requires Inv(w) && Enabled(w, Advance(t, env))
    ensures Inv(Next(w, Advance(t, env)))
  {
    var w' := Next(w, Advance(t, env));
    var f := w.flights[t];
    assert FlightOk(f, w);
    assert w.history[f.sid][f.seen] in w.history[f.sid];
    EventsPaid(f, env, w.trail);
    forall sid | sid in w'.history ensures HistoryOk(sid, w'.history[sid], w'.trail) {
      AdvanceKeepsHistory(w, t, env, sid);
    }
    forall u | u in w'.flights ensures FlightOk(w'.flights[u], w') {
      AdvanceKeepsFlight(w, t, env, u);
    }
  }

  lemma NextKeepsInv(w: World, a: Action)
    requires Inv(w) && Enabled(w, a)
    ensures Inv(Next(w, a))
  {
    match a
    case Create(sid, now) =>
      var w' := Next(w, a);
      forall t | t in w'.flights ensures FlightOk(w'.flights[t], w') { assert FlightOk(w.flights[t], w); }
    case Start(t, req, sid, v, env) =>
      var row := w.history[sid][v];
      assert row in w.history[sid];
      BeginOk(req, sid, row, env, w.trail);
      var w' := Next(w, a);
      forall u | u in w'.flights ensures FlightOk(w'.flights[u], w') {
        if u in w.flights { assert FlightOk(w.flights[u], w); }
      }
    case Advance(t, env) => AdvanceKeepsInv(w, t, env);
  }

  lemma {:induction false} RunKeepsInv(w: World, acts: seq<Action>)
    requires Inv(w) && IsRun(w, acts)
    ensures Inv(After(w, acts))
    decreases |acts|
  {
    if acts != [] {
      NextKeepsInv(w, acts[0]);
      RunKeepsInv(Next(w, acts[0]), acts[1..]);
    }
  }

  lemma StepGrows(w: World, a: Action, sid: SessionId)
    requires Inv(w) && Enabled(w, a) && sid in w.history
    ensures sid in Next(w, a).history && w.history[sid] <= Next(w, a).history[sid]
  {
    if a.Advance? { assert FlightOk(w.flights[a.ticket], w); }
  }

  /** Rows are never dropped and their past is never rewritten. */
  lemma {:induction false} RunGrows(w: World, acts: seq<Action>, sid: SessionId)
    requires Inv(w) && IsRun(w, acts) && sid in w.history
    ensures sid in After(w, acts).history && w.history[sid] <= After(w, acts).history[sid]
    decreases |acts|
  {
    if acts != [] {
      StepGrows(w, acts[0], sid);
      NextKeepsInv(w, acts[0]);
      RunGrows(Next(w, acts[0]), acts[1..], sid);
    }
  }

  /** Every version of every reachable row is good, and rows only move forward in the facts that never turn back. */
  lemma ReachableRows(acts: seq<Action>, sid: SessionId, i: nat, j: nat)
    requires IsRun(EmptyWorld, acts) && sid in After(EmptyWorld, acts).history
    requires i <= j < |After(EmptyWorld, acts).history[sid]|
    ensures var rows := After(EmptyWorld, acts).history[sid];
            && (rows[j].state !in {SessionCreated, CriSessionAborted} ==> rows[j].yotiSessionId.Some?)
            && (rows[j].state == AuthCodeIssued ==> rows[j].authorizationCode.Some?)
            && (rows[j].state == AccessTokenIssued ==>
                  rows[j].authorizationCode == None && rows[j].accessTokenExpiryDate.Some?)
            && (rows[j].state == SessionExpired ==> rows[j].expiredNotificationSent)
            && rows[j].state != SessionAborted
            && (rows[i].state != SessionCreated ==> rows[j].state != SessionCreated)
            && (rows[i].expiredNotificationSent ==> rows[j].expiredNotificationSent)
  {
    RunKeepsInv(EmptyWorld, acts);
    var rows := After(EmptyWorld, acts).history[sid];
    assert rows[j] in rows;
    assert Evolves(rows[i], rows[j]);
  }

  /** In every reachable trail each mark, and each code or token handed out, follows the effect it stands for. */
  lemma SentBeforeMarked(acts: seq<Action>, k: nat, sid: SessionId)
    requires IsRun(EmptyWorld, acts) && k < |After(EmptyWorld, acts).trail|
    ensures var trail := After(EmptyWorld, acts).trail;
            && (trail[k] == Stored(sid, SetAuthState(CredentialIssued)) ==> Credential(sid) in trail[..k])
            && (trail[k] == Credential(sid) ==> Stored(sid, SetAuthState(YotiSessionComplete)) in trail[..k])
            && (trail[k] == Stored(sid, SetAuthState(YotiSessionComplete)) ==> Audit(sid, DocumentUploaded) in trail[..k])
            && (forall y :: trail[k] == Stored(sid, SetYotiIdAndStatus(y)) ==> LetterStarted(sid, y) in trail[..k])
            && (trail[k] == Stored(sid, SetReminderFlag) ==> ReminderQueued(sid) in trail[..k])
            && (forall c :: trail[k] == CodeHanded(sid, c) ==> Stored(sid, SetAuthorizationCode(c)) in trail[..k])
            && (trail[k] == TokenHanded(sid) ==> exists expiry :: Stored(sid, SetAccessTokenDetails(expiry)) in trail[..k])
  {
    RunKeepsInv(EmptyWorld, acts);
    assert Paid(After(EmptyWorld, acts).trail[k], After(EmptyWorld, acts).trail[..k]);
  }

  /** In every reachable trail an audit event follows the facts it reports. */
  lemma AuditsReportFacts(acts: seq<Action>, k: nat, sid: SessionId)
    requires IsRun(EmptyWorld, acts) && k < |After(EmptyWorld, acts).trail|
    ensures var trail := After(EmptyWorld, acts).trail;
            && (trail[k] == Audit(sid, YotiStart) ==>
                  && (exists y :: Stored(sid, SetYotiIdAndStatus(y)) in trail[..k])
                  && (exists d :: Stored(sid, SetDocumentUsed(d)) in trail[..k]))
            && (trail[k] == Audit(sid, AuthCodeIssuedEvent) ==> exists c :: Stored(sid, SetAuthorizationCode(c)) in trail[..k])
            && (trail[k] == Audit(sid, CriEnd) ==> exists c :: Stored(sid, SetAuthorizationCode(c)) in trail[..k])
            && (trail[k] == Audit(sid, DocumentUploaded) ==> exists y :: Stored(sid, SetYotiIdAndStatus(y)) in trail[..k])
            && (trail[k] == Audit(sid, YotiResponseReceived) ==>
                  Stored(sid, SetAuthState(YotiSessionComplete)) in trail[..k])
            && (trail[k] == Audit(sid, VcIssued) ==> Credential(sid) in trail[..k])
            && (trail[k] == Audit(sid, SessionAbortedEvent) ==> Stored(sid, SetAuthState(CriSessionAborted)) in trail[..k])
  {
    RunKeepsInv(EmptyWorld, acts);
    assert Paid(After(EmptyWorld, acts).trail[k], After(EmptyWorld, acts).trail[..k]);
  }

  /** In every reachable trail an update follows the one that led its session to the state its handler found. */
  lemma UpdatesHaveGrounds(acts: seq<Action>, k: nat, sid: SessionId)
    requires IsRun(EmptyWorld, acts) && k < |After(EmptyWorld, acts).trail|
    ensures var trail := After(EmptyWorld, acts).trail;
            && ((exists c :: trail[k] == Stored(sid, SetAuthorizationCode(c))) ==>
                  exists y :: Stored(sid, SetYotiIdAndStatus(y)) in trail[..k])
            && ((exists expiry :: trail[k] == Stored(sid, SetAccessTokenDetails(expiry))) ==>
                  exists c :: Stored(sid, SetAuthorizationCode(c)) in trail[..k])
            && (trail[k] in {Stored(sid, SetAuthState(PostOfficeVisited)), Stored(sid, MarkAsExpired),
                             ExpiryNotice(sid), ReminderQueued(sid)} ==>
                  exists y :: Stored(sid, SetYotiIdAndStatus(y)) in trail[..k])
            && (forall state | trail[k] == Stored(sid, SetAuthState(state)) ::
                  state in {PostOfficeVisited, YotiSessionComplete, CredentialIssued, CriSessionAborted})
  {
    RunKeepsInv(EmptyWorld, acts);
    assert Paid(After(EmptyWorld, acts).trail[k], After(EmptyWorld, acts).trail[..k]);
  }

  /** The same for the rows: whatever a reachable row says happened is on the trail. */
  lemma RowsAreBacked(acts: seq<Action>, sid: SessionId, r: Row)
    requires IsRun(EmptyWorld, acts) && sid in After(EmptyWorld, acts).history
    requires r in After(EmptyWorld, acts).history[sid]
    ensures var trail := After(EmptyWorld, acts).trail;
            && (r.state == CredentialIssued ==> Credential(sid) in trail)
            && (r.state == YotiSessionComplete ==>
                  Audit(sid, DocumentUploaded) in trail && Stored(sid, SetAuthState(YotiSessionComplete)) in trail)
            && (r.yotiSessionId.Some? ==>
                  && LetterStarted(sid, r.yotiSessionId.value) in trail
                  && Stored(sid, SetYotiIdAndStatus(r.yotiSessionId.value)) in trail)
            && (r.reminderEmailSent ==> ReminderQueued(sid) in trail)
            && (r.authorizationCode.Some? ==> Stored(sid, SetAuthorizationCode(r.authorizationCode.value)) in trail)
  {
    RunKeepsInv(EmptyWorld, acts);
  }
}
