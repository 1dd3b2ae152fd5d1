/** One invocation of a handler, as a function of the current rows and of what its calls answer. */
module HandlerSpec {
  import opened Wrappers
  import opened SessionModel
  import opened Protocol

  /** The session table, with one current row per session, and the trail of effects. */
  datatype Store = Store(table: map<SessionId, Row>, trail: seq<Event>)

  /** What the dependencies answer, call by call. */
  type Script = nat -> Env

  /** An upper bound on the steps a handler has left. */
  function Remaining(stage: Stage): nat {
    match stage
    case CreateYotiSession => 8
    case StartLetterMachine(_) => 7
    case StoreYotiId(_) => 6
    case ExtendSessionTtl => 5
    case ExtendPersonTtl => 4
    case StoreDocument => 3
    case CheckYoti => 7
    case AuditResponse => 6
    case BuildCredential => 5
    case SendCredential => 4
    case AuditIssued => 3
    case StoreCode => 3
    case FetchYotiSession => 3
    case ReadPerson => 3
    case AuditCode(_) => 2
    case AuditUpload => 2
    case SendReminder => 2
    case SendExpiry => 2
    case StoreAbort => 2
    case _ => 1
  }

  lemma RemainingDecreases(req: Request, sid: SessionId, snap: Row, stage: Stage, env: Env)
    ensures var next := Act(req, sid, snap, stage, env).outcome;
            next.Continue? ==> Remaining(next.stage) < Remaining(stage)
  {
  }

  function Enact(st: Store, sid: SessionId, e: Effect): (st': Store)
    requires sid in st.table
    ensures st'.table.Keys == st.table.Keys
  {
    Store(if e.update.Some? then st.table[sid := Apply(e.update.value, st.table[sid])] else st.table,
          if e.events == [] then st.trail else st.trail + e.events)
  }

  /** A handler's remaining steps, taken without interruption. Call `i` is the next one. */
  function Drive(st: Store, req: Request, sid: SessionId, snap: Row, stage: Stage, script: Script, i: nat): (Store, Response)
    requires sid in st.table
    decreases Remaining(stage)
  {
    RemainingDecreases(req, sid, snap, stage, script(i));
    var e := Act(req, sid, snap, stage, script(i));
    match e.outcome
    case Continue(next) => Drive(Enact(st, sid, e), req, sid, snap, next, script, i + 1)
    case Finish(response) => (Enact(st, sid, e), response)
  }

  function Handle(st: Store, req: Request, sid: SessionId, script: Script): (Store, Response)
    requires sid in st.table
  {
    match Begin(req, st.table[sid], script(0))
    case Continue(stage) => Drive(st, req, sid, st.table[sid], stage, script, 1)
    case Finish(response) => (st, response)
  }

  /** The one row a request's read returns. */
  ghost predicate Found(table: map<SessionId, Row>, req: Request, sid: SessionId) {
    && sid in table && Matches(req, sid, table[sid])
    && forall s | s in table && Matches(req, s, table[s]) :: s == sid
  }

  lemma FoundIsOnlyHit(table: map<SessionId, Row>, req: Request, sid: SessionId)
    requires Found(table, req, sid)
    ensures (set s | s in table && Matches(req, s, table[s])) == {sid}
  {
  }

  lemma OnlyHitIsFound(table: map<SessionId, Row>, req: Request, sid: SessionId)
    requires |set s | s in table && Matches(req, s, table[s])| == 1
    requires sid in table && Matches(req, sid, table[sid])
    ensures Found(table, req, sid)
  {
    var hits := set s | s in table && Matches(req, s, table[s]);
    assert |hits - {sid}| == 0;
    assert forall s | s in table && Matches(req, s, table[s]) :: s == sid || s in hits - {sid};
  }

  /** Which session each request finds: the one it names, or the only one with the code or the Yoti id it names. */
  lemma FoundExactly(table: map<SessionId, Row>, req: Request, sid: SessionId)
    requires !req.Expire? && !req.Remind?
    ensures Found(table, req, sid) <==>
      && sid in table
      && match req
         case SelectDocument(s, _) => s == sid
         case Authorize(s) => s == sid
         case Abort(s) => s == sid
         case Redeem(code) => forall s | s in table :: table[s].authorizationCode == Some(code) <==> s == sid
         case FirstBranchVisit(y) => forall s | s in table :: table[s].yotiSessionId == Some(y) <==> s == sid
         case ThankYou(y) => forall s | s in table :: table[s].yotiSessionId == Some(y) <==> s == sid
         case Completion(y) => forall s | s in table :: table[s].yotiSessionId == Some(y) <==> s == sid
  {
  }

  /** The answer when the read does not return exactly one row. */
  function NotFound(req: Request): Response {
    match req
    case SelectDocument(_, _) => Thrown(400)
    case Authorize(_) => Reply(401)
    case Abort(_) => Thrown(400)
    case Redeem(_) => Reply(500)
    case _ => Thrown(500)
  }

  /** The answer when the read itself fails: the access token handler takes any error that is not its own for a refusal. */
  function LookupFailed(req: Request): Response {
    if req.Redeem? then Reply(401) else Thrown(500)
  }

  /** What one invocation may do to the store and answer. */
  ghost predicate Serves(st: Store, req: Request, lookedUp: bool, script: Script, st': Store, response: Response) {
    if !lookedUp then st' == st && response == LookupFailed(req)
    else
      && (forall sid | Found(st.table, req, sid) :: (st', response) == Handle(st, req, sid, script))
      && ((forall sid :: !Found(st.table, req, sid)) ==> st' == st && response == NotFound(req))
  }
}
