/**
 The handlers as concurrent programs over the session table.

 A handler reads one version of a row, possibly an old one, and from then on works from that
 snapshot: each later step calls one dependency and may store one update. Any number of handlers
 are in flight at once and their steps interleave freely. Every effect is appended to one trail,
 so "sent before marked" is a statement about positions in it.
 */
module Protocol {
  import opened Wrappers
  import opened SessionModel

  /** What a user can select at the start, or something unknown. */
  datatype Selection = UkPassport | NonUkPassport | UkPhotocardDl | EuPhotocardDl | EeaIdentityCard | Unknown

  datatype Request =
    | SelectDocument(sid: SessionId, document: Selection)
    | Authorize(sid: SessionId)
    | Redeem(code: string)
    | FirstBranchVisit(yotiSessionId: string)
    | ThankYou(yotiSessionId: string)
    | Completion(yotiSessionId: string)
    | Abort(sid: SessionId)
    | Expire(cutoff: int)   // sessions created no later than the cutoff
    | Remind(cutoff: int)

  /** Why no credential is issued, as reported to IPV Core; an error caught on the way reports its own text. */
  datatype Reason =
    | SessionNotFound | SessionNotComplete | NoDocuments | SeveralDocumentsUsed | DocumentNotMatched
    | NoDocumentFields | NoMediaId | NoMediaContent | NoNames | NoPerson | NamesMismatch
    | SigningFailed | NotSigned | WrongAuthState | ErrorText(text: string)

  /** The status of an error. */
  type ErrorStatus = s: nat | s >= 400 witness 500

  /** What a handler's environment answers at one step. */
  datatype Env = Env(
    ok: bool,                // the call made at this step succeeds
    report: Option<Reason>,  // when it does not: the reason reported to IPV Core, if any
    known: bool,             // the client assertion verifies, the document type is recognised, the failure is answered, not thrown
    status: ErrorStatus,     // status of a refusal decided outside the model
    id: string,              // a fresh identifier
    now: int)                // the clock, in seconds

  datatype AuditEvent =
    | YotiStart | AuthCodeIssuedEvent | CriEnd | DocumentUploaded | YotiResponseReceived | VcIssued | SessionAbortedEvent

  /** One accepted effect. `Stored` is an update the table accepted, the others are accepted messages. */
  datatype Event =
    | Stored(sid: SessionId, update: Update)
    | Credential(sid: SessionId)
    | CoreError(sid: SessionId, reason: Reason)
    | ExpiryNotice(sid: SessionId)
    | Audit(sid: SessionId, event: AuditEvent)
    | ReminderQueued(sid: SessionId)
    | LetterStarted(sid: SessionId, yotiSessionId: string)
    | CodeHanded(sid: SessionId, code: string)
    | TokenHanded(sid: SessionId)

  datatype Response = Reply(status: nat) | Thrown(status: nat)

  /** The point a handler has reached: the dependency it calls next. */
  datatype Stage =
    // document selection
    | CreateYotiSession | StartLetterMachine(yotiId: string) | StoreYotiId(yotiId: string)
    | ExtendSessionTtl | ExtendPersonTtl | StoreDocument | AuditYotiStart
    // authorization
    | StoreCode | AuditCode(code: string) | AuditEnd(code: string)
    // access token
    | StoreToken
    // post office callbacks
    | StoreVisit | FetchYotiSession | AuditUpload | StoreComplete
    // session completion
    | CheckYoti | AuditResponse | BuildCredential | SendCredential | AuditIssued | StoreIssued
    | ReportError(reason: Reason, reply: Response)
    // abort
    | StoreAbort | AuditAbort
    // scheduled jobs
    | SendExpiry | StoreExpired | ReadPerson | SendReminder | FlagReminder

  datatype Outcome = Continue(stage: Stage) | Finish(response: Response)

  datatype Effect = Effect(update: Option<Update>, events: seq<Event>, outcome: Outcome)

  /** The document type stored for each selectable document. */
  function DocumentTypeOf(selected: Selection): Option<DocumentType> {
    match selected
    case UkPassport => Some(PassportType)
    case NonUkPassport => Some(PassportType)
    case UkPhotocardDl => Some(DrivingLicenceType)
    case EuPhotocardDl => Some(DrivingLicenceType)
    case EeaIdentityCard => Some(NationalIdType)
    case Unknown => None
  }

  /** Which rows a request's read can return. */
  predicate Matches(req: Request, sid: SessionId, row: Row) {
    match req
    case SelectDocument(s, _) => s == sid
    case Authorize(s) => s == sid
    case Abort(s) => s == sid
    case Redeem(code) => row.authorizationCode == Some(code)
    case FirstBranchVisit(y) => row.yotiSessionId == Some(y)
    case ThankYou(y) => row.yotiSessionId == Some(y)
    case Completion(y) => row.yotiSessionId == Some(y)
    case Expire(_) => Swept(row.state)
    case Remind(_) => AwaitsVisit(row.state)
  }

  predicate IsJob(req: Request) {
    req.Expire? || req.Remind?
  }

  /** The answer when the row read is past its expiry date: the access token handler catches the error thrown. */
  function Expired(req: Request): Response {
    if req.Redeem? then Reply(401) else Thrown(401)
  }

  /** A refusal decided outside the model: some are answered, the others are thrown. */
  function Refusal(env: Env): Response {
    if env.known then Reply(env.status) else Thrown(env.status)
  }

  /** A handler's branches up to its first effect, decided on the row it has just read. */
  function Begin(req: Request, row: Row, env: Env): Outcome {
    if !IsJob(req) && row.expiryDate < env.now then Finish(Expired(req))
    else match req
      case SelectDocument(_, _) =>
        if !env.ok then Finish(Refusal(env))
        else if row.state == SessionCreated && row.yotiSessionId == None then Continue(CreateYotiSession)
        else Finish(Reply(401))
      case Authorize(_) =>
        if row.state == YotiSessionCreated then Continue(StoreCode) else Finish(Reply(401))
      case Redeem(_) =>
        if !env.ok then Finish(Reply(env.status))
        else if row.state != AuthCodeIssued then Finish(Reply(401))
        else if !env.known then Finish(Reply(env.status))
        else Continue(StoreToken)
      case FirstBranchVisit(_) => Continue(StoreVisit)
      case ThankYou(_) => if env.ok then Continue(FetchYotiSession) else Finish(Refusal(env))
      case Completion(_) => if env.ok then Continue(CheckYoti) else Finish(Reply(400))
      case Abort(_) => if row.state == CriSessionAborted then Finish(Reply(200)) else Continue(StoreAbort)
      case Expire(cutoff) =>
        if row.expiryDate > env.now && row.createdDate <= cutoff && !row.expiredNotificationSent
        then Continue(SendExpiry) else Finish(Reply(200))
      case Remind(cutoff) =>
        if row.expiryDate > env.now && row.createdDate <= cutoff && !row.reminderEmailSent
        then Continue(ReadPerson) else Finish(Reply(200))
  }

  function Skip(next: Outcome): Effect { Effect(None, [], next) }

  function Emit(event: Event, next: Outcome): Effect { Effect(None, [event], next) }

  function Store(sid: SessionId, update: Update, next: Outcome): Effect {
    Effect(Some(update), [Stored(sid, update)], next)
  }

  /** An audit event whose failure the handler logs and ignores. */
  function Log(env: Env, sid: SessionId, event: AuditEvent, next: Outcome): Effect {
    if env.ok then Emit(Audit(sid, event), next) else Skip(next)
  }

  /** One step of a handler. The row as it stands now is not an argument: handlers act on their snapshot. */
  function Act(req: Request, sid: SessionId, snap: Row, stage: Stage, env: Env): Effect {
    match stage
    case CreateYotiSession =>
      Skip(if env.ok then Continue(StartLetterMachine(env.id)) else Finish(Reply(500)))
    case StartLetterMachine(y) =>
      if env.ok then Emit(LetterStarted(sid, y), Continue(StoreYotiId(y))) else Skip(Finish(Reply(500)))
    case StoreYotiId(y) =>
      if env.ok then Store(sid, SetYotiIdAndStatus(y), Continue(ExtendSessionTtl)) else Skip(Finish(Reply(500)))
    case ExtendSessionTtl =>
      if env.ok then Store(sid, SetTtl(env.now + AUTH_SESSION_TTL_SECS), Continue(ExtendPersonTtl))
      else Skip(Finish(Reply(500)))
    case ExtendPersonTtl =>
      Skip(if env.ok then Continue(StoreDocument) else Finish(Reply(500)))
    case StoreDocument =>
      var documentType := if req.SelectDocument? then DocumentTypeOf(req.document) else None;
      if documentType == None then Skip(Finish(Thrown(500)))
      else if env.ok then Store(sid, SetDocumentUsed(documentType.value), Continue(AuditYotiStart))
      else Skip(Finish(Reply(500)))
    case AuditYotiStart => Log(env, sid, YotiStart, Finish(Reply(200)))

    case StoreCode =>
      if env.ok then Store(sid, SetAuthorizationCode(env.id), Continue(AuditCode(env.id)))
      else Skip(Finish(Thrown(500)))
    case AuditCode(code) => Log(env, sid, AuthCodeIssuedEvent, Continue(AuditEnd(code)))
    case AuditEnd(code) =>
      Effect(None, (if env.ok then [Audit(sid, CriEnd)] else []) + [CodeHanded(sid, code)], Finish(Reply(200)))

    case StoreToken =>
      if env.ok then
        var update := SetAccessTokenDetails(env.now + TOKEN_EXPIRY_SECONDS);
        Effect(Some(update), [Stored(sid, update), TokenHanded(sid)], Finish(Reply(200)))
      else Skip(Finish(Reply(500)))

    case StoreVisit =>
      if env.ok then Store(sid, SetAuthState(PostOfficeVisited), Finish(Reply(200))) else Skip(Finish(Thrown(500)))
    case FetchYotiSession =>
      Skip(if env.ok then Continue(AuditUpload) else Finish(Thrown(500)))
    case AuditUpload =>
      if env.ok then Emit(Audit(sid, DocumentUploaded), Continue(StoreComplete)) else Skip(Finish(Thrown(500)))
    case StoreComplete =>
      if env.ok then Store(sid, SetAuthState(YotiSessionComplete), Finish(Reply(200)))
      else Skip(Finish(Thrown(500)))

    case CheckYoti =>
      if !env.ok then
        Skip(if env.report.Some? then Continue(ReportError(env.report.value, Thrown(500))) else Finish(Thrown(500)))
      else if snap.state == YotiSessionComplete then Skip(Continue(AuditResponse))
      else Skip(Continue(ReportError(WrongAuthState, Reply(401))))
    case AuditResponse => Log(env, sid, YotiResponseReceived, Continue(BuildCredential))
    case BuildCredential =>
      Skip(if env.ok then Continue(SendCredential)
           else if env.report.Some? then
             Continue(ReportError(env.report.value, Refusal(env)))
           else Finish(Thrown(env.status)))
    case SendCredential =>
      if env.ok then Emit(Credential(sid), Continue(AuditIssued)) else Skip(Finish(Thrown(500)))
    case AuditIssued =>
      if !env.known then Skip(Finish(Thrown(500))) else Log(env, sid, VcIssued, Continue(StoreIssued))
    case StoreIssued =>
      if env.ok then Store(sid, SetAuthState(CredentialIssued), Finish(Reply(200))) else Skip(Finish(Thrown(500)))
    case ReportError(reason, reply) =>
      if env.ok then Emit(CoreError(sid, reason), Finish(reply)) else Skip(Finish(reply))

    case StoreAbort =>
      if env.ok then Store(sid, SetAuthState(CriSessionAborted), Continue(AuditAbort)) else Skip(Finish(Reply(500)))
    case AuditAbort => Log(env, sid, SessionAbortedEvent, Finish(Reply(200)))

    case SendExpiry =>
      if env.ok then Emit(ExpiryNotice(sid), Continue(StoreExpired)) else Skip(Continue(StoreExpired))
    case StoreExpired =>
      if env.ok then Store(sid, MarkAsExpired, Finish(Reply(200))) else Skip(Finish(Reply(200)))
    case ReadPerson =>
      Skip(if env.ok then Continue(SendReminder) else Finish(if env.known then Reply(200) else Reply(500)))
    case SendReminder =>
      if env.ok then Emit(ReminderQueued(sid), Continue(FlagReminder)) else Skip(Finish(Reply(200)))
    case FlagReminder =>
      if env.ok then Store(sid, SetReminderFlag, Finish(Reply(200))) else Skip(Finish(Reply(200)))
  }

  /** A handler in flight: it read version `seen` of the row, which was `snap`. */
  datatype Flight = Flight(req: Request, sid: SessionId, seen: nat, snap: Row, stage: Stage)

  /** All versions every row has had, the handlers in flight by ticket, and the trail of effects. */
  datatype World = World(history: map<SessionId, seq<Row>>, flights: map<nat, Flight>, trail: seq<Event>)

  const EmptyWorld := World(map[], map[], [])

  datatype Action =
    | Create(sid: SessionId, now: int)
    | Start(ticket: nat, req: Request, sid: SessionId, version: nat, env: Env)
    | Advance(ticket: nat, env: Env)

  predicate Enabled(w: World, a: Action) {
    match a
    case Create(sid, _) => sid !in w.history
    case Start(t, req, sid, v, _) =>
      t !in w.flights && sid in w.history && v < |w.history[sid]| && Matches(req, sid, w.history[sid][v])
    case Advance(t, _) => t in w.flights && w.flights[t].sid in w.history && w.history[w.flights[t].sid] != []
  }

  function Last(rows: seq<Row>): Row
    requires rows != []
  {
    rows[|rows| - 1]
  }

  function EffectOf(f: Flight, env: Env): Effect {
    Act(f.req, f.sid, f.snap, f.stage, env)
  }

  /** The whole step relation: a handler's update lands on whatever row is stored by then. */
  function Next(w: World, a: Action): World
    requires Enabled(w, a)
  {
    match a
    case Create(sid, now) => w.(history := w.history[sid := [NewRow(now)]])
    case Start(t, req, sid, v, env) =>
      (match Begin(req, w.history[sid][v], env)
       case Continue(stage) => w.(flights := w.flights[t := Flight(req, sid, v, w.history[sid][v], stage)])
       case Finish(_) => w)
    case Advance(t, env) =>
      var f := w.flights[t];
      var e := EffectOf(f, env);
      World(
        if e.update.Some?
        then w.history[f.sid := w.history[f.sid] + [Apply(e.update.value, Last(w.history[f.sid]))]]
        else w.history,
        if e.outcome.Continue? then w.flights[t := f.(stage := e.outcome.stage)] else w.flights - {t},
        w.trail + e.events)
  }

  ghost predicate IsRun(w: World, acts: seq<Action>)
    decreases |acts|
  {
    acts == [] || (Enabled(w, acts[0]) && IsRun(Next(w, acts[0]), acts[1..]))
  }

  ghost function After(w: World, acts: seq<Action>): World
    requires IsRun(w, acts)
    decreases |acts|
  {
    if acts == [] then w else After(Next(w, acts[0]), acts[1..])
  }

  lemma {:induction false} RunSnoc(w: World, acts: seq<Action>, a: Action)
    requires IsRun(w, acts) && Enabled(After(w, acts), a)
    ensures IsRun(w, acts + [a]) && After(w, acts + [a]) == Next(After(w, acts), a)
    decreases |acts|
  {
    if acts == [] {
      assert [a][1..] == [];
      assert acts + [a] == [a];
    } else {
      assert (acts + [a])[1..] == acts[1..] + [a];
      RunSnoc(Next(w, acts[0]), acts[1..], a);
    }
  }

  lemma {:induction false} RunConcat(w: World, a: seq<Action>, b: seq<Action>)
    requires IsRun(w, a) && IsRun(After(w, a), b)
    ensures IsRun(w, a + b) && After(w, a + b) == After(After(w, a), b)
    decreases |a|
  {
    if a == [] {
      assert a + b == b;
    } else {
      assert (a + b)[1..] == a[1..] + b;
      RunConcat(Next(w, a[0]), a[1..], b);
    }
  }
}
