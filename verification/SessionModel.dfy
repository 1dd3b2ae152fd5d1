/**
 The session row, and the update commands the service can send to the session table.
 Every update is unconditional: what it writes does not depend on the stored row.
 */
module SessionModel {
  import opened Wrappers

  type SessionId = string

  datatype AuthSessionState =
    | SessionCreated
    | YotiSessionCreated
    | AuthCodeIssued
    | AccessTokenIssued
    | PostOfficeVisited
    | YotiSessionComplete
    | CredentialIssued
    | SessionAborted
    | CriSessionAborted
    | SessionExpired

  datatype DocumentType = PassportType | DrivingLicenceType | NationalIdType

  /** The fields of a session item that some handler branches on or writes. Dates are in seconds. */
  datatype Row = Row(
    state: AuthSessionState,
    yotiSessionId: Option<string>,
    authorizationCode: Option<string>,
    accessTokenExpiryDate: Option<int>,
    createdDate: int,
    expiryDate: int,
    expiredNotificationSent: bool,
    reminderEmailSent: bool,
    documentUsed: Option<DocumentType>)

  datatype Update =
    | SetAuthorizationCode(code: string)
    | SetYotiIdAndStatus(yotiSessionId: string)
    | SetAccessTokenDetails(expiry: int)
    | SetAuthState(state: AuthSessionState)
    | MarkAsExpired
    | SetReminderFlag
    | SetTtl(expiryDate: int)
    | SetDocumentUsed(documentType: DocumentType)

  const TOKEN_EXPIRY_SECONDS := 3600
  const SECONDS_PER_DAY := 24 * 60 * 60
  /** The session lifetime every deployed environment configures: 21 days. */
  const AUTH_SESSION_TTL_SECS := 1814400

  function NewRow(now: int): Row {
    Row(SessionCreated, None, None, None, now, now + AUTH_SESSION_TTL_SECS, false, false, None)
  }

  function Apply(u: Update, r: Row): Row {
    match u
    case SetAuthorizationCode(code) => r.(authorizationCode := Some(code), state := AuthCodeIssued)
    case SetYotiIdAndStatus(id) => r.(yotiSessionId := Some(id), state := YotiSessionCreated)
    case SetAccessTokenDetails(expiry) =>
      r.(state := AccessTokenIssued, accessTokenExpiryDate := Some(expiry), authorizationCode := None)
    case SetAuthState(state) => r.(state := state)
    case MarkAsExpired => r.(expiredNotificationSent := true, state := SessionExpired)
    case SetReminderFlag => r.(reminderEmailSent := true)
    case SetTtl(expiryDate) => r.(expiryDate := expiryDate)
    case SetDocumentUsed(documentType) => r.(documentUsed := Some(documentType))
  }

  /** What a reader of the table may rely on in every row, whatever happened to it. */
  ghost predicate RowOk(r: Row) {
    && (r.state != SessionCreated && r.state != CriSessionAborted ==> r.yotiSessionId.Some?)
    && (r.state == SessionCreated ==> r.yotiSessionId == None)
    && (r.state == AuthCodeIssued ==> r.authorizationCode.Some?)
    && (r.state == AccessTokenIssued ==> r.authorizationCode == None && r.accessTokenExpiryDate.Some?)
    && (r.state == SessionExpired ==> r.expiredNotificationSent)
    && r.state != SessionAborted
  }

  /** The facts about a row that never turn back once true: `later` is a later version of `earlier`. */
  ghost predicate Evolves(earlier: Row, later: Row) {
    && (earlier.yotiSessionId.Some? ==> later.yotiSessionId.Some?)
    && (earlier.expiredNotificationSent ==> later.expiredNotificationSent)
    && (earlier.reminderEmailSent ==> later.reminderEmailSent)
    && (earlier.state != SessionCreated ==> later.state != SessionCreated)
    && earlier.createdDate == later.createdDate
  }

  /** How far the OAuth half of a session has got. All states past the access token share the top rank. */
  function Rank(s: AuthSessionState): nat {
    match s
    case SessionCreated => 0
    case YotiSessionCreated => 1
    case AuthCodeIssued => 2
    case AccessTokenIssued => 3
    case _ => 4
  }

  predicate AwaitsVisit(s: AuthSessionState) {
    s in {YotiSessionCreated, AuthCodeIssued, AccessTokenIssued}
  }

  /** The four states the expiry job queries. */
  predicate Swept(s: AuthSessionState) {
    AwaitsVisit(s) || s == PostOfficeVisited
  }

  /** What a scheduled job sends to the sessions it selects. */
  datatype Mailing = ExpiryMail | ReminderMail

  /** The states the job queries. */
  predicate Queries(m: Mailing, s: AuthSessionState) {
    if m.ExpiryMail? then Swept(s) else AwaitsVisit(s)
  }

  /** The flag in the row that says the job has been there. */
  predicate Flag(m: Mailing, r: Row) {
    if m.ExpiryMail? then r.expiredNotificationSent else r.reminderEmailSent
  }
}
