/**
 The session completion callback on its payload: every guard it applies, in order, before it issues a
 credential. Each failing guard stops the callback, most of them after a report to IPV Core. The callback
 is proved to be an instance of the completion handler of the protocol, and to send one message at most.
 */
module Completion {
  import opened Wrappers
  import opened Text
  import opened SessionModel
  import opened Protocol
  import opened HandlerSpec
  import opened Handlers
  import Evidence
  import Names

  /** The fields of a document: not given, given without a media object, or with one, which may lack its identifier. */
  datatype Fields = NoFields | NoMediaObject | Media(id: Option<string>)

  datatype IdDocument = IdDocument(id: string, documentFields: Fields, documentType: string, issuingCountry: string)

  datatype CompletedCheck = CompletedCheck(check: Evidence.Check, resourcesUsed: seq<string>)

  datatype CompletedSession = CompletedSession(state: string, idDocuments: seq<IdDocument>, checks: seq<CompletedCheck>)

  datatype MediaContent = MediaContent(givenNames: Option<string>, familyName: Option<string>, fullName: Option<string>,
                                       documentType: string, fields: Evidence.DocumentFields)

  datatype Fetched<T> = Throws | Nothing | Got(value: T)

  datatype NamesHeld = NamesHeld(givenNames: seq<string>, familyNames: seq<string>)

  datatype Signing = Signed | AppErrorThrown | Unsigned

  /** The callback, and what its dependencies answer. */
  datatype Callback = Callback(
    configured: bool,
    yotiSessionId: Option<string>,
    lookedUp: bool,
    now: int,
    clientKnown: bool,
    session: Fetched<CompletedSession>,
    media: Fetched<MediaContent>,
    person: Fetched<NamesHeld>,
    typeErrorText: string,
    euCountries: map<string, string>,
    signing: Signing,
    reportOk: bool,
    responseEventOk: bool,
    credentialOk: bool,
    issuedEventOk: bool,
    updateOk: bool)

  type Refused = r: Response | r.status >= 400 witness Thrown(500)

  /** Why the callback stops: the report it tries to send, if any, and its answer. */
  datatype Stop = Stop(report: Option<Reason>, response: Refused)

  function Reported(reason: Reason): Stop { Stop(Some(reason), Thrown(500)) }

  const UNREPORTED := Stop(None, Thrown(500))

  // ---------- the completed session ----------

  function AuthenticityCheck(checks: seq<CompletedCheck>): Option<CompletedCheck> {
    if checks == [] then None
    else if checks[0].check.kind == Evidence.AUTHENTICITY then Some(checks[0])
    else AuthenticityCheck(checks[1..])
  }

  /** The documents the authenticity check used, by the identifier it names first. */
  function Used(s: CompletedSession): seq<IdDocument> {
    var c := AuthenticityCheck(s.checks);
    if c.None? || c.value.resourcesUsed == [] then [] else WithId(s.idDocuments, c.value.resourcesUsed[0])
  }

  function WithId(documents: seq<IdDocument>, id: string): seq<IdDocument> {
    if documents == [] then []
    else (if documents[0].id == id then [documents[0]] else []) + WithId(documents[1..], id)
  }

  predicate OneResource(s: CompletedSession) {
    AuthenticityCheck(s.checks).Some? ==> |AuthenticityCheck(s.checks).value.resourcesUsed| <= 1
  }

  predicate MediaNamed(s: CompletedSession) {
    Used(s) != [] && Used(s)[0].documentFields.Media? && Used(s)[0].documentFields.id.Some?
    && Used(s)[0].documentFields.id.value != ""
  }

  function NoSession(): CompletedSession { CompletedSession("", [], []) }

  function SessionOf(x: Callback): CompletedSession { if x.session.Got? then x.session.value else NoSession() }

  /** The first guard that fails before the session's own state is looked at. */
  function YotiStop(x: Callback): Option<Stop> {
    var s := SessionOf(x);
    if x.session.Throws? then Some(UNREPORTED)
    else if !x.session.Got? then Some(Reported(SessionNotFound))
    else if s.state != "COMPLETED" then Some(Reported(SessionNotComplete))
    else if s.idDocuments == [] then Some(Reported(NoDocuments))
    else if !OneResource(s) then Some(Reported(SeveralDocumentsUsed))
    else if Used(s) == [] then Some(Reported(DocumentNotMatched))
    else if Used(s)[0].documentFields.NoFields? then Some(Reported(NoDocumentFields))
    else if Used(s)[0].documentFields.NoMediaObject? then Some(UNREPORTED)
    else MediaStop(x)
  }

  /** ... the first on the media content of the document used. */
  function MediaStop(x: Callback): Option<Stop> {
    if !MediaNamed(SessionOf(x)) then Some(Reported(NoMediaId))
    else if x.media.Throws? then Some(UNREPORTED)
    else if !x.media.Got? then Some(Reported(NoMediaContent))
    else None
  }

  method CheckYotiSession(x: Callback) returns (stop: Option<Stop>)
    ensures stop == YotiStop(x)
    ensures stop.None? ==> x.media.Got? && SessionOf(x).idDocuments != []
  {
    if x.session.Throws? {
      return Some(UNREPORTED);
    }
    if x.session.Nothing? {
      return Some(Reported(SessionNotFound));
    }
    var completed := x.session.value;
    if completed.state != "COMPLETED" {
      return Some(Reported(SessionNotComplete));
    }
    if |completed.idDocuments| < 1 {
      return Some(Reported(NoDocuments));
    }
    var check := AuthenticityCheck(completed.checks);
    if check.Some? && |check.value.resourcesUsed| > 1 {
      return Some(Reported(SeveralDocumentsUsed));
    }
    var used := Used(completed);
    if |used| < 1 {
      return Some(Reported(DocumentNotMatched));
    }
    if used[0].documentFields.NoFields? {
      return Some(Reported(NoDocumentFields));
    }
    if used[0].documentFields.NoMediaObject? {
      return Some(UNREPORTED);
    }
    var mediaId := used[0].documentFields.id;
    if mediaId.None? || mediaId.value == "" {
      return Some(Reported(NoMediaId));
    }
    if x.media.Throws? {
      return Some(UNREPORTED);
    }
    if x.media.Nothing? {
      return Some(Reported(NoMediaContent));
    }
    return None;
  }

  // ---------- the credential ----------

  predicate Missing(field: Option<string>) {
    field.None? || Trim(field.value) == ""
  }

  const NO_MEDIA := MediaContent(None, None, None, "", Evidence.DocumentFields("", None, None, None, None, None, None, None))

  function MediaOf(x: Callback): MediaContent { if x.media.Got? then x.media.value else NO_MEDIA }

  /** The stored names are needed: the document does not give both kinds. */
  predicate NeedsStoredNames(m: MediaContent) {
    Missing(m.givenNames) || Missing(m.familyName)
  }

  /** What goes wrong when the document's full name is split by the stored names. */
  function SplittingError(x: Callback): Option<Reason> {
    if !x.person.Got? then None
    else if MediaOf(x).fullName.None? then Some(ErrorText(x.typeErrorText))
    else
      match Names.NamesFromPersonIdentity(MediaOf(x).fullName.value, x.person.value.givenNames, x.person.value.familyNames)
      case Ok(_) => None
      case Err(Mismatch) => Some(NamesMismatch)
      case Err(NoWord) => Some(ErrorText(x.typeErrorText))
  }

  function PlainChecks(checks: seq<CompletedCheck>): seq<Evidence.Check> {
    seq(|checks|, i requires 0 <= i < |checks| => checks[i].check)
  }

  const NO_DOCUMENT := IdDocument("", NoFields, "", "")

  /** The first document listed, whichever was used. */
  function FirstDocument(x: Callback): IdDocument {
    if SessionOf(x).idDocuments == [] then NO_DOCUMENT else SessionOf(x).idDocuments[0]
  }

  ghost function EvidenceObstacle(x: Callback): Option<Evidence.Failure> {
    Evidence.Obstacle(PlainChecks(SessionOf(x).checks), FirstDocument(x).documentType, FirstDocument(x).issuingCountry,
                      MediaOf(x).fields, x.euCountries)
  }

  function EvidenceStatus(e: Evidence.Failure): ErrorStatus {
    if e == Evidence.MissingCheck || e == Evidence.NotCompleted then 400 else 500
  }

  /** The first guard on the names that fails. */
  function NamesStop(x: Callback): Option<Stop> {
    var m := MediaOf(x);
    if Missing(m.givenNames) && Missing(m.familyName) && Missing(m.fullName) then Some(Reported(NoNames))
    else if !NeedsStoredNames(m) then None
    else if x.person.Throws? then Some(UNREPORTED)
    else if !x.person.Got? then Some(Stop(Some(NoPerson), Thrown(400)))
    else if SplittingError(x).Some? then Some(Reported(SplittingError(x).value))
    else None
  }

  /** The first guard that fails between the session's own state and the sending of the credential. */
  ghost function CredentialStop(x: Callback): Option<Stop> {
    if NamesStop(x).Some? then NamesStop(x)
    else if EvidenceObstacle(x).Some? then Some(Stop(None, Thrown(EvidenceStatus(EvidenceObstacle(x).value))))
    else if x.signing.AppErrorThrown? then Some(Stop(Some(SigningFailed), Reply(500)))
    else if x.signing.Unsigned? then Some(Reported(NotSigned))
    else None
  }

  /** The names of the credential, from the document or from those stored. */
  method CheckNames(x: Callback) returns (stop: Option<Stop>)
    ensures stop == NamesStop(x)
  {
    var m := MediaOf(x);
    var missingGivenName := Missing(m.givenNames);
    var missingFamilyName := Missing(m.familyName);
    if missingGivenName && missingFamilyName && Missing(m.fullName) {
      return Some(Reported(NoNames));
    }
    if missingGivenName || missingFamilyName {
      if x.person.Throws? {
          return Some(UNREPORTED);
      }
      if x.person.Nothing? {
          return Some(Stop(Some(NoPerson), Thrown(400)));
      }
      var error := SplittingError(x);
      if error.Some? {
          return Some(Reported(error.value));
      }
    }
    return None;
  }

  method CheckCredential(x: Callback) returns (stop: Option<Stop>)
    ensures stop == CredentialStop(x)
  {
    stop := CheckNames(x);
    if stop.Some? {
      return;
    }
    var credential := Evidence.GetVerifiedCredentialInformation(
      PlainChecks(SessionOf(x).checks), FirstDocument(x).documentType, FirstDocument(x).issuingCountry,
      MediaOf(x).fields, x.euCountries);
    if credential.Err? {
      return Some(Stop(None, Thrown(EvidenceStatus(credential.error))));
    }
    if x.signing.AppErrorThrown? {
      return Some(Stop(Some(SigningFailed), Reply(500)));
    }
    if x.signing.Unsigned? {
      return Some(Reported(NotSigned));
    }
  }

  // ---------- the callback ----------

  predicate KnownDocumentType(documentType: string) {
    documentType in ["PASSPORT", "DRIVING_LICENCE", "NATIONAL_ID"]
  }

  function Push(st: Store, event: Event, ok: bool): Store {
    if ok then st.(trail := st.trail + [event]) else st
  }

  function Stopped(st: Store, sid: SessionId, stop: Stop, reportOk: bool): (Store, Response) {
    (if stop.report.Some? then Push(st, CoreError(sid, stop.report.value), reportOk) else st, stop.response)
  }

  /** After the credential is accepted. */
  function Recorded(st: Store, sid: SessionId, x: Callback): (Store, Response)
    requires sid in st.table
  {
    if !KnownDocumentType(MediaOf(x).documentType) then (st, Thrown(500))
    else
      var audited := Push(st, Audit(sid, VcIssued), x.issuedEventOk);
      var update := SetAuthState(CredentialIssued);
      if x.updateOk
      then (Push(audited.(table := st.table[sid := Apply(update, st.table[sid])]), Stored(sid, update), true), Reply(200))
      else (audited, Thrown(500))
  }

  /** After the session's own state is found right. */
  ghost function Issued(st: Store, sid: SessionId, x: Callback): (Store, Response)
    requires sid in st.table
  {
    if CredentialStop(x).Some? then Stopped(st, sid, CredentialStop(x).value, x.reportOk)
    else if !x.credentialOk then (st, Thrown(500))
    else Recorded(Push(st, Credential(sid), true), sid, x)
  }

  /** The whole callback on the session it finds. */
  ghost function Completed(st: Store, sid: SessionId, x: Callback): (Store, Response)
    requires sid in st.table
  {
    if st.table[sid].expiryDate < x.now then (st, Thrown(401))
    else if !x.clientKnown then (st, Reply(400))
    else if YotiStop(x).Some? then Stopped(st, sid, YotiStop(x).value, x.reportOk)
    else if st.table[sid].state != YotiSessionComplete then
      Stopped(st, sid, Stop(Some(WrongAuthState), Reply(401)), x.reportOk)
    else Issued(Push(st, Audit(sid, YotiResponseReceived), x.responseEventOk), sid, x)
  }

  /** The callback gets as far as looking for its session, and the query works. */
  predicate Looks(x: Callback) {
    x.configured && x.yotiSessionId.Some? && x.lookedUp
  }

  class YotiSessionCompletionProcessor {
    const service: F2fService

    constructor (service: F2fService)
      ensures this.service == service
    {
      this.service := service;
    }

    method ProcessRequest(x: Callback) returns (response: Response)
      modifies service
      ensures !Looks(x) ==> service.View() == old(service.View()) && response == Thrown(500)
      ensures Looks(x) ==>
        var req := Protocol.Completion(x.yotiSessionId.value);
        && (forall sid | Found(old(service.table), req, sid) ::
              (service.View(), response) == Completed(old(service.View()), sid, x))
        && ((forall sid :: !Found(old(service.table), req, sid)) ==>
              service.View() == old(service.View()) && response == NotFound(req))
    {
      if !x.configured {
        return Thrown(500);
      }
      if x.yotiSessionId.None? {
        return Thrown(500);
      }
      if !x.lookedUp {
        return Thrown(500);
      }
      var found := service.Find(Protocol.Completion(x.yotiSessionId.value));
      if found.None? {
        return Thrown(500);
      }
      var sid := found.value;
      var session := service.table[sid];
      if session.expiryDate < x.now {
        return Thrown(401);
      }
      if !x.clientKnown {
        return Reply(400);
      }
      var stop := CheckYotiSession(x);
      if stop.Some? {
        response := StopWith(stop.value, sid, x.reportOk);
      } else if session.state == YotiSessionComplete {
        var _ := service.Send(Audit(sid, YotiResponseReceived), Plain(x.responseEventOk));
        response := Issue(x, sid);
      } else {
        response := StopWith(Stop(Some(WrongAuthState), Reply(401)), sid, x.reportOk);
      }
    }

    /** Reports to IPV Core, if there is something to report; a report that cannot be sent changes nothing. */
    method StopWith(stop: Stop, sid: SessionId, reportOk: bool) returns (response: Response)
      modifies service
      ensures (service.View(), response) == Stopped(old(service.View()), sid, stop, reportOk)
    {
      if stop.report.Some? {
        var _ := service.Send(CoreError(sid, stop.report.value), Plain(reportOk));
      }
      return stop.response;
    }

    method Issue(x: Callback, sid: SessionId) returns (response: Response)
      requires sid in service.table
      modifies service
      ensures (service.View(), response) == Issued(old(service.View()), sid, x)
    {
      var stop := CheckCredential(x);
      if stop.Some? {
        response := StopWith(stop.value, sid, x.reportOk);
        return;
      }
      var sent := service.Send(Credential(sid), Plain(x.credentialOk));
      if !sent {
        return Thrown(500);
      }
      response := Record(x, sid);
    }

    method Record(x: Callback, sid: SessionId) returns (response: Response)
      requires sid in service.table
      modifies service
      ensures (service.View(), response) == Recorded(old(service.View()), sid, x)
    {
      if !KnownDocumentType(MediaOf(x).documentType) {
        return Thrown(500);
      }
      var _ := service.Send(Audit(sid, VcIssued), Plain(x.issuedEventOk));
      var stored := service.Update(sid, SetAuthState(CredentialIssued), Plain(x.updateOk));
      return if stored then Reply(200) else Thrown(500);
    }
  }

  function Plain(ok: bool): Env { Env(ok, None, false, 500, "", 0) }
}
