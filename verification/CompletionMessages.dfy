/**
 What the completion callback promises. For every payload and every answer of its dependencies it stops at the
 first of its twenty-one guards that is broken, with the report and the answer of that guard; it puts one message
 at most on the IPV Core queue, and the credential only when every guard holds. And it is an instance of the
 completion handler of the protocol, so all the protocol promises holds of it.
 */
module CompletionMessages {
  import opened Wrappers
  import opened SessionModel
  import opened Protocol
  import opened HandlerSpec
  import opened Completion
  import HandlerEpisode

  /** What must hold before a credential is sent, in the order in which it is looked at. */
  datatype Guard =
    | NotExpired | ClientKnown
    | SessionFetched | SessionFound | SessionComplete | HasDocuments | OneDocumentUsed | UsedDocumentListed
    | FieldsGiven | MediaObjectGiven | MediaNamedByFields | MediaFetched | MediaFound
    | CredentialAwaited
    | NamesGiven | PersonFetched | PersonFound | NamesFit
    | EvidenceComplete | NoSigningError | CredentialSigned

  function Position(g: Guard): nat {
    match g
    case NotExpired => 0
    case ClientKnown => 1
    case SessionFetched => 2
    case SessionFound => 3
    case SessionComplete => 4
    case HasDocuments => 5
    case OneDocumentUsed => 6
    case UsedDocumentListed => 7
    case FieldsGiven => 8
    case MediaObjectGiven => 9
    case MediaNamedByFields => 10
    case MediaFetched => 11
    case MediaFound => 12
    case CredentialAwaited => 13
    case NamesGiven => 14
    case PersonFetched => 15
    case PersonFound => 16
    case NamesFit => 17
    case EvidenceComplete => 18
    case NoSigningError => 19
    case CredentialSigned => 20
  }

  /** The document with this identifier was used by the first authenticity check. */
  predicate UsedFirst(s: CompletedSession, d: IdDocument) {
    var c := AuthenticityCheck(s.checks);
    d in s.idDocuments && c.Some? && c.value.resourcesUsed != [] && c.value.resourcesUsed[0] == d.id
  }

  /** What each guard asks, of the row found and of what the dependencies answer. */
  ghost predicate Holds(g: Guard, row: Row, x: Callback) {
    var s, m := SessionOf(x), MediaOf(x);
    match g
    case NotExpired => x.now <= row.expiryDate
    case ClientKnown => x.clientKnown
    case SessionFetched => !x.session.Throws?
    case SessionFound => x.session.Got?
    case SessionComplete => s.state == "COMPLETED"
    case HasDocuments => s.idDocuments != []
    case OneDocumentUsed =>
      AuthenticityCheck(s.checks).Some? ==> |AuthenticityCheck(s.checks).value.resourcesUsed| <= 1
    case UsedDocumentListed => exists d :: UsedFirst(s, d)
    case FieldsGiven => Used(s) != [] && !Used(s)[0].documentFields.NoFields?
    case MediaObjectGiven => Used(s) != [] && !Used(s)[0].documentFields.NoMediaObject?
    case MediaNamedByFields =>
      && Used(s) != [] && Used(s)[0].documentFields.Media? && Used(s)[0].documentFields.id.Some?
      && Used(s)[0].documentFields.id.value != ""
    case MediaFetched => !x.media.Throws?
    case MediaFound => x.media.Got?
    case CredentialAwaited => row.state == YotiSessionComplete
    case NamesGiven => !Missing(m.givenNames) || !Missing(m.familyName) || !Missing(m.fullName)
    case PersonFetched => Missing(m.givenNames) || Missing(m.familyName) ==> !x.person.Throws?
    case PersonFound => Missing(m.givenNames) || Missing(m.familyName) ==> x.person.Got?
    case NamesFit => Missing(m.givenNames) || Missing(m.familyName) ==> SplittingError(x).None?
    case EvidenceComplete => EvidenceObstacle(x).None?
    case NoSigningError => !x.signing.AppErrorThrown?
    case CredentialSigned => x.signing.Signed?
  }

  /** The guard is broken, and none before it is. */
  ghost predicate FirstBroken(g: Guard, row: Row, x: Callback) {
    !Holds(g, row, x) && forall h | Position(h) < Position(g) :: Holds(h, row, x)
  }

  /** What a broken guard is reported as, and answered with. */
  ghost function Consequence(g: Guard, x: Callback): Stop {
    match g
    case NotExpired => Stop(None, Thrown(401))
    case ClientKnown => Stop(None, Reply(400))
    case SessionFetched => Stop(None, Thrown(500))
    case SessionFound => Stop(Some(SessionNotFound), Thrown(500))
    case SessionComplete => Stop(Some(SessionNotComplete), Thrown(500))
    case HasDocuments => Stop(Some(NoDocuments), Thrown(500))
    case OneDocumentUsed => Stop(Some(SeveralDocumentsUsed), Thrown(500))
    case UsedDocumentListed => Stop(Some(DocumentNotMatched), Thrown(500))
    case FieldsGiven => Stop(Some(NoDocumentFields), Thrown(500))
    case MediaObjectGiven => Stop(None, Thrown(500))
    case MediaNamedByFields => Stop(Some(NoMediaId), Thrown(500))
    case MediaFetched => Stop(None, Thrown(500))
    case MediaFound => Stop(Some(NoMediaContent), Thrown(500))
    case CredentialAwaited => Stop(Some(WrongAuthState), Reply(401))
    case NamesGiven => Stop(Some(NoNames), Thrown(500))
    case PersonFetched => Stop(None, Thrown(500))
    case PersonFound => Stop(Some(NoPerson), Thrown(400))
    case NamesFit => Stop(SplittingError(x), Thrown(500))
    case EvidenceComplete =>
      Stop(None, Thrown(if EvidenceObstacle(x) in {Some(Evidence.MissingCheck), Some(Evidence.NotCompleted)} then 400 else 500))
    case NoSigningError => Stop(Some(SigningFailed), Reply(500))
    case CredentialSigned => Stop(Some(NotSigned), Thrown(500))
  }

  ghost predicate AllPass(row: Row, x: Callback) {
    forall g :: Holds(g, row, x)
  }

  lemma {:induction false} WithIdOnly(documents: seq<IdDocument>, id: string)
    ensures WithId(documents, id) != [] <==> exists d :: d in documents && d.id == id
  {
    if documents != [] {
      WithIdOnly(documents[1..], id);
      if d :| d in documents && d.id == id { assert d == documents[0] || d in documents[1..]; }
      if WithId(documents[1..], id) != [] {
        var d :| d in documents[1..] && d.id == id;
        assert d in documents;
      } else if documents[0].id == id {
        assert documents[0] in documents;
      }
    }
  }

  lemma UsedIsListed(s: CompletedSession)
    ensures Used(s) != [] <==> exists d :: UsedFirst(s, d)
  {
    var c := AuthenticityCheck(s.checks);
    if c.Some? && c.value.resourcesUsed != [] {
      WithIdOnly(s.idDocuments, c.value.resourcesUsed[0]);
      if d :| d in s.idDocuments && d.id == c.value.resourcesUsed[0] { assert UsedFirst(s, d); }
    }
  }

  /** The stop that ends the callback before its credential, on the row it finds; none when every guard holds. */
  ghost function StopOf(row: Row, x: Callback): Option<Stop> {
    if row.expiryDate < x.now then Some(Stop(None, Thrown(401)))
    else if !x.clientKnown then Some(Stop(None, Reply(400)))
    else if YotiStop(x).Some? then YotiStop(x)
    else if row.state != YotiSessionComplete then Some(Stop(Some(WrongAuthState), Reply(401)))
    else CredentialStop(x)
  }

  ghost predicate HoldUpTo(k: nat, row: Row, x: Callback) {
    forall g | Position(g) < k :: Holds(g, row, x)
  }

  lemma EntryHolds(k: nat, row: Row, x: Callback)
    requires HoldUpTo(k, row, x)
    ensures k > 0 ==> Holds(NotExpired, row, x)
    ensures k > 1 ==> Holds(ClientKnown, row, x)
    ensures k > 2 ==> Holds(SessionFetched, row, x)
    ensures k > 3 ==> Holds(SessionFound, row, x)
    ensures k > 4 ==> Holds(SessionComplete, row, x)
    ensures k > 5 ==> Holds(HasDocuments, row, x)
  {
  }

  lemma DocumentHolds(k: nat, row: Row, x: Callback)
    requires HoldUpTo(k, row, x)
    ensures k > 6 ==> Holds(OneDocumentUsed, row, x)
    ensures k > 7 ==> Holds(UsedDocumentListed, row, x)
    ensures k > 8 ==> Holds(FieldsGiven, row, x)
    ensures k > 9 ==> Holds(MediaObjectGiven, row, x)
  {
  }

  lemma MediaHolds(k: nat, row: Row, x: Callback)
    requires HoldUpTo(k, row, x)
    ensures k > 10 ==> Holds(MediaNamedByFields, row, x)
    ensures k > 11 ==> Holds(MediaFetched, row, x)
    ensures k > 12 ==> Holds(MediaFound, row, x)
  {
  }

  lemma NamesHold(k: nat, row: Row, x: Callback)
    requires HoldUpTo(k, row, x)
    ensures k > 13 ==> Holds(CredentialAwaited, row, x)
    ensures k > 14 ==> Holds(NamesGiven, row, x)
    ensures k > 15 ==> Holds(PersonFetched, row, x)
    ensures k > 16 ==> Holds(PersonFound, row, x)
    ensures k > 17 ==> Holds(NamesFit, row, x)
  {
  }

  lemma SignatureHolds(k: nat, row: Row, x: Callback)
    requires HoldUpTo(k, row, x)
    ensures k > 18 ==> Holds(EvidenceComplete, row, x)
    ensures k > 19 ==> Holds(NoSigningError, row, x)
    ensures k > 20 ==> Holds(CredentialSigned, row, x)
  {
  }

  /** The checks on the completed session stop at the first of its guards that is broken. */
  lemma SessionBroken(g: Guard, row: Row, x: Callback)
    requires FirstBroken(g, row, x) && 2 <= Position(g) <= 5
    ensures YotiStop(x) == Some(Consequence(g, x))
  {
    EntryHolds(Position(g), row, x);
  }

  lemma DocumentBroken(g: Guard, row: Row, x: Callback)
    requires FirstBroken(g, row, x) && 6 <= Position(g) <= 7
    ensures YotiStop(x) == Some(Consequence(g, x))
  {
    EntryHolds(6, row, x);
    DocumentHolds(Position(g), row, x);
    UsedIsListed(SessionOf(x));
  }

  lemma FieldsBroken(g: Guard, row: Row, x: Callback)
    requires FirstBroken(g, row, x) && 8 <= Position(g) <= 9
    ensures YotiStop(x) == Some(Consequence(g, x))
  {
    EntryHolds(6, row, x);
    DocumentHolds(Position(g), row, x);
    UsedIsListed(SessionOf(x));
  }

  lemma PastDocuments(row: Row, x: Callback)
    requires HoldUpTo(10, row, x)
    ensures row.expiryDate >= x.now && x.clientKnown && YotiStop(x) == MediaStop(x)
  {
    EntryHolds(10, row, x);
    DocumentHolds(10, row, x);
    UsedIsListed(SessionOf(x));
  }

  lemma MediaBroken(g: Guard, row: Row, x: Callback)
    requires FirstBroken(g, row, x) && 10 <= Position(g) <= 12
    ensures YotiStop(x) == Some(Consequence(g, x))
  {
    PastDocuments(row, x);
    MediaHolds(Position(g), row, x);
  }

  lemma YotiHolds(row: Row, x: Callback)
    requires HoldUpTo(13, row, x)
    ensures row.expiryDate >= x.now && x.clientKnown && YotiStop(x) == None
  {
    PastDocuments(row, x);
    MediaHolds(13, row, x);
  }

  /** So do the checks on the names ... */
  lemma NamesBroken(g: Guard, row: Row, x: Callback)
    requires FirstBroken(g, row, x) && 14 <= Position(g) <= 17
    ensures NamesStop(x) == Some(Consequence(g, x))
  {
    NamesHold(Position(g), row, x);
  }

  lemma NamesGoOn(row: Row, x: Callback)
    requires HoldUpTo(18, row, x)
    ensures NamesStop(x) == None
  {
    NamesHold(18, row, x);
  }

  /** ... and those on the evidence and the signature. */
  lemma SignatureBroken(g: Guard, row: Row, x: Callback)
    requires FirstBroken(g, row, x) && Position(g) >= 18 && NamesStop(x) == None
    ensures CredentialStop(x) == Some(Consequence(g, x))
  {
    SignatureHolds(Position(g), row, x);
  }

  lemma SignatureGoesOn(row: Row, x: Callback)
    requires AllPass(row, x) && NamesStop(x) == None
    ensures CredentialStop(x) == None
  {
    SignatureHolds(21, row, x);
  }

  lemma BrokenStops(g: Guard, row: Row, x: Callback)
    requires FirstBroken(g, row, x)
    ensures StopOf(row, x) == Some(Consequence(g, x))
  {
    EntryHolds(Position(g), row, x);
    if Position(g) >= 13 {
      YotiHolds(row, x);
      CredentialBroken(g, row, x);
    } else if Position(g) >= 2 {
      YotiBroken(g, row, x);
    }
  }

  lemma YotiBroken(g: Guard, row: Row, x: Callback)
    requires FirstBroken(g, row, x) && 2 <= Position(g) <= 12
    ensures YotiStop(x) == Some(Consequence(g, x))
  {
    if Position(g) <= 5 {
      SessionBroken(g, row, x);
    } else if Position(g) <= 7 {
      DocumentBroken(g, row, x);
    } else if Position(g) <= 9 {
      FieldsBroken(g, row, x);
    } else {
      MediaBroken(g, row, x);
    }
  }

  lemma CredentialBroken(g: Guard, row: Row, x: Callback)
    requires FirstBroken(g, row, x) && Position(g) >= 13
    ensures if g == CredentialAwaited then row.state != YotiSessionComplete
            else row.state == YotiSessionComplete && CredentialStop(x) == Some(Consequence(g, x))
  {
    NamesHold(Position(g), row, x);
    if Position(g) >= 18 {
      NamesGoOn(row, x);
      SignatureBroken(g, row, x);
    } else if Position(g) >= 14 {
      NamesBroken(g, row, x);
    }
  }

  lemma AllHoldGoOn(row: Row, x: Callback)
    requires AllPass(row, x)
    ensures StopOf(row, x) == None
  {
    YotiHolds(row, x);
    NamesGoOn(row, x);
    SignatureGoesOn(row, x);
    assert Holds(CredentialAwaited, row, x);
  }

  /** When some guard is broken, one of them is the first. */
  lemma {:induction false} SomeFirstBroken(g: Guard, row: Row, x: Callback) returns (first: Guard)
    requires !Holds(g, row, x)
    ensures FirstBroken(first, row, x)
    decreases Position(g)
  {
    if h :| Position(h) < Position(g) && !Holds(h, row, x) {
      first := SomeFirstBroken(h, row, x);
    } else {
      first := g;
    }
  }

  /**
   The callback goes on to its credential if and only if all guards hold. Otherwise it stops with the report and
   the answer of some guard if and only if that guard is the first that is broken.
   */
  lemma StopsAtFirstBroken(row: Row, x: Callback, stop: Stop)
    ensures StopOf(row, x) == None <==> AllPass(row, x)
    ensures StopOf(row, x) == Some(stop) <==> exists g :: FirstBroken(g, row, x) && Consequence(g, x) == stop
  {
    if AllPass(row, x) {
      AllHoldGoOn(row, x);
    } else {
      var g :| !Holds(g, row, x);
      var first := SomeFirstBroken(g, row, x);
      BrokenStops(first, row, x);
    }
    if g :| FirstBroken(g, row, x) && Consequence(g, x) == stop {
      BrokenStops(g, row, x);
    }
  }

  predicate ForCore(e: Event) {
    e.Credential? || e.CoreError?
  }

  /** The messages to IPV Core among some events. */
  function Core(events: seq<Event>): seq<Event> {
    if events == [] then []
    else
      var n := |events| - 1;
      if ForCore(events[n]) then Core(events[..n]) + [events[n]] else Core(events[..n])
  }

  /** What the callback says to IPV Core. */
  ghost function Told(sid: SessionId, row: Row, x: Callback): seq<Event> {
    match StopOf(row, x)
    case None => if x.credentialOk then [Credential(sid)] else []
    case Some(stop) => if stop.report.Some? && x.reportOk then [CoreError(sid, stop.report.value)] else []
  }

  lemma {:induction false} CoreAppend(a: seq<Event>, b: seq<Event>)
    ensures Core(a + b) == Core(a) + Core(b)
    decreases |b|
  {
    if b == [] {
      assert a + b == a;
    } else {
      var n := |b| - 1;
      assert (a + b)[..|a + b| - 1] == a + b[..n];
      CoreAppend(a, b[..n]);
    }
  }

  /** `st'` is `st` with some events added, of which IPV Core gets `told`. */
  ghost predicate Adds(st: Store, st': Store, told: seq<Event>) {
    exists events :: st'.trail == st.trail + events && Core(events) == told
  }

  lemma AddsNothing(st: Store, st': Store)
    requires st'.trail == st.trail
    ensures Adds(st, st', [])
  {
    var none: seq<Event> := [];
    assert st'.trail == st.trail + none && Core(none) == [];
  }

  lemma AddsOne(st: Store, st': Store, e: Event)
    requires st'.trail == st.trail + [e]
    ensures Adds(st, st', if ForCore(e) then [e] else [])
  {
    assert Core([e]) == if ForCore(e) then [e] else [];
  }

  lemma AddsThen(st: Store, st1: Store, st2: Store, a: seq<Event>, b: seq<Event>)
    requires Adds(st, st1, a) && Adds(st1, st2, b)
    ensures Adds(st, st2, a + b)
  {
    var x :| st1.trail == st.trail + x && Core(x) == a;
    var y :| st2.trail == st1.trail + y && Core(y) == b;
    CoreAppend(x, y);
    assert st2.trail == st.trail + (x + y);
  }

  lemma PushAdds(st: Store, event: Event, ok: bool)
    ensures Adds(st, Push(st, event, ok), if ok && ForCore(event) then [event] else [])
  {
    if ok { AddsOne(st, Push(st, event, ok), event); } else { AddsNothing(st, st); }
  }

  lemma StoppedAdds(st: Store, sid: SessionId, stop: Stop, reportOk: bool)
    ensures Adds(st, Stopped(st, sid, stop, reportOk).0,
                 if stop.report.Some? && reportOk then [CoreError(sid, stop.report.value)] else [])
  {
    if stop.report.Some? { PushAdds(st, CoreError(sid, stop.report.value), reportOk); } else { AddsNothing(st, st); }
  }

  lemma RecordedAdds(st: Store, sid: SessionId, x: Callback)
    requires sid in st.table
    ensures Adds(st, Recorded(st, sid, x).0, [])
  {
    if KnownDocumentType(MediaOf(x).documentType) {
      var audited := Push(st, Audit(sid, VcIssued), x.issuedEventOk);
      PushAdds(st, Audit(sid, VcIssued), x.issuedEventOk);
      if x.updateOk {
        AddsOne(audited, Recorded(st, sid, x).0, Stored(sid, SetAuthState(CredentialIssued)));
        AddsThen(st, audited, Recorded(st, sid, x).0, [], []);
      }
    } else {
      AddsNothing(st, st);
    }
  }

  lemma IssuedAdds(st: Store, sid: SessionId, row: Row, x: Callback)
    requires sid in st.table && row.expiryDate >= x.now && x.clientKnown && YotiStop(x).None? && row.state == YotiSessionComplete
    ensures Adds(st, Issued(st, sid, x).0, Told(sid, row, x))
  {
    if CredentialStop(x).Some? {
      StoppedAdds(st, sid, CredentialStop(x).value, x.reportOk);
    } else if x.credentialOk {
      var sent := Push(st, Credential(sid), true);
      PushAdds(st, Credential(sid), true);
      RecordedAdds(sent, sid, x);
      AddsThen(st, sent, Issued(st, sid, x).0, [Credential(sid)], []);
    } else {
      AddsNothing(st, st);
    }
  }

  lemma CompletedAdds(st: Store, sid: SessionId, x: Callback)
    requires sid in st.table
    ensures Adds(st, Completed(st, sid, x).0, Told(sid, st.table[sid], x))
  {
    var row := st.table[sid];
    if row.expiryDate < x.now || !x.clientKnown {
      AddsNothing(st, st);
    } else if YotiStop(x).Some? {
      StoppedAdds(st, sid, YotiStop(x).value, x.reportOk);
    } else if row.state != YotiSessionComplete {
      StoppedAdds(st, sid, Stop(Some(WrongAuthState), Reply(401)), x.reportOk);
    } else {
      var audited := Push(st, Audit(sid, YotiResponseReceived), x.responseEventOk);
      PushAdds(st, Audit(sid, YotiResponseReceived), x.responseEventOk);
      IssuedAdds(audited, sid, row, x);
      AddsThen(st, audited, Completed(st, sid, x).0, [], Told(sid, row, x));
    }
  }

  /**
   One message to IPV Core at most, never a credential and an error; the credential exactly when every guard
   holds and its sending succeeds; and CREDENTIAL_ISSUED is written only then.
   */
  lemma OneMessage(st: Store, sid: SessionId, x: Callback) returns (events: seq<Event>)
    requires sid in st.table
    ensures var st' := Completed(st, sid, x).0;
            && st'.trail == st.trail + events && |Core(events)| <= 1
            && (Core(events) == [Credential(sid)] <==> AllPass(st.table[sid], x) && x.credentialOk)
            && (AllPass(st.table[sid], x) ==> forall e | e in Core(events) :: e.Credential?)
            && (!AllPass(st.table[sid], x) ==> st'.table == st.table && forall e | e in Core(events) :: e.CoreError?)
            && (st'.table != st.table ==> Core(events) == [Credential(sid)])
  {
    var stop: Stop := UNREPORTED;
    StopsAtFirstBroken(st.table[sid], x, stop);
    CompletedAdds(st, sid, x);
    events :| Completed(st, sid, x).0.trail == st.trail + events && Core(events) == Told(sid, st.table[sid], x);
    TableKept(st, sid, x);
  }

  lemma TableKept(st: Store, sid: SessionId, x: Callback)
    requires sid in st.table
    ensures Completed(st, sid, x).0.table != st.table ==> StopOf(st.table[sid], x).None? && x.credentialOk
  {
  }

  // ---------- the callback is the protocol's completion handler ----------

  function StopEnv(stop: Option<Stop>): Env {
    match stop
    case None => Plain(true)
    case Some(Stop(report, response)) => Env(false, report, response.Reply?, response.status, "", 0)
  }

  /** What the handler's calls answer. */
  ghost predicate Answers(x: Callback, row: Row, script: Script) {
    && script(0) == Plain(x.clientKnown).(now := x.now)
    && script(1) == StopEnv(YotiStop(x))
    && script(2).ok == (if YotiStop(x).Some? || row.state != YotiSessionComplete then x.reportOk else x.responseEventOk)
    && AnswersIssue(x, script)
  }

  ghost predicate AnswersIssue(x: Callback, script: Script) {
    && script(3) == StopEnv(CredentialStop(x))
    && script(4).ok == (if CredentialStop(x).Some? then x.reportOk else x.credentialOk)
    && AnswersRecord(x, script)
  }

  ghost predicate AnswersRecord(x: Callback, script: Script) {
    && script(5).ok == x.issuedEventOk && script(5).known == KnownDocumentType(MediaOf(x).documentType)
    && script(6).ok == x.updateOk
  }

  /** A script given by its first seven answers. */
  function ScriptFrom(e0: Env, e1: Env, e2: Env, e3: Env, e4: Env, e5: Env, e6: Env): Script {
    (i: nat) =>
      if i == 0 then e0 else if i == 1 then e1 else if i == 2 then e2 else if i == 3 then e3
      else if i == 4 then e4 else if i == 5 then e5 else e6
  }

  lemma ScriptFromAt(e0: Env, e1: Env, e2: Env, e3: Env, e4: Env, e5: Env, e6: Env) returns (script: Script)
    ensures script(0) == e0 && script(1) == e1 && script(2) == e2 && script(3) == e3
    ensures script(4) == e4 && script(5) == e5 && script(6) == e6
  {
    script := ScriptFrom(e0, e1, e2, e3, e4, e5, e6);
  }

  lemma RecordedIsDrive(st: Store, req: Request, sid: SessionId, snap: Row, x: Callback, script: Script)
    requires sid in st.table && AnswersRecord(x, script)
    ensures Recorded(st, sid, x) == Drive(st, req, sid, snap, AuditIssued, script, 5)
  {
    var audited := Push(st, Audit(sid, VcIssued), x.issuedEventOk);
    if KnownDocumentType(MediaOf(x).documentType) {
      assert Drive(st, req, sid, snap, AuditIssued, script, 5) == Drive(audited, req, sid, snap, StoreIssued, script, 6);
    }
  }

  lemma StopIsDrive(st: Store, req: Request, sid: SessionId, snap: Row, stop: Stop, reportOk: bool, script: Script, i: nat)
    requires sid in st.table && stop.report.Some? && script(i).ok == reportOk
    ensures Stopped(st, sid, stop, reportOk) == Drive(st, req, sid, snap, ReportError(stop.report.value, stop.response), script, i)
  {
  }

  /** Building the credential, and stopping at it. */
  lemma BuildStep(st: Store, req: Request, sid: SessionId, snap: Row, stop: Option<Stop>, script: Script)
    requires sid in st.table && script(3) == StopEnv(stop)
    requires stop.Some? && stop.value.report.None? ==> stop.value.response.Thrown?
    ensures Drive(st, req, sid, snap, BuildCredential, script, 3) ==
            if stop.None? then Drive(st, req, sid, snap, SendCredential, script, 4)
            else if stop.value.report.None? then (st, stop.value.response)
            else Drive(st, req, sid, snap, ReportError(stop.value.report.value, stop.value.response), script, 4)
  {
  }

  lemma SendStep(st: Store, req: Request, sid: SessionId, snap: Row, script: Script)
    requires sid in st.table
    ensures Drive(st, req, sid, snap, SendCredential, script, 4) ==
            if script(4).ok then Drive(Push(st, Credential(sid), true), req, sid, snap, AuditIssued, script, 5)
            else (st, Thrown(500))
  {
  }

  lemma UnreportedThrow(x: Callback)
    ensures CredentialStop(x).Some? && CredentialStop(x).value.report.None? ==> CredentialStop(x).value.response.Thrown?
    ensures YotiStop(x).Some? ==> YotiStop(x).value.response == Thrown(500)
  {
  }

  lemma IssuedIsDrive(st: Store, req: Request, sid: SessionId, snap: Row, x: Callback, script: Script)
    requires sid in st.table && AnswersIssue(x, script)
    ensures Issued(st, sid, x) == Drive(st, req, sid, snap, BuildCredential, script, 3)
  {
    var stop := CredentialStop(x);
    UnreportedThrow(x);
    BuildStep(st, req, sid, snap, stop, script);
    if stop.Some? {
      if stop.value.report.Some? {
        StopIsDrive(st, req, sid, snap, stop.value, x.reportOk, script, 4);
      }
    } else {
      SendStep(st, req, sid, snap, script);
      RecordedIsDrive(Push(st, Credential(sid), true), req, sid, snap, x, script);
    }
  }

  lemma CheckStep(st: Store, req: Request, sid: SessionId, snap: Row, stop: Option<Stop>, script: Script)
    requires sid in st.table && script(1) == StopEnv(stop) && (stop.Some? ==> stop.value.response == Thrown(500))
    ensures Drive(st, req, sid, snap, CheckYoti, script, 1) ==
            if stop.None? then
              if snap.state == YotiSessionComplete then Drive(st, req, sid, snap, AuditResponse, script, 2)
              else Drive(st, req, sid, snap, ReportError(WrongAuthState, Reply(401)), script, 2)
            else if stop.value.report.None? then (st, stop.value.response)
            else Drive(st, req, sid, snap, ReportError(stop.value.report.value, stop.value.response), script, 2)
  {
  }

  lemma AuditStep(st: Store, req: Request, sid: SessionId, snap: Row, script: Script)
    requires sid in st.table
    ensures Drive(st, req, sid, snap, AuditResponse, script, 2) ==
            Drive(Push(st, Audit(sid, YotiResponseReceived), script(2).ok), req, sid, snap, BuildCredential, script, 3)
  {
  }

  lemma CompletedFromCheck(st: Store, req: Request, sid: SessionId, x: Callback, script: Script)
    requires sid in st.table && st.table[sid].expiryDate >= x.now && x.clientKnown
    requires Answers(x, st.table[sid], script)
    ensures Completed(st, sid, x) == Drive(st, req, sid, st.table[sid], CheckYoti, script, 1)
  {
    var row := st.table[sid];
    UnreportedThrow(x);
    CheckStep(st, req, sid, row, YotiStop(x), script);
    if YotiStop(x).Some? {
      if YotiStop(x).value.report.Some? {
        StopIsDrive(st, req, sid, row, YotiStop(x).value, x.reportOk, script, 2);
      }
    } else if row.state != YotiSessionComplete {
      StopIsDrive(st, req, sid, row, Stop(Some(WrongAuthState), Reply(401)), x.reportOk, script, 2);
    } else {
      AuditStep(st, req, sid, row, script);
      IssuedIsDrive(Push(st, Audit(sid, YotiResponseReceived), x.responseEventOk), req, sid, row, x, script);
    }
  }

  lemma SomeScriptAnswers(x: Callback, row: Row) returns (script: Script)
    ensures Answers(x, row, script)
  {
    script := ScriptFromAt(
      Plain(x.clientKnown).(now := x.now),
      StopEnv(YotiStop(x)),
      Plain(if YotiStop(x).Some? || row.state != YotiSessionComplete then x.reportOk else x.responseEventOk),
      StopEnv(CredentialStop(x)),
      Plain(if CredentialStop(x).Some? then x.reportOk else x.credentialOk),
      Plain(x.issuedEventOk).(known := KnownDocumentType(MediaOf(x).documentType)),
      Plain(x.updateOk));
  }

  lemma BeginStep(st: Store, req: Request, sid: SessionId, script: Script)
    requires sid in st.table && req.Completion?
    ensures Handle(st, req, sid, script) ==
            if st.table[sid].expiryDate < script(0).now then (st, Thrown(401))
            else if !script(0).ok then (st, Reply(400))
            else Drive(st, req, sid, st.table[sid], CheckYoti, script, 1)
  {
  }

  /** The callback does what one invocation of the protocol's completion handler does. */
  lemma CompletedIsHandle(st: Store, req: Request, sid: SessionId, x: Callback) returns (script: Script)
    requires sid in st.table && req.Completion?
    ensures Answers(x, st.table[sid], script)
    ensures Completed(st, sid, x) == Handle(st, req, sid, script)
  {
    script := SomeScriptAnswers(x, st.table[sid]);
    BeginStep(st, req, sid, script);
    if st.table[sid].expiryDate >= x.now && x.clientKnown {
      CompletedFromCheck(st, req, sid, x, script);
    }
  }

  /** Once its credential is accepted, the callback also records it. */
  ghost predicate RecordsIssue(row: Row, x: Callback) {
    AllPass(row, x) && x.credentialOk ==> KnownDocumentType(MediaOf(x).documentType) && x.updateOk
  }

  lemma RecordsIssueIs(row: Row, req: Request, sid: SessionId, x: Callback, script: Script)
    requires req.Completion? && Answers(x, row, script) && RecordsIssue(row, x)
    ensures HandlerEpisode.HandleRecords(row, req, sid, script)
  {
    StopsAtFirstBroken(row, x, UNREPORTED);
    HandlerEpisode.CompletionRecords(row, req, sid, script);
  }

  // ---------- when a credential is issued again ----------

  lemma PassedGoesOn(row: Row, x: Callback)
    requires AllPass(row, x)
    ensures row.expiryDate >= x.now && x.clientKnown && YotiStop(x) == None && row.state == YotiSessionComplete
    ensures CredentialStop(x) == None
  {
    StopsAtFirstBroken(row, x, UNREPORTED);
  }

  lemma RowIssued(st: Store, sid: SessionId, x: Callback)
    requires sid in st.table && AllPass(st.table[sid], x) && x.credentialOk
    ensures sid in Completed(st, sid, x).0.table
    ensures Completed(st, sid, x).0.table[sid] ==
            if RecordsIssue(st.table[sid], x) then st.table[sid].(state := CredentialIssued) else st.table[sid]
  {
    PassedGoesOn(st.table[sid], x);
  }

  /**
   After a callback whose credential is accepted, a further one can go on to a credential of its own if and only if
   the first did not record its own.
   */
  lemma IssuesAgainExactly(st: Store, sid: SessionId, x: Callback)
    requires sid in st.table && AllPass(st.table[sid], x) && x.credentialOk
    ensures sid in Completed(st, sid, x).0.table
    ensures (exists y :: AllPass(Completed(st, sid, x).0.table[sid], y)) <==> !RecordsIssue(st.table[sid], x)
  {
    RowIssued(st, sid, x);
    var row := Completed(st, sid, x).0.table[sid];
    if RecordsIssue(st.table[sid], x) {
      forall y ensures !AllPass(row, y) { assert !Holds(CredentialAwaited, row, y); }
    } else {
      assert AllPass(row, x);
    }
  }
}
