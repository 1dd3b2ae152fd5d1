/**
 What one request leaves behind, written out in full for each handler: the effects, audit events included, and the
 answer, by the first call that fails; and the row when none does. No event of one handler is ever added by another.
 */
module Outcomes {
  import opened Wrappers
  import opened SessionModel
  import opened Protocol
  import opened HandlerSpec
  import opened Plans

  type Aftermath = (seq<Event>, Response)

  /** The invocation adds these events to the trail and gives this answer. */
  ghost predicate Leaves(st: Store, r: (Store, Response), left: Aftermath) {
    r.0.trail == st.trail + left.0 && r.1 == left.1
  }

  /** An event that is accepted, or nothing. */
  function If(sent: bool, e: Event): seq<Event> {
    if sent then [e] else []
  }

  lemma Regroup(a: seq<Event>, b: seq<Event>, c: seq<Event>)
    ensures a + b + c == a + (b + c)
  {
  }

  lemma Nothing(a: seq<Event>)
    ensures [] + a == a && a + [] == a
  {
  }

  lemma Chain(a: Event, b: Event, c: Event, rest: seq<Event>)
    ensures [a] + ([b] + ([c] + rest)) == [a, b, c] + rest
  {
  }

  lemma Pair(a: Event, b: Event)
    ensures [a] + [] == [a] && [a] + ([b] + []) == [a, b]
  {
  }

  /** What a handler leaves behind from call `i` on. */
  function From(req: Request, sid: SessionId, script: Script, i: nat): Aftermath {
    (Effects(req, sid, script, i) + Report(req, sid, script, i), Answered(req, script, i))
  }

  lemma FromStep(req: Request, sid: SessionId, script: Script, i: nat)
    requires i <= LastCall(req)
    ensures From(req, sid, script, i) ==
            if Clear(req, i, script(i))
            then (Planned(req, sid, script, i) + From(req, sid, script, i + 1).0, From(req, sid, script, i + 1).1)
            else (Reported(req, sid, script, i), Failing(req, i, script(i)))
  {
    PlanStep(req, sid, script, i);
    Regroup(Planned(req, sid, script, i), Effects(req, sid, script, i + 1), Report(req, sid, script, i));
    Nothing(Report(req, sid, script, i));
  }

  /** A handler that starts leaves behind what its calls do; another one at most reports. */
  lemma HandleLeaves(st: Store, req: Request, sid: SessionId, script: Script)
    requires sid in st.table && !IsJob(req)
    ensures var row, r := st.table[sid], Handle(st, req, sid, script);
            && (Starts(req, row, script(0)) ==> Leaves(st, r, From(req, sid, script, 1)))
            && (!Starts(req, row, script(0)) ==>
                  Leaves(st, r, (if req.Completion? && row.expiryDate >= script(0).now && script(0).ok
                                 then RefusalReport(sid, script) else [], Refused(req, row, script))))
  {
    HandlerKeepsToPlan(st, req, sid, script);
  }

  lemma FromEnd(req: Request, sid: SessionId, script: Script)
    ensures From(req, sid, script, LastCall(req) + 1) == ([], Reply(200))
  {
    assert Effects(req, sid, script, LastCall(req) + 1) + [] == [];
  }

  /** The last three calls of a document selection. */
  lemma SelectionEnds(sid: SessionId, document: Selection, script: Script)
    ensures
      var used := if document in {UkPassport, NonUkPassport} then PassportType
                  else if document in {UkPhotocardDl, EuPhotocardDl} then DrivingLicenceType else NationalIdType;
      From(SelectDocument(sid, document), sid, script, 5) ==
        if !script(5).ok then ([], Reply(500))
        else if document == Unknown then ([], Thrown(500))
        else if !script(6).ok then ([], Reply(500))
        else ([Stored(sid, SetDocumentUsed(used))] + If(script(7).ok, Audit(sid, YotiStart)), Reply(200))
  {
    var req := SelectDocument(sid, document);
    var started := If(script(7).ok, Audit(sid, YotiStart));
    FromEnd(req, sid, script);
    FromStep(req, sid, script, 7);
    Nothing(started);
    FromStep(req, sid, script, 6);
    FromStep(req, sid, script, 5);
    Nothing(From(req, sid, script, 6).0);
  }

  lemma SelectionBegins(sid: SessionId, document: Selection, script: Script)
    ensures
      var req := SelectDocument(sid, document);
      var letter, named := LetterStarted(sid, script(1).id), Stored(sid, SetYotiIdAndStatus(script(1).id));
      var ttl, rest := Stored(sid, SetTtl(script(4).now + 1814400)), From(req, sid, script, 5);
      From(req, sid, script, 1) ==
        if !script(1).ok || !script(2).ok then ([], Reply(500))
        else if !script(3).ok then ([letter], Reply(500))
        else if !script(4).ok then ([letter, named], Reply(500))
        else ([letter, named, ttl] + rest.0, rest.1)
  {
    var req := SelectDocument(sid, document);
    FromStep(req, sid, script, 4);
    FromStep(req, sid, script, 3);
    FromStep(req, sid, script, 2);
    FromStep(req, sid, script, 1);
    Nothing(From(req, sid, script, 2).0);
    Pair(LetterStarted(sid, script(1).id), Stored(sid, SetYotiIdAndStatus(script(1).id)));
    Chain(LetterStarted(sid, script(1).id), Stored(sid, SetYotiIdAndStatus(script(1).id)),
          Stored(sid, SetTtl(script(4).now + 1814400)), From(req, sid, script, 5).0);
  }

  /** A document selection. */
  lemma SelectionOutcome(st: Store, sid: SessionId, document: Selection, script: Script)
    requires sid in st.table
    ensures
      var row, letter, named := st.table[sid], LetterStarted(sid, script(1).id), Stored(sid, SetYotiIdAndStatus(script(1).id));
      var ttl := Stored(sid, SetTtl(script(4).now + 1814400));
      var used := if document in {UkPassport, NonUkPassport} then PassportType
                  else if document in {UkPhotocardDl, EuPhotocardDl} then DrivingLicenceType else NationalIdType;
      Leaves(st, Handle(st, SelectDocument(sid, document), sid, script),
        if row.expiryDate < script(0).now then ([], Thrown(401))
        else if !script(0).ok then ([], if script(0).known then Reply(script(0).status) else Thrown(script(0).status))
        else if row.state != SessionCreated || row.yotiSessionId.Some? then ([], Reply(401))
        else if !script(1).ok || !script(2).ok then ([], Reply(500))
        else if !script(3).ok then ([letter], Reply(500))
        else if !script(4).ok then ([letter, named], Reply(500))
        else if !script(5).ok then ([letter, named, ttl], Reply(500))
        else if document == Unknown then ([letter, named, ttl], Thrown(500))
        else if !script(6).ok then ([letter, named, ttl], Reply(500))
        else ([letter, named, ttl, Stored(sid, SetDocumentUsed(used))] + If(script(7).ok, Audit(sid, YotiStart)), Reply(200)))
  {
    HandleLeaves(st, SelectDocument(sid, document), sid, script);
    SelectionBegins(sid, document, script);
    SelectionEnds(sid, document, script);
  }

  /** An authorization request. */
  lemma AuthorizationOutcome(st: Store, sid: SessionId, script: Script)
    requires sid in st.table
    ensures
      var row, code := st.table[sid], script(1).id;
      Leaves(st, Handle(st, Authorize(sid), sid, script),
        if row.expiryDate < script(0).now then ([], Thrown(401))
        else if row.state != YotiSessionCreated then ([], Reply(401))
        else if !script(1).ok then ([], Thrown(500))
        else ([Stored(sid, SetAuthorizationCode(code))] + If(script(2).ok, Audit(sid, AuthCodeIssuedEvent)) +
              If(script(3).ok, Audit(sid, CriEnd)) + [CodeHanded(sid, code)], Reply(200)))
  {
    var req := Authorize(sid);
    HandleLeaves(st, req, sid, script);
    FromEnd(req, sid, script);
    FromStep(req, sid, script, 3);
    FromStep(req, sid, script, 2);
    FromStep(req, sid, script, 1);
    var ended := Logged(sid, CriEnd, script(3)) + [CodeHanded(sid, script(1).id)];
    Nothing(ended);
    Regroup([Stored(sid, SetAuthorizationCode(script(1).id))], Logged(sid, AuthCodeIssuedEvent, script(2)), ended);
    Regroup([Stored(sid, SetAuthorizationCode(script(1).id))] + Logged(sid, AuthCodeIssuedEvent, script(2)),
            Logged(sid, CriEnd, script(3)), [CodeHanded(sid, script(1).id)]);
  }

  /** A request for an access token. */
  lemma TokenOutcome(st: Store, code: string, sid: SessionId, script: Script)
    requires sid in st.table
    ensures
      var row := st.table[sid];
      Leaves(st, Handle(st, Redeem(code), sid, script),
        if row.expiryDate < script(0).now then ([], Reply(401))
        else if !script(0).ok then ([], Reply(script(0).status))
        else if row.state != AuthCodeIssued then ([], Reply(401))
        else if !script(0).known then ([], Reply(script(0).status))
        else if !script(1).ok then ([], Reply(500))
        else ([Stored(sid, SetAccessTokenDetails(script(1).now + 3600)), TokenHanded(sid)], Reply(200)))
  {
    var req := Redeem(code);
    HandleLeaves(st, req, sid, script);
    FromEnd(req, sid, script);
    FromStep(req, sid, script, 1);
    Nothing(Planned(req, sid, script, 1));
  }

  /** A callback after a visit to a branch. */
  lemma VisitOutcome(st: Store, yotiSessionId: string, sid: SessionId, script: Script)
    requires sid in st.table
    ensures
      Leaves(st, Handle(st, FirstBranchVisit(yotiSessionId), sid, script),
        if st.table[sid].expiryDate < script(0).now then ([], Thrown(401))
        else if !script(1).ok then ([], Thrown(500))
        else ([Stored(sid, SetAuthState(PostOfficeVisited))], Reply(200)))
  {
    var req := FirstBranchVisit(yotiSessionId);
    HandleLeaves(st, req, sid, script);
    FromEnd(req, sid, script);
    FromStep(req, sid, script, 1);
    Nothing(Planned(req, sid, script, 1));
  }

  /** A callback after the documents were uploaded. */
  lemma UploadOutcome(st: Store, yotiSessionId: string, sid: SessionId, script: Script)
    requires sid in st.table
    ensures
      Leaves(st, Handle(st, ThankYou(yotiSessionId), sid, script),
        if st.table[sid].expiryDate < script(0).now then ([], Thrown(401))
        else if !script(0).ok then ([], if script(0).known then Reply(script(0).status) else Thrown(script(0).status))
        else if !script(1).ok || !script(2).ok then ([], Thrown(500))
        else if !script(3).ok then ([Audit(sid, DocumentUploaded)], Thrown(500))
        else ([Audit(sid, DocumentUploaded), Stored(sid, SetAuthState(YotiSessionComplete))], Reply(200)))
  {
    var req := ThankYou(yotiSessionId);
    HandleLeaves(st, req, sid, script);
    FromEnd(req, sid, script);
    FromStep(req, sid, script, 3);
    FromStep(req, sid, script, 2);
    FromStep(req, sid, script, 1);
    Nothing(From(req, sid, script, 2).0);
    Pair(Audit(sid, DocumentUploaded), Stored(sid, SetAuthState(YotiSessionComplete)));
  }

  /** An abort. */
  lemma AbortOutcome(st: Store, sid: SessionId, script: Script)
    requires sid in st.table
    ensures
      var row := st.table[sid];
      Leaves(st, Handle(st, Abort(sid), sid, script),
        if row.expiryDate < script(0).now then ([], Thrown(401))
        else if row.state == CriSessionAborted then ([], Reply(200))
        else if !script(1).ok then ([], Reply(500))
        else ([Stored(sid, SetAuthState(CriSessionAborted))] + If(script(2).ok, Audit(sid, SessionAbortedEvent)), Reply(200)))
  {
    var req := Abort(sid);
    HandleLeaves(st, req, sid, script);
    FromEnd(req, sid, script);
    FromStep(req, sid, script, 2);
    FromStep(req, sid, script, 1);
    Nothing(Planned(req, sid, script, 2));
  }

  /** The last three calls of a completion. */
  lemma CompletionEnds(yotiSessionId: string, sid: SessionId, script: Script)
    ensures
      From(Completion(yotiSessionId), sid, script, 4) ==
        if !script(4).ok then ([], Thrown(500))
        else if !script(5).known then ([Credential(sid)], Thrown(500))
        else if !script(6).ok then ([Credential(sid)] + If(script(5).ok, Audit(sid, VcIssued)), Thrown(500))
        else ([Credential(sid)] + If(script(5).ok, Audit(sid, VcIssued)) + [Stored(sid, SetAuthState(CredentialIssued))],
              Reply(200))
  {
    var req := Completion(yotiSessionId);
    FromEnd(req, sid, script);
    FromStep(req, sid, script, 6);
    FromStep(req, sid, script, 5);
    FromStep(req, sid, script, 4);
    Nothing(Planned(req, sid, script, 6));
    Nothing(Planned(req, sid, script, 5));
    Nothing([Credential(sid)]);
    Regroup([Credential(sid)], Planned(req, sid, script, 5), Planned(req, sid, script, 6));
  }

  lemma CompletionBegins(yotiSessionId: string, sid: SessionId, script: Script)
    ensures
      var req, built := Completion(yotiSessionId), script(3);
      var reported := if script(1).report.Some? then If(script(2).ok, CoreError(sid, script(1).report.value)) else [];
      var received, rest := If(script(2).ok, Audit(sid, YotiResponseReceived)), From(req, sid, script, 4);
      From(req, sid, script, 1) ==
        if !script(1).ok then (reported, Thrown(500))
        else if !built.ok && built.report == None then (received, Thrown(built.status))
        else if !built.ok then (received + If(script(4).ok, CoreError(sid, built.report.value)),
                                if built.known then Reply(built.status) else Thrown(built.status))
        else (received + rest.0, rest.1)
  {
    var req := Completion(yotiSessionId);
    FromStep(req, sid, script, 3);
    FromStep(req, sid, script, 2);
    FromStep(req, sid, script, 1);
    Nothing(From(req, sid, script, 2).0);
    Nothing(From(req, sid, script, 4).0);
    Nothing(Planned(req, sid, script, 2));
  }

  /** A completion callback, once its guards are answered. */
  lemma CompletionOutcome(st: Store, yotiSessionId: string, sid: SessionId, script: Script)
    requires sid in st.table
    ensures
      var row, built := st.table[sid], script(3);
      var reported := if script(1).report.Some? then If(script(2).ok, CoreError(sid, script(1).report.value)) else [];
      var received := If(script(2).ok, Audit(sid, YotiResponseReceived));
      var issued, told := Credential(sid), If(script(5).ok, Audit(sid, VcIssued));
      Leaves(st, Handle(st, Completion(yotiSessionId), sid, script),
        if row.expiryDate < script(0).now then ([], Thrown(401))
        else if !script(0).ok then ([], Reply(400))
        else if !script(1).ok then (reported, Thrown(500))
        else if row.state != YotiSessionComplete then (If(script(2).ok, CoreError(sid, WrongAuthState)), Reply(401))
        else if !built.ok && built.report == None then (received, Thrown(built.status))
        else if !built.ok then (received + If(script(4).ok, CoreError(sid, built.report.value)),
                                if built.known then Reply(built.status) else Thrown(built.status))
        else if !script(4).ok then (received, Thrown(500))
        else if !script(5).known then (received + [issued], Thrown(500))
        else if !script(6).ok then (received + ([issued] + told), Thrown(500))
        else (received + ([issued] + told + [Stored(sid, SetAuthState(CredentialIssued))]), Reply(200)))
  {
    var req := Completion(yotiSessionId);
    HandleLeaves(st, req, sid, script);
    CompletionBegins(yotiSessionId, sid, script);
    CompletionEnds(yotiSessionId, sid, script);
    Nothing(If(script(2).ok, Audit(sid, YotiResponseReceived)));
  }

  // ---------- the rows of requests that succeed ----------

  lemma FoldedIf(row: Row, sent: bool, e: Event)
    requires !e.Stored?
    ensures Folded(row, If(sent, e)) == row
  {
    FoldedFew(row, If(sent, e));
  }

  /** The row of a handler that leaves these events. */
  lemma RowFollows(st: Store, req: Request, sid: SessionId, script: Script, left: Aftermath)
    requires sid in st.table && !IsJob(req) && Leaves(st, Handle(st, req, sid, script), left)
    ensures Handle(st, req, sid, script).0.table == st.table[sid := Folded(st.table[sid], left.0)]
  {
    var r := Handle(st, req, sid, script);
    HandleAdds(st, req, sid, script, r);
    assert r.0.trail[|st.trail|..] == left.0 == Added(req, sid, st.table[sid], script);
  }

  lemma SelectionRow(st: Store, sid: SessionId, document: Selection, script: Script)
    requires sid in st.table && Handle(st, SelectDocument(sid, document), sid, script).1 == Reply(200)
    ensures
      Handle(st, SelectDocument(sid, document), sid, script).0.table ==
      st.table[sid := st.table[sid].(yotiSessionId := Some(script(1).id), state := YotiSessionCreated,
        expiryDate := script(4).now + 1814400,
        documentUsed := Some(if document in {UkPassport, NonUkPassport} then PassportType
                             else if document in {UkPhotocardDl, EuPhotocardDl} then DrivingLicenceType
                             else NationalIdType))]
  {
    var row, y := st.table[sid], script(1).id;
    var used := if document in {UkPassport, NonUkPassport} then PassportType
                else if document in {UkPhotocardDl, EuPhotocardDl} then DrivingLicenceType else NationalIdType;
    var ttl, last := Stored(sid, SetTtl(script(4).now + 1814400)), Stored(sid, SetDocumentUsed(used));
    var audit := If(script(7).ok, Audit(sid, YotiStart));
    SelectionOutcome(st, sid, document, script);
    RowFollows(st, SelectDocument(sid, document), sid, script,
               ([LetterStarted(sid, y), Stored(sid, SetYotiIdAndStatus(y)), ttl, last] + audit, Reply(200)));
    FoldedAppend(row, [LetterStarted(sid, y), Stored(sid, SetYotiIdAndStatus(y)), ttl, last], audit);
    FoldedAppend(row, [LetterStarted(sid, y), Stored(sid, SetYotiIdAndStatus(y))], [ttl, last]);
    assert [LetterStarted(sid, y), Stored(sid, SetYotiIdAndStatus(y))] + [ttl, last]
        == [LetterStarted(sid, y), Stored(sid, SetYotiIdAndStatus(y)), ttl, last];
    var row1 := row.(yotiSessionId := Some(y), state := YotiSessionCreated);
    FoldedFew(row, [LetterStarted(sid, y), Stored(sid, SetYotiIdAndStatus(y))]);
    FoldedFew(row1, [ttl, last]);
    FoldedIf(Folded(row1, [ttl, last]), script(7).ok, Audit(sid, YotiStart));
  }

  lemma AuthorizationRow(st: Store, sid: SessionId, script: Script)
    requires sid in st.table && Handle(st, Authorize(sid), sid, script).1 == Reply(200)
    ensures Handle(st, Authorize(sid), sid, script).0.table ==
            st.table[sid := st.table[sid].(authorizationCode := Some(script(1).id), state := AuthCodeIssued)]
  {
    var row, code := st.table[sid], script(1).id;
    var first := [Stored(sid, SetAuthorizationCode(code))];
    var a, b := If(script(2).ok, Audit(sid, AuthCodeIssuedEvent)), If(script(3).ok, Audit(sid, CriEnd));
    AuthorizationOutcome(st, sid, script);
    RowFollows(st, Authorize(sid), sid, script, (first + a + b + [CodeHanded(sid, code)], Reply(200)));
    FoldedAppend(row, first + a + b, [CodeHanded(sid, code)]);
    FoldedAppend(row, first + a, b);
    FoldedAppend(row, first, a);
    FoldedFew(row, first);
    FoldedIf(Folded(row, first), script(2).ok, Audit(sid, AuthCodeIssuedEvent));
    FoldedIf(Folded(row, first), script(3).ok, Audit(sid, CriEnd));
    FoldedFew(Folded(row, first), [CodeHanded(sid, code)]);
  }

  lemma AbortRow(st: Store, sid: SessionId, script: Script)
    requires sid in st.table && Handle(st, Abort(sid), sid, script).1 == Reply(200)
    ensures Handle(st, Abort(sid), sid, script).0.table == st.table[sid := st.table[sid].(state := CriSessionAborted)]
  {
    var row := st.table[sid];
    AbortOutcome(st, sid, script);
    if row.state == CriSessionAborted {
      RowFollows(st, Abort(sid), sid, script, ([], Reply(200)));
      FoldedFew(row, []);
    } else {
      var first, audit := [Stored(sid, SetAuthState(CriSessionAborted))], If(script(2).ok, Audit(sid, SessionAbortedEvent));
      RowFollows(st, Abort(sid), sid, script, (first + audit, Reply(200)));
      FoldedAppend(row, first, audit);
      FoldedFew(row, first);
      FoldedIf(Folded(row, first), script(2).ok, Audit(sid, SessionAbortedEvent));
    }
  }

  lemma CompletionRow(st: Store, y: string, sid: SessionId, script: Script)
    requires sid in st.table && Handle(st, Completion(y), sid, script).1 == Reply(200)
    ensures Handle(st, Completion(y), sid, script).0.table == st.table[sid := st.table[sid].(state := CredentialIssued)]
  {
    var row := st.table[sid];
    var received, told := If(script(2).ok, Audit(sid, YotiResponseReceived)), If(script(5).ok, Audit(sid, VcIssued));
    var last := [Stored(sid, SetAuthState(CredentialIssued))];
    CompletionOutcome(st, y, sid, script);
    RowFollows(st, Completion(y), sid, script, (received + ([Credential(sid)] + told + last), Reply(200)));
    FoldedAppend(row, received, [Credential(sid)] + told + last);
    FoldedIf(row, script(2).ok, Audit(sid, YotiResponseReceived));
    FoldedAppend(row, [Credential(sid)] + told, last);
    FoldedAppend(row, [Credential(sid)], told);
    FoldedFew(row, [Credential(sid)]);
    FoldedIf(row, script(5).ok, Audit(sid, VcIssued));
    FoldedFew(row, last);
  }

  lemma TokenRow(st: Store, code: string, sid: SessionId, script: Script)
    requires sid in st.table && Handle(st, Redeem(code), sid, script).1 == Reply(200)
    ensures Handle(st, Redeem(code), sid, script).0.table == st.table[sid := st.table[sid].(state := AccessTokenIssued, authorizationCode := None,
                                                     accessTokenExpiryDate := Some(script(1).now + 3600))]
  {
    var left := [Stored(sid, SetAccessTokenDetails(script(1).now + 3600)), TokenHanded(sid)];
    TokenOutcome(st, code, sid, script);
    RowFollows(st, Redeem(code), sid, script, (left, Reply(200)));
    FoldedFew(st.table[sid], left);
  }

  lemma VisitRow(st: Store, y: string, sid: SessionId, script: Script)
    requires sid in st.table && Handle(st, FirstBranchVisit(y), sid, script).1 == Reply(200)
    ensures Handle(st, FirstBranchVisit(y), sid, script).0.table == st.table[sid := st.table[sid].(state := PostOfficeVisited)]
  {
    var left := [Stored(sid, SetAuthState(PostOfficeVisited))];
    VisitOutcome(st, y, sid, script);
    RowFollows(st, FirstBranchVisit(y), sid, script, (left, Reply(200)));
    FoldedFew(st.table[sid], left);
  }

  lemma UploadRow(st: Store, y: string, sid: SessionId, script: Script)
    requires sid in st.table && Handle(st, ThankYou(y), sid, script).1 == Reply(200)
    ensures Handle(st, ThankYou(y), sid, script).0.table == st.table[sid := st.table[sid].(state := YotiSessionComplete)]
  {
    var left := [Audit(sid, DocumentUploaded), Stored(sid, SetAuthState(YotiSessionComplete))];
    UploadOutcome(st, y, sid, script);
    RowFollows(st, ThankYou(y), sid, script, (left, Reply(200)));
    FoldedFew(st.table[sid], left);
  }

  /** The row a successful request leaves. */
  lemma SuccessRow(st: Store, req: Request, sid: SessionId, script: Script)
    requires sid in st.table && !IsJob(req) && Matches(req, sid, st.table[sid])
    requires Handle(st, req, sid, script).1 == Reply(200)
    ensures
      var row := st.table[sid];
      var row' := match req
        case SelectDocument(_, document) =>
          row.(yotiSessionId := Some(script(1).id), state := YotiSessionCreated, expiryDate := script(4).now + 1814400,
               documentUsed := Some(if document in {UkPassport, NonUkPassport} then PassportType
                                    else if document in {UkPhotocardDl, EuPhotocardDl} then DrivingLicenceType
                                    else NationalIdType))
        case Authorize(_) => row.(authorizationCode := Some(script(1).id), state := AuthCodeIssued)
        case Redeem(_) => row.(state := AccessTokenIssued, authorizationCode := None,
                               accessTokenExpiryDate := Some(script(1).now + 3600))
        case FirstBranchVisit(_) => row.(state := PostOfficeVisited)
        case ThankYou(_) => row.(state := YotiSessionComplete)
        case Completion(_) => row.(state := CredentialIssued)
        case Abort(_) => row.(state := CriSessionAborted)
        case _ => row;
      Handle(st, req, sid, script).0.table == st.table[sid := row']
  {
    match req
    case SelectDocument(_, document) => SelectionRow(st, sid, document, script);
    case Authorize(_) => AuthorizationRow(st, sid, script);
    case Redeem(code) => TokenRow(st, code, sid, script);
    case FirstBranchVisit(y) => VisitRow(st, y, sid, script);
    case ThankYou(y) => UploadRow(st, y, sid, script);
    case Completion(y) => CompletionRow(st, y, sid, script);
    case Abort(_) => AbortRow(st, sid, script);
  }
}
