/**
 A whole journey: a session is opened, a document selected, a code and a token handed out, the branch
 visited, the documents uploaded and a credential issued, on any table and whatever becomes of the audit
 events whose loss is only logged.
 */
module Journey {
  import opened Wrappers
  import opened SessionModel
  import opened Protocol
  import opened HandlerSpec
  import opened Outcomes

  /** The calls up to number `last` succeed, but for those whose failure is only logged, before the session expires. */
  ghost predicate Smooth(script: Script, last: nat, expiryDate: int, logged: set<nat>) {
    script(0).now <= expiryDate && forall i | 0 <= i <= last :: (script(i).ok || i in logged) && script(i).known
  }

  /** No session but this one has the Yoti id or the code. */
  predicate Unused(table: map<SessionId, Row>, sid: SessionId, y: string, code: string) {
    forall s | s in table && s != sid :: table[s].yotiSessionId != Some(y) && table[s].authorizationCode != Some(code)
  }

  /** The handler finds the session and answers with success. */
  ghost predicate Succeeds(st: Store, req: Request, sid: SessionId, script: Script, st': Store) {
    Found(st.table, req, sid) && Handle(st, req, sid, script) == (st', Reply(200))
  }

  /** `after` is `before` with another row for the session, and with these events added. */
  ghost predicate Moves(before: Store, after: Store, sid: SessionId, row: Row, added: seq<Event>) {
    && after.table == before.table[sid := row]
    && after.trail == before.trail + added
  }

  function SelectionEvents(sid: SessionId, documentType: DocumentType, a: Script): seq<Event> {
    [LetterStarted(sid, a(1).id), Stored(sid, SetYotiIdAndStatus(a(1).id)), Stored(sid, SetTtl(a(4).now + AUTH_SESSION_TTL_SECS)),
     Stored(sid, SetDocumentUsed(documentType))] + If(a(7).ok, Audit(sid, YotiStart))
  }

  function CodeEvents(sid: SessionId, b: Script): seq<Event> {
    [Stored(sid, SetAuthorizationCode(b(1).id))] + If(b(2).ok, Audit(sid, AuthCodeIssuedEvent)) +
    If(b(3).ok, Audit(sid, CriEnd)) + [CodeHanded(sid, b(1).id)]
  }

  function TokenEvents(sid: SessionId, c: Script): seq<Event> {
    [Stored(sid, SetAccessTokenDetails(c(1).now + TOKEN_EXPIRY_SECONDS)), TokenHanded(sid)]
  }

  function VisitEvents(sid: SessionId): seq<Event> {
    [Stored(sid, SetAuthState(PostOfficeVisited))]
  }

  function UploadEvents(sid: SessionId): seq<Event> {
    [Audit(sid, DocumentUploaded), Stored(sid, SetAuthState(YotiSessionComplete))]
  }

  function CredentialEvents(sid: SessionId, f: Script): seq<Event> {
    If(f(2).ok, Audit(sid, YotiResponseReceived)) +
    ([Credential(sid)] + If(f(5).ok, Audit(sid, VcIssued)) + [Stored(sid, SetAuthState(CredentialIssued))])
  }

  lemma SelectionStep(st: Store, sid: SessionId, document: Selection, a: Script) returns (st': Store)
    requires sid in st.table && st.table[sid].state == SessionCreated && st.table[sid].yotiSessionId == None
    requires DocumentTypeOf(document).Some? && Smooth(a, 6, st.table[sid].expiryDate, {})
    ensures Succeeds(st, SelectDocument(sid, document), sid, a, st')
    ensures Moves(st, st', sid,
                  st.table[sid].(yotiSessionId := Some(a(1).id), state := YotiSessionCreated,
                                 expiryDate := a(4).now + AUTH_SESSION_TTL_SECS,
                                 documentUsed := Some(DocumentTypeOf(document).value)),
                  SelectionEvents(sid, DocumentTypeOf(document).value, a))
  {
    SelectionOutcome(st, sid, document, a);
    SelectionRow(st, sid, document, a);
    st' := Handle(st, SelectDocument(sid, document), sid, a).0;
  }

  lemma CodeStep(st: Store, sid: SessionId, b: Script) returns (st': Store)
    requires sid in st.table && st.table[sid].state == YotiSessionCreated && Smooth(b, 1, st.table[sid].expiryDate, {})
    ensures Succeeds(st, Authorize(sid), sid, b, st')
    ensures Moves(st, st', sid, st.table[sid].(authorizationCode := Some(b(1).id), state := AuthCodeIssued), CodeEvents(sid, b))
  {
    AuthorizationOutcome(st, sid, b);
    AuthorizationRow(st, sid, b);
    st' := Handle(st, Authorize(sid), sid, b).0;
  }

  lemma TokenStep(st: Store, sid: SessionId, code: string, y: string, c: Script) returns (st': Store)
    requires sid in st.table && st.table[sid].state == AuthCodeIssued && st.table[sid].authorizationCode == Some(code)
    requires Unused(st.table, sid, y, code) && Smooth(c, 1, st.table[sid].expiryDate, {})
    ensures Succeeds(st, Redeem(code), sid, c, st')
    ensures Moves(st, st', sid, st.table[sid].(state := AccessTokenIssued, authorizationCode := None,
                                               accessTokenExpiryDate := Some(c(1).now + TOKEN_EXPIRY_SECONDS)),
                  TokenEvents(sid, c))
  {
    TokenOutcome(st, code, sid, c);
    TokenRow(st, code, sid, c);
    st' := Handle(st, Redeem(code), sid, c).0;
  }

  lemma VisitStep(st: Store, sid: SessionId, code: string, y: string, d: Script) returns (st': Store)
    requires sid in st.table && st.table[sid].yotiSessionId == Some(y)
    requires Unused(st.table, sid, y, code) && Smooth(d, 1, st.table[sid].expiryDate, {})
    ensures Succeeds(st, FirstBranchVisit(y), sid, d, st')
    ensures Moves(st, st', sid, st.table[sid].(state := PostOfficeVisited), VisitEvents(sid))
  {
    VisitOutcome(st, y, sid, d);
    VisitRow(st, y, sid, d);
    st' := Handle(st, FirstBranchVisit(y), sid, d).0;
  }

  lemma UploadStep(st: Store, sid: SessionId, code: string, y: string, e: Script) returns (st': Store)
    requires sid in st.table && st.table[sid].yotiSessionId == Some(y)
    requires Unused(st.table, sid, y, code) && Smooth(e, 3, st.table[sid].expiryDate, {})
    ensures Succeeds(st, ThankYou(y), sid, e, st')
    ensures Moves(st, st', sid, st.table[sid].(state := YotiSessionComplete), UploadEvents(sid))
  {
    UploadOutcome(st, y, sid, e);
    UploadRow(st, y, sid, e);
    st' := Handle(st, ThankYou(y), sid, e).0;
  }

  lemma CredentialStep(st: Store, sid: SessionId, code: string, y: string, f: Script) returns (st': Store)
    requires sid in st.table && st.table[sid].yotiSessionId == Some(y) && st.table[sid].state == YotiSessionComplete
    requires Unused(st.table, sid, y, code) && Smooth(f, 6, st.table[sid].expiryDate, {2, 5})
    ensures Succeeds(st, Completion(y), sid, f, st')
    ensures Moves(st, st', sid, st.table[sid].(state := CredentialIssued), CredentialEvents(sid, f))
  {
    CompletionOutcome(st, y, sid, f);
    CompletionRow(st, y, sid, f);
    st' := Handle(st, Completion(y), sid, f).0;
  }

  lemma MovesThen(st: Store, st1: Store, st2: Store, sid: SessionId, r1: Row, r2: Row, a: seq<Event>, b: seq<Event>)
    requires Moves(st, st1, sid, r1, a) && Moves(st1, st2, sid, r2, b)
    ensures Moves(st, st2, sid, r2, a + b)
  {
    assert st.trail + a + b == st.trail + (a + b);
    assert st.table[sid := r1][sid := r2] == st.table[sid := r2];
  }

  lemma UnusedAfter(st: Store, st': Store, sid: SessionId, row: Row, added: seq<Event>, y: string, code: string)
    requires Moves(st, st', sid, row, added) && Unused(st.table, sid, y, code)
    ensures Unused(st'.table, sid, y, code)
  {
  }

  /** The OAuth half: from a new session to an access token. */
  lemma TokenReached(st: Store, sid: SessionId, document: Selection, a: Script, b: Script, c: Script)
    returns (st1: Store, st2: Store, st3: Store)
    requires sid in st.table && st.table[sid].state == SessionCreated && st.table[sid].yotiSessionId == None
    requires DocumentTypeOf(document).Some? && Smooth(a, 6, st.table[sid].expiryDate, {})
    requires var expiry := a(4).now + AUTH_SESSION_TTL_SECS; Smooth(b, 1, expiry, {}) && Smooth(c, 1, expiry, {})
    requires Unused(st.table, sid, a(1).id, b(1).id)
    ensures Succeeds(st, SelectDocument(sid, document), sid, a, st1)
    ensures Succeeds(st1, Authorize(sid), sid, b, st2) && Succeeds(st2, Redeem(b(1).id), sid, c, st3)
    ensures Moves(st, st3, sid,
                  st.table[sid].(yotiSessionId := Some(a(1).id), state := AccessTokenIssued, authorizationCode := None,
                                 accessTokenExpiryDate := Some(c(1).now + TOKEN_EXPIRY_SECONDS),
                                 expiryDate := a(4).now + AUTH_SESSION_TTL_SECS,
                                 documentUsed := Some(DocumentTypeOf(document).value)),
                  SelectionEvents(sid, DocumentTypeOf(document).value, a) + CodeEvents(sid, b) + TokenEvents(sid, c))
    ensures Unused(st3.table, sid, a(1).id, b(1).id)
  {
    var y, code := a(1).id, b(1).id;
    var selected, coded := SelectionEvents(sid, DocumentTypeOf(document).value, a), CodeEvents(sid, b);
    st1 := SelectionStep(st, sid, document, a);
    UnusedAfter(st, st1, sid, st1.table[sid], selected, y, code);
    st2 := CodeStep(st1, sid, b);
    UnusedAfter(st1, st2, sid, st2.table[sid], coded, y, code);
    st3 := TokenStep(st2, sid, code, y, c);
    UnusedAfter(st2, st3, sid, st3.table[sid], TokenEvents(sid, c), y, code);
    MovesThen(st, st1, st2, sid, st1.table[sid], st2.table[sid], selected, coded);
    MovesThen(st, st2, st3, sid, st2.table[sid], st3.table[sid], selected + coded, TokenEvents(sid, c));
  }

  /** The post office half: from any state to a credential. */
  lemma CredentialReached(st: Store, sid: SessionId, y: string, code: string, d: Script, e: Script, f: Script)
    returns (st1: Store, st2: Store, st3: Store)
    requires sid in st.table && st.table[sid].yotiSessionId == Some(y) && Unused(st.table, sid, y, code)
    requires Smooth(d, 1, st.table[sid].expiryDate, {}) && Smooth(e, 3, st.table[sid].expiryDate, {})
    requires Smooth(f, 6, st.table[sid].expiryDate, {2, 5})
    ensures Succeeds(st, FirstBranchVisit(y), sid, d, st1) && Succeeds(st1, ThankYou(y), sid, e, st2)
    ensures Succeeds(st2, Completion(y), sid, f, st3)
    ensures Moves(st, st3, sid, st.table[sid].(state := CredentialIssued),
                  VisitEvents(sid) + UploadEvents(sid) + CredentialEvents(sid, f))
  {
    st1 := VisitStep(st, sid, code, y, d);
    UnusedAfter(st, st1, sid, st1.table[sid], VisitEvents(sid), y, code);
    st2 := UploadStep(st1, sid, code, y, e);
    UnusedAfter(st1, st2, sid, st2.table[sid], UploadEvents(sid), y, code);
    st3 := CredentialStep(st2, sid, code, y, f);
    MovesThen(st, st1, st2, sid, st1.table[sid], st2.table[sid], VisitEvents(sid), UploadEvents(sid));
    MovesThen(st, st2, st3, sid, st2.table[sid], st3.table[sid], VisitEvents(sid) + UploadEvents(sid), CredentialEvents(sid, f));
  }

  /** The row of a session whose journey is over. */
  function FinalRow(now: int, documentType: DocumentType, a: Script, c: Script): Row {
    Row(CredentialIssued, Some(a(1).id), None, Some(c(1).now + TOKEN_EXPIRY_SECONDS), now,
        a(4).now + AUTH_SESSION_TTL_SECS, false, false, Some(documentType))
  }

  /**
   On any table, a new session whose six requests each succeed ends with its credential issued: every lookup
   finds it, the trail gets exactly the events of the six requests, in order, and no other row changes.
   */
  lemma JourneySucceeds(st: Store, sid: SessionId, now: int, document: Selection,
                        a: Script, b: Script, c: Script, d: Script, e: Script, f: Script)
    returns (st1: Store, st2: Store, st3: Store, st4: Store, st5: Store, st6: Store)
    requires sid in st.table && st.table[sid] == NewRow(now)
    requires DocumentTypeOf(document).Some? && Unused(st.table, sid, a(1).id, b(1).id)
    requires Smooth(a, 6, now + AUTH_SESSION_TTL_SECS, {})
    requires var expiry := a(4).now + AUTH_SESSION_TTL_SECS;
             && Smooth(b, 1, expiry, {}) && Smooth(c, 1, expiry, {}) && Smooth(d, 1, expiry, {})
             && Smooth(e, 3, expiry, {}) && Smooth(f, 6, expiry, {2, 5})
    ensures Succeeds(st, SelectDocument(sid, document), sid, a, st1) && Succeeds(st1, Authorize(sid), sid, b, st2)
    ensures Succeeds(st2, Redeem(b(1).id), sid, c, st3) && Succeeds(st3, FirstBranchVisit(a(1).id), sid, d, st4)
    ensures Succeeds(st4, ThankYou(a(1).id), sid, e, st5) && Succeeds(st5, Completion(a(1).id), sid, f, st6)
    ensures Moves(st, st6, sid, FinalRow(now, DocumentTypeOf(document).value, a, c),
                  SelectionEvents(sid, DocumentTypeOf(document).value, a) + CodeEvents(sid, b) + TokenEvents(sid, c) +
                  (VisitEvents(sid) + UploadEvents(sid) + CredentialEvents(sid, f)))
  {
    st1, st2, st3 := TokenReached(st, sid, document, a, b, c);
    st4, st5, st6 := CredentialReached(st3, sid, a(1).id, b(1).id, d, e, f);
    MovesThen(st, st3, st6, sid, st3.table[sid], st6.table[sid],
              SelectionEvents(sid, DocumentTypeOf(document).value, a) + CodeEvents(sid, b) + TokenEvents(sid, c),
              VisitEvents(sid) + UploadEvents(sid) + CredentialEvents(sid, f));
  }
}
