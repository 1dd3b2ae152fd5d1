/**
 The request handlers as the service writes them: reads, guards, calls and early exits over one
 mutable session table. Each is proved to do exactly what one invocation of the protocol does.
 */
module Handlers {
  import opened Wrappers
  import opened SessionModel
  import opened Protocol
  import opened HandlerSpec

  class F2fService {
    var table: map<SessionId, Row>
    var trail: seq<Event>

    constructor ()
      ensures View() == Store(map[], [])
    {
      table, trail := map[], [];
    }

    ghost function View(): Store
      reads this
    {
      Store(table, trail)
    }

    // ---------- calls to the table and the queues ----------

    /** The row a request looks up, by its key or by a secondary index; none unless exactly one matches. */
    method Find(req: Request) returns (found: Option<SessionId>)
      ensures found.Some? ==> Found(table, req, found.value)
      ensures found.None? ==> forall sid :: !Found(table, req, sid)
    {
      var hits := set sid | sid in table && Matches(req, sid, table[sid]);
      forall sid | Found(table, req, sid) ensures |hits| == 1 { FoundIsOnlyHit(table, req, sid); }
      if |hits| != 1 {
        return None;
      }
      var sid :| sid in hits;
      OnlyHitIsFound(table, req, sid);
      return Some(sid);
    }

    /** Sends one update command. */
    method Update(sid: SessionId, update: Update, env: Env) returns (ok: bool)
      requires sid in table
      modifies this
      ensures ok == env.ok
      ensures ok ==> table == old(table)[sid := Apply(update, old(table)[sid])] && trail == old(trail) + [Stored(sid, update)]
      ensures !ok ==> View() == old(View())
    {
      if env.ok {
        table := table[sid := Apply(update, table[sid])];
        trail := trail + [Stored(sid, update)];
      }
      return env.ok;
    }

    /** Puts one message on a queue, or starts a state machine. */
    method Send(event: Event, env: Env) returns (ok: bool)
      modifies this`trail
      ensures ok == env.ok
      ensures trail == if ok then old(trail) + [event] else old(trail)
    {
      if env.ok {
        trail := trail + [event];
      }
      return env.ok;
    }

    // ---------- the handlers ----------

    /**
     Saves a new session, then its person; nothing when the lookup fails or finds the identifier taken. When
     only the second write fails the caller is refused, and the session is there all the same.
     */
    method CreateSession(sessionId: SessionId, now: int, lookedUp: bool, saved: bool, personSaved: bool)
      returns (response: Response)
      modifies this`table
      ensures sessionId in old(table) || !lookedUp || !saved ==> table == old(table) && response == Reply(500)
      ensures sessionId !in old(table) && lookedUp && saved ==>
        && table == old(table)[sessionId := Row(SessionCreated, None, None, None, now, now + 1814400, false, false, None)]
        && response == Reply(if personSaved then 200 else 500)
    {
      if !lookedUp || sessionId in table {
        return Reply(500);
      }
      if !saved {
        return Reply(500);
      }
      table := table[sessionId := NewRow(now)];
      return if personSaved then Reply(200) else Reply(500);
    }

    /** One invocation of a handler, other than the completion callback. */
    method Process(req: Request, lookedUp: bool, script: Script) returns (response: Response)
      requires !IsJob(req) && !req.Completion?
      modifies this
      ensures Serves(old(View()), req, lookedUp, script, View(), response)
      ensures !lookedUp ==> View() == old(View()) && response == if req.Redeem? then Reply(401) else Thrown(500)
      ensures lookedUp && (forall sid :: !Found(old(table), req, sid)) ==>
        View() == old(View()) &&
        response == if req.SelectDocument? || req.Abort? then Thrown(400)
                    else if req.Authorize? then Reply(401)
                    else if req.Redeem? then Reply(500)
                    else Thrown(500)
    {
      if !lookedUp {
        return LookupFailed(req);
      }
      var found := Find(req);
      if found.None? {
        return NotFound(req);
      }
      if table[found.value].expiryDate < script(0).now {
        return Expired(req);
      }
      match req
      case SelectDocument(_, _) => response := ProcessDocumentSelection(req, found.value, script);
      case Authorize(_) => response := ProcessAuthorization(req, found.value, script);
      case Redeem(_) => response := ProcessAccessToken(req, found.value, script);
      case FirstBranchVisit(_) => response := ProcessFirstBranchVisit(req, found.value, script);
      case ThankYou(_) => response := ProcessThankYouEmail(req, found.value, script);
      case Abort(_) => response := ProcessAbort(req, found.value, script);
    }

    method ProcessDocumentSelection(req: Request, sid: SessionId, script: Script) returns (response: Response)
      requires req.SelectDocument? && sid in table && script(0).now <= table[sid].expiryDate
      modifies this
      ensures (View(), response) == Handle(old(View()), req, sid, script)
    {
      ghost var goal := Handle(View(), req, sid, script);
      var session := table[sid];
      if !script(0).ok {
        return Refusal(script(0));
      }
      if session.state != SessionCreated || session.yotiSessionId != None {
        return Reply(401);
      }
      if !script(1).ok {
        return Reply(500);
      }
      var yotiSessionId := script(1).id;
      assert Drive(View(), req, sid, session, StartLetterMachine(yotiSessionId), script, 2) == goal;
      var started := Send(LetterStarted(sid, yotiSessionId), script(2));
      if !started {
        return Reply(500);
      }
      assert Drive(View(), req, sid, session, StoreYotiId(yotiSessionId), script, 3) == goal;
      response := StoreSelection(req, sid, session, yotiSessionId, script);
    }

    /** The four updates that follow the start of the letter state machine, in the order they are sent. */
    method StoreSelection(req: Request, sid: SessionId, ghost session: Row, yotiSessionId: string, script: Script)
      returns (response: Response)
      requires req.SelectDocument? && sid in table
      modifies this
      ensures (View(), response) == Drive(old(View()), req, sid, session, StoreYotiId(yotiSessionId), script, 3)
    {
      ghost var goal := Drive(View(), req, sid, session, StoreYotiId(yotiSessionId), script, 3);
      var stored := Update(sid, SetYotiIdAndStatus(yotiSessionId), script(3));
      if !stored {
        return Reply(500);
      }
      assert Drive(View(), req, sid, session, ExtendSessionTtl, script, 4) == goal;
      var updatedTtl := script(4).now + AUTH_SESSION_TTL_SECS;
      var extended := Update(sid, SetTtl(updatedTtl), script(4));
      if !extended {
        return Reply(500);
      }
      assert Drive(View(), req, sid, session, ExtendPersonTtl, script, 5) == goal;
      if !script(5).ok {
        return Reply(500);
      }
      response := RecordDocument(req, sid, session, script);
    }

    method RecordDocument(req: Request, sid: SessionId, ghost session: Row, script: Script) returns (response: Response)
      requires req.SelectDocument? && sid in table
      modifies this
      ensures (View(), response) == Drive(old(View()), req, sid, session, StoreDocument, script, 6)
    {
      var documentType := DocumentTypeOf(req.document);
      if documentType == None {
        return Thrown(500);
      }
      var recorded := Update(sid, SetDocumentUsed(documentType.value), script(6));
      if !recorded {
        return Reply(500);
      }
      assert Drive(View(), req, sid, session, AuditYotiStart, script, 7)
          == Drive(old(View()), req, sid, session, StoreDocument, script, 6);
      var _ := Send(Audit(sid, YotiStart), script(7));
      return Reply(200);
    }

    method ProcessAuthorization(req: Request, sid: SessionId, script: Script) returns (response: Response)
      requires req.Authorize? && sid in table && script(0).now <= table[sid].expiryDate
      modifies this
      ensures (View(), response) == Handle(old(View()), req, sid, script)
    {
      ghost var goal := Handle(View(), req, sid, script);
      var session := table[sid];
      if session.state != YotiSessionCreated {
        return Reply(401);
      }
      assert Drive(View(), req, sid, session, StoreCode, script, 1) == goal;
      var code := script(1).id;
      var stored := Update(sid, SetAuthorizationCode(code), script(1));
      if !stored {
        return Thrown(500);
      }
      assert Drive(View(), req, sid, session, AuditCode(code), script, 2) == goal;
      var _ := Send(Audit(sid, AuthCodeIssuedEvent), script(2));
      assert Drive(View(), req, sid, session, AuditEnd(code), script, 3) == goal;
      ghost var before := trail;
      var _ := Send(Audit(sid, CriEnd), script(3));
      trail := trail + [CodeHanded(sid, code)];
      assert trail == before + ((if script(3).ok then [Audit(sid, CriEnd)] else []) + [CodeHanded(sid, code)]);
      return Reply(200);
    }

    method ProcessAccessToken(req: Request, sid: SessionId, script: Script) returns (response: Response)
      requires req.Redeem? && sid in table && script(0).now <= table[sid].expiryDate
      modifies this
      ensures (View(), response) == Handle(old(View()), req, sid, script)
    {
      var session := table[sid];
      if !script(0).ok {
        return Reply(script(0).status);
      }
      if session.state != AuthCodeIssued {
        return Reply(401);
      }
      if !script(0).known {
        return Reply(script(0).status);
      }
      var expiry := script(1).now + TOKEN_EXPIRY_SECONDS;
      ghost var before := trail;
      var stored := Update(sid, SetAccessTokenDetails(expiry), script(1));
      if !stored {
        return Reply(500);
      }
      trail := trail + [TokenHanded(sid)];
      assert trail == before + [Stored(sid, SetAccessTokenDetails(expiry)), TokenHanded(sid)];
      return Reply(200);
    }

    method ProcessFirstBranchVisit(req: Request, sid: SessionId, script: Script) returns (response: Response)
      requires req.FirstBranchVisit? && sid in table && script(0).now <= table[sid].expiryDate
      modifies this
      ensures (View(), response) == Handle(old(View()), req, sid, script)
    {
      var stored := Update(sid, SetAuthState(PostOfficeVisited), script(1));
      return if stored then Reply(200) else Thrown(500);
    }

    method ProcessThankYouEmail(req: Request, sid: SessionId, script: Script) returns (response: Response)
      requires req.ThankYou? && sid in table && script(0).now <= table[sid].expiryDate
      modifies this
      ensures (View(), response) == Handle(old(View()), req, sid, script)
    {
      ghost var goal := Handle(View(), req, sid, script);
      var session := table[sid];
      if !script(0).ok {
        return Refusal(script(0));
      }
      if !script(1).ok {
        return Thrown(500);
      }
      assert Drive(View(), req, sid, session, AuditUpload, script, 2) == goal;
      var sent := Send(Audit(sid, DocumentUploaded), script(2));
      if !sent {
        return Thrown(500);
      }
      assert Drive(View(), req, sid, session, StoreComplete, script, 3) == goal;
      var stored := Update(sid, SetAuthState(YotiSessionComplete), script(3));
      return if stored then Reply(200) else Thrown(500);
    }

    method ProcessAbort(req: Request, sid: SessionId, script: Script) returns (response: Response)
      requires req.Abort? && sid in table && script(0).now <= table[sid].expiryDate
      modifies this
      ensures (View(), response) == Handle(old(View()), req, sid, script)
    {
      ghost var goal := Handle(View(), req, sid, script);
      var session := table[sid];
      if session.state == CriSessionAborted {
        return Reply(200);
      }
      assert Drive(View(), req, sid, session, StoreAbort, script, 1) == goal;
      var stored := Update(sid, SetAuthState(CriSessionAborted), script(1));
      if !stored {
        return Reply(500);
      }
      assert Drive(View(), req, sid, session, AuditAbort, script, 2) == goal;
      var _ := Send(Audit(sid, SessionAbortedEvent), script(2));
      return Reply(200);
    }
  }
}
