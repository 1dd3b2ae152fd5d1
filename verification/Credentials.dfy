/**
 How many credentials a session can be issued.

 Credentials and processed thank-you callbacks alternate in every run where each credential goes out
 while the session still awaits it, no other handler is between sending a credential for that session
 and recording it, and recording succeeds. Branch visits, aborts and every other handler may overwrite
 the state at any point in between. If recording fails once, a second credential can follow.
 */
module Credentials {
  import opened Wrappers
  import opened SessionModel
  import opened Protocol
  import opened Interleaving
  import opened Guards
  import opened Trails
  import opened Extending

  /** A handler that has sent a credential and has yet to record it. */
  ghost predicate Recording(w: World, t: nat, sid: SessionId) {
    t in w.flights && w.flights[t].sid == sid && (w.flights[t].stage.AuditIssued? || w.flights[t].stage.StoreIssued?)
  }

  /** Once a credential of the session is accepted, the document type is recognised and the last update succeeds. */
  predicate Records(w: World, a: Action, sid: SessionId)
    requires Enabled(w, a)
  {
    On(w, a, sid) ==>
      var stage := w.flights[a.ticket].stage;
      (stage.AuditIssued? ==> a.env.known) && (stage.StoreIssued? ==> a.env.ok)
  }

  /** The action keeps to the discipline under which credentials of the session are counted. */
  ghost predicate Settles(w: World, a: Action, sid: SessionId)
    requires Enabled(w, a)
  {
    && Records(w, a, sid)
    && (On(w, a, sid) && w.flights[a.ticket].stage.SendCredential? && a.env.ok ==> Awaits(w, sid))
  }

  ghost predicate AllSettle(w: World, acts: seq<Action>, sid: SessionId)
    requires IsRun(w, acts)
    decreases |acts|
  {
    acts == [] || (Settles(w, acts[0], sid) && AllSettle(Next(w, acts[0]), acts[1..], sid))
  }

  /** The update with which a thank-you callback has been processed. */
  function Thanked(sid: SessionId): Event { Stored(sid, SetAuthState(YotiSessionComplete)) }

  /** A thank-you has been processed since the last credential. */
  ghost predicate Armed(trail: seq<Event>, sid: SessionId) {
    trail != [] &&
    var last := trail[|trail| - 1];
    last == Thanked(sid) || (last != Credential(sid) && Armed(trail[..|trail| - 1], sid))
  }

  ghost predicate AllArmed(trail: seq<Event>, sid: SessionId) {
    forall i | 0 <= i < |trail| && trail[i] == Credential(sid) :: Armed(trail[..i], sid)
  }

  ghost predicate Awaits(w: World, sid: SessionId) {
    && sid in w.history && w.history[sid] != []
    && Current(w, sid) == YotiSessionComplete
    && forall t :: !Recording(w, t, sid)
  }

  ghost predicate CreditInv(w: World, sid: SessionId) {
    AllArmed(w.trail, sid) && (Awaits(w, sid) ==> Armed(w.trail, sid))
  }

  lemma ArmedAfter(trail: seq<Event>, e: Event, sid: SessionId)
    ensures Armed(trail + [e], sid) <==> e == Thanked(sid) || (e != Credential(sid) && Armed(trail, sid))
    ensures AllArmed(trail, sid) && (e == Credential(sid) ==> Armed(trail, sid)) ==> AllArmed(trail + [e], sid)
  {
    assert (trail + [e])[..|trail|] == trail;
    forall i | 0 <= i < |trail + [e]| && AllArmed(trail, sid) && (e == Credential(sid) ==> Armed(trail, sid))
      ensures (trail + [e])[i] == Credential(sid) ==> Armed((trail + [e])[..i], sid)
    {
      if i < |trail| { assert (trail + [e])[..i] == trail[..i]; }
    }
  }

  lemma CreditEvents(f: Flight, env: Env)
    ensures var e := EffectOf(f, env);
            && |e.events| <= 2
            && (forall ev | ev in e.events :: ev.sid == f.sid)
            && (Credential(f.sid) in e.events ==>
                  f.stage.SendCredential? && env.ok && e.events == [Credential(f.sid)] && e.outcome == Continue(AuditIssued))
  {
    FewEvents(f, env);
    var e := EffectOf(f, env);
    assert |e.events| > 0 && e.events[0] == Credential(f.sid) ==>
      f.stage.SendCredential? && env.ok && e.events == [Credential(f.sid)] && e.outcome == Continue(AuditIssued);
  }

  lemma CreditStages(f: Flight, env: Env, cur: Row)
    requires f.stage.StoreIssued? ==> env.ok
    requires f.stage.AuditIssued? ==> env.known
    ensures var e := EffectOf(f, env);
            && (e.update.Some? && Apply(e.update.value, cur).state == YotiSessionComplete ==>
                  e.events == [Thanked(f.sid)] || cur.state == YotiSessionComplete)
            && (f.stage.StoreIssued? ==> e.update == Some(SetAuthState(CredentialIssued)))
            && (f.stage.AuditIssued? ==> e.outcome == Continue(StoreIssued))
  {
  }

  /** Only a thank-you makes a session await a credential, and only recording ends the sending of one. */
  lemma AwaitsAfter(w: World, t: nat, env: Env, sid: SessionId)
    requires Inv(w) && Enabled(w, Advance(t, env)) && Settles(w, Advance(t, env), sid)
    requires Awaits(Next(w, Advance(t, env)), sid)
    ensures var events := EffectOf(w.flights[t], env).events;
            events == [Thanked(sid)] || (Awaits(w, sid) && Credential(sid) !in events)
  {
    var w' := Next(w, Advance(t, env));
    var f := w.flights[t];
    var e := EffectOf(f, env);
    CreditEvents(f, env);
    if f.sid == sid { CreditStages(f, env, Last(w.history[sid])); }
    forall u | Recording(w, u, sid) ensures false {
      assert Recording(w', u, sid);
    }
    assert Credential(f.sid) in e.events ==> Recording(w', t, f.sid);
  }

  lemma AdvanceCredit(w: World, t: nat, env: Env, sid: SessionId)
    requires Inv(w) && Enabled(w, Advance(t, env)) && Settles(w, Advance(t, env), sid)
    requires CreditInv(w, sid)
    ensures CreditInv(Next(w, Advance(t, env)), sid)
  {
    var f := w.flights[t];
    var events := EffectOf(f, env).events;
    CreditEvents(f, env);
    ExtendArmed(w.trail, events, sid);
    if Awaits(Next(w, Advance(t, env)), sid) { AwaitsAfter(w, t, env, sid); }
  }

  lemma StepCredit(w: World, a: Action, sid: SessionId)
    requires Inv(w) && CreditInv(w, sid) && Enabled(w, a) && Settles(w, a, sid)
    ensures CreditInv(Next(w, a), sid)
  {
    var w' := Next(w, a);
    if a.Advance? {
      AdvanceCredit(w, a.ticket, a.env, sid);
    } else if Awaits(w', sid) {
      assert w'.trail == w.trail;
      assert forall t :: Recording(w, t, sid) ==> Recording(w', t, sid);
    }
  }

  lemma ExtendArmed(trail: seq<Event>, events: seq<Event>, sid: SessionId)
    requires |events| <= 2 && AllArmed(trail, sid)
    requires Credential(sid) in events ==> Armed(trail, sid) && events == [Credential(sid)]
    ensures AllArmed(trail + events, sid)
    ensures events == [Thanked(sid)] ==> Armed(trail + events, sid)
    ensures Credential(sid) !in events && Armed(trail, sid) ==> Armed(trail + events, sid)
  {
    if |events| == 0 {
      assert trail + events == trail;
    } else {
      ArmedAfter(trail, events[0], sid);
      if |events| == 1 {
        assert trail + events == trail + [events[0]];
      } else {
        ArmedAfter(trail + [events[0]], events[1], sid);
        assert trail + events == trail + [events[0]] + [events[1]];
      }
    }
  }

  lemma {:induction false} RunCredit(w: World, acts: seq<Action>, sid: SessionId)
    requires Inv(w) && CreditInv(w, sid) && IsRun(w, acts) && AllSettle(w, acts, sid)
    ensures CreditInv(After(w, acts), sid)
    decreases |acts|
  {
    if acts != [] {
      NextKeepsInv(w, acts[0]);
      StepCredit(w, acts[0], sid);
      RunCredit(Next(w, acts[0]), acts[1..], sid);
    }
  }

  lemma {:induction false} ArmedBounds(trail: seq<Event>, sid: SessionId)
    requires AllArmed(trail, sid)
    ensures Count(trail, sid, CredentialSent) + (if Armed(trail, sid) then 1 else 0)
            <= Count(trail, sid, ThankYouStored)
  {
    if trail != [] {
      var n := |trail| - 1;
      forall i | 0 <= i < n && trail[..n][i] == Credential(sid) ensures Armed(trail[..n][..i], sid) {
        assert trail[..n][..i] == trail[..i];
      }
      ArmedBounds(trail[..n], sid);
    }
  }

  lemma {:induction false} ArmedSince(trail: seq<Event>, sid: SessionId, i: nat)
    requires i < |trail| && trail[i] == Credential(sid) && Armed(trail, sid)
    ensures exists k :: i < k < |trail| && trail[k] == Thanked(sid)
  {
    var n := |trail| - 1;
    if trail[n] != Thanked(sid) {
      ArmedSince(trail[..n], sid, i);
    }
  }

  /** Never more credentials than processed thank-you callbacks, and one of these between any two credentials. */
  lemma CredentialsAlternate(acts: seq<Action>, sid: SessionId, i: nat, j: nat)
    requires IsRun(EmptyWorld, acts) && AllSettle(EmptyWorld, acts, sid)
    ensures var trail := After(EmptyWorld, acts).trail;
            && Count(trail, sid, CredentialSent) <= Count(trail, sid, ThankYouStored)
            && (i < j < |trail| && trail[i] == trail[j] == Credential(sid) ==>
                  exists k :: i < k < j && trail[k] == Thanked(sid))
  {
    RunCredit(EmptyWorld, acts, sid);
    var trail := After(EmptyWorld, acts).trail;
    ArmedBounds(trail, sid);
    if i < j < |trail| && trail[i] == trail[j] == Credential(sid) {
      ArmedSince(trail[..j], sid, i);
    }
  }

  // ---------- when recording fails ----------

  /** A completion callback reads the current row ... */
  lemma ReachCheck(w0: World, acts: seq<Action>, w: World, sid: SessionId, t: nat)
    returns (acts': seq<Action>, f: Flight)
    requires IsRun(w0, acts) && After(w0, acts) == w && t !in w.flights
    requires sid in w.history && HistoryOk(sid, w.history[sid], w.trail) && Current(w, sid) == YotiSessionComplete
    ensures Reaches(w0, acts', w, t, f, [])
    ensures f.stage == CheckYoti && f.sid == sid && f.snap.state == YotiSessionComplete
  {
    var rows := w.history[sid];
    var row := Last(rows);
    assert row in rows;
    var req := Completion(row.yotiSessionId.value);
    var read := Start(t, req, sid, |rows| - 1, GOOD.(now := row.expiryDate));
    f := Flight(req, sid, |rows| - 1, row, CheckYoti);
    RunSnoc(w0, acts, read);
    acts' := acts + [read];
    assert w.trail + [] == w.trail;
  }

  /** ... goes on to the point where it sends the credential ... */
  lemma ReachSend(w0: World, acts: seq<Action>, w: World, f: Flight, t: nat)
    returns (acts': seq<Action>)
    requires Reaches(w0, acts, w, t, f, []) && f.sid in w.history && w.history[f.sid] != []
    requires f.stage == CheckYoti && f.snap.state == YotiSessionComplete
    ensures Reaches(w0, acts', w, t, f.(stage := SendCredential), [])
  {
    acts' := Turn(w0, acts, w, t, f, [], GOOD, AuditResponse);
    acts' := Turn(w0, acts', w, t, f.(stage := AuditResponse), [], BAD, BuildCredential);
    acts' := Turn(w0, acts', w, t, f.(stage := BuildCredential), [], GOOD, SendCredential);
  }

  /** ... and on to the point where it records it. */
  lemma ReachRecording(w0: World, acts: seq<Action>, w: World, f: Flight, t: nat)
    returns (acts': seq<Action>)
    requires Reaches(w0, acts, w, t, f, []) && f.sid in w.history && w.history[f.sid] != []
    requires f.stage == SendCredential
    ensures Reaches(w0, acts', w, t, f.(stage := StoreIssued), [Credential(f.sid)])
  {
    RunSnoc(w0, acts, Advance(t, GOOD));
    acts' := acts + [Advance(t, GOOD)];
    var f' := f.(stage := AuditIssued);
    assert w.flights[t := f][t := f'] == w.flights[t := f'];
    assert w.trail + [] + [Credential(f.sid)] == w.trail + [Credential(f.sid)];
    acts' := Turn(w0, acts', w, t, f', [Credential(f.sid)], BAD, StoreIssued);
  }

  /** A handler whose last update fails leaves nothing but what it has sent. */
  lemma FailToRecord(w0: World, acts: seq<Action>, w: World, f: Flight, t: nat, sent: seq<Event>)
    returns (acts': seq<Action>)
    requires Reaches(w0, acts, w, t, f, sent) && f.sid in w.history && w.history[f.sid] != []
    requires f.stage == StoreIssued && t !in w.flights
    ensures IsRun(w0, acts') && After(w0, acts') == World(w.history, w.flights, w.trail + sent)
  {
    RunSnoc(w0, acts, Advance(t, BAD));
    acts' := acts + [Advance(t, BAD)];
    assert w.flights[t := f] - {t} == w.flights;
    assert w.trail + sent + [] == w.trail + sent;
  }

  /** A completion callback whose credential is accepted and whose last update then fails. */
  lemma SendUnrecorded(w0: World, acts: seq<Action>, w: World, sid: SessionId, t: nat)
    returns (acts': seq<Action>, w': World)
    requires IsRun(w0, acts) && After(w0, acts) == w && t !in w.flights
    requires sid in w.history && HistoryOk(sid, w.history[sid], w.trail) && Current(w, sid) == YotiSessionComplete
    ensures IsRun(w0, acts') && After(w0, acts') == w' == World(w.history, w.flights, w.trail + [Credential(sid)])
  {
    var f;
    acts', f := ReachCheck(w0, acts, w, sid, t);
    acts' := ReachSend(w0, acts', w, f, t);
    acts' := ReachRecording(w0, acts', w, f.(stage := SendCredential), t);
    acts' := FailToRecord(w0, acts', w, f.(stage := StoreIssued), t, [Credential(sid)]);
    w' := After(w0, acts');
  }

  /**
   Recording must succeed for the count to hold: wherever a session awaits its credential, when one callback's
   last update fails the next one issues a second credential, with no thank-you between them, before it comes
   to its own last update.
   */
  lemma UnrecordedCredentialRepeats(w: World, sid: SessionId, t: nat) returns (acts: seq<Action>, f: Flight)
    requires Inv(w) && sid in w.history && t !in w.flights && w.history[sid] != []
    requires Current(w, sid) == YotiSessionComplete
    ensures IsRun(w, acts) && f.sid == sid && f.stage == StoreIssued
    ensures After(w, acts) == World(w.history, w.flights[t := f], w.trail + [Credential(sid), Credential(sid)])
  {
    var w1;
    acts, w1 := SendUnrecorded(w, [], w, sid, t);
    BackedGrows(sid, w.history[sid], w.trail, [Credential(sid)]);
    acts, f := ReachCheck(w, acts, w1, sid, t);
    acts := ReachSend(w, acts, w1, f, t);
    acts := ReachRecording(w, acts, w1, f.(stage := SendCredential), t);
    f := f.(stage := StoreIssued);
    assert w1.trail + [Credential(sid)] == w.trail + [Credential(sid), Credential(sid)];
  }
}
