/**
 What it costs to lose a guard. In every run, the guards of a session are held at every landing exactly when the
 two promises about it are kept: it never goes back, and it is not stored a Yoti id, a code or a token twice.
 Either one may be the one that breaks: a code is stored twice without any session going back, and a session
 goes back without anything being stored twice.
 */
module LostGuards {
  import opened Wrappers
  import opened SessionModel
  import opened Protocol
  import opened Interleaving
  import opened Guards
  import opened Trails
  import opened Extending

  /** The event that brought a session to a state of the OAuth half. */
  function Stamp(state: AuthSessionState): Option<Kind> {
    match state
    case YotiSessionCreated => Some(YotiIdStored)
    case AuthCodeIssued => Some(CodeStored)
    case AccessTokenIssued => Some(TokenStored)
    case _ => None
  }

  /** The state a session is in has its event on the trail. */
  ghost predicate Stamped(w: World, sid: SessionId) {
    sid in w.history && w.history[sid] != [] && Stamp(Current(w, sid)).Some? ==>
      Count(w.trail, sid, Stamp(Current(w, sid)).value) >= 1
  }

  lemma UpdateStamps(f: Flight, env: Env, cur: Row)
    requires StageOk(f.snap, f.stage) && EffectOf(f, env).update.Some?
    ensures var state := Apply(EffectOf(f, env).update.value, cur).state;
            Stamp(state).Some? ==>
              state == cur.state || Count(EffectOf(f, env).events, f.sid, Stamp(state).value) >= 1
  {
    FewEvents(f, env);
    var state := Apply(EffectOf(f, env).update.value, cur).state;
    if Stamp(state).Some? { CountFew(EffectOf(f, env).events, f.sid, Stamp(state).value); }
  }

  lemma StepCounts(w: World, a: Action, sid: SessionId, kind: Kind)
    requires Enabled(w, a)
    ensures Count(Next(w, a).trail, sid, kind) >= Count(w.trail, sid, kind)
    ensures a.Advance? ==>
      Count(Next(w, a).trail, sid, kind) ==
      Count(w.trail, sid, kind) + Count(EffectOf(w.flights[a.ticket], a.env).events, sid, kind)
  {
    if a.Advance? { CountAppend(w.trail, EffectOf(w.flights[a.ticket], a.env).events, sid, kind); }
  }

  lemma StepStamped(w: World, a: Action, sid: SessionId)
    requires Inv(w) && Stamped(w, sid) && Enabled(w, a)
    ensures Stamped(Next(w, a), sid)
  {
    var w' := Next(w, a);
    if sid in w'.history && w'.history[sid] != [] && Stamp(Current(w', sid)).Some? {
      StepCounts(w, a, sid, Stamp(Current(w', sid)).value);
      if a.Advance? && EffectOf(w.flights[a.ticket], a.env).update.Some? && sid == w.flights[a.ticket].sid {
        assert FlightOk(w.flights[a.ticket], w);
        UpdateStamps(w.flights[a.ticket], a.env, Last(w.history[sid]));
      }
    }
  }

  lemma {:induction false} RunCounts(w: World, acts: seq<Action>, sid: SessionId, kind: Kind)
    requires IsRun(w, acts)
    ensures Count(After(w, acts).trail, sid, kind) >= Count(w.trail, sid, kind)
    decreases |acts|
  {
    if acts != [] {
      StepCounts(w, acts[0], sid, kind);
      RunCounts(Next(w, acts[0]), acts[1..], sid, kind);
    }
  }

  /** The three updates a guard protects. */
  predicate Counted(kind: Kind) {
    kind == YotiIdStored || kind == CodeStored || kind == TokenStored
  }

  /** One of the two promises about a session is broken. */
  ghost predicate Broken(w: World, sid: SessionId) {
    || !ForwardOf(w, sid)
    || (exists kind :: Counted(kind) && Count(w.trail, sid, kind) >= 2)
  }

  /** States of the OAuth half are told apart by their rank. */
  lemma RankTells(s: AuthSessionState, t: AuthSessionState)
    requires Rank(s) == Rank(t) < 4
    ensures s == t
  {
  }

  lemma LossBreaks(w: World, a: Action)
    requires Inv(w) && Enabled(w, a) && !StillHeld(w, a)
    requires ForwardOf(w, w.flights[a.ticket].sid) && Stamped(w, w.flights[a.ticket].sid)
    ensures Broken(Next(w, a), w.flights[a.ticket].sid)
  {
    var f, w' := w.flights[a.ticket], Next(w, a);
    assert FlightOk(f, w);
    var rows := w.history[f.sid];
    var state := Apply(EffectOf(f, a.env).update.value, Last(rows)).state;
    GuardedUpdate(f, a.env, Last(rows));
    assert Onward(rows[f.seen], rows[|rows| - 1]);
    if Rank(Last(rows).state) == Rank(f.snap.state) {
      RankTells(Last(rows).state, f.snap.state);
    } else if Rank(Last(rows).state) == Rank(state) {
      RankTells(Last(rows).state, state);
      GuardStamp(f, a.env, Last(rows));
      StepCounts(w, a, f.sid, Stamp(state).value);
    } else {
      var rows' := w'.history[f.sid];
      assert !Onward(rows'[|rows| - 1], rows'[|rows|]);
    }
  }

  /** A guarded update leaves the event of the state it leads to. */
  lemma GuardStamp(f: Flight, env: Env, cur: Row)
    requires StageOk(f.snap, f.stage) && Guard(f.stage).Some? && EffectOf(f, env).update.Some?
    ensures var state := Apply(EffectOf(f, env).update.value, cur).state;
            Stamp(state).Some? && Counted(Stamp(state).value) && Count(EffectOf(f, env).events, f.sid, Stamp(state).value) >= 1
  {
    FewEvents(f, env);
    CountFew(EffectOf(f, env).events, f.sid, Stamp(Apply(EffectOf(f, env).update.value, cur).state).value);
  }

  /** A promise once broken stays broken. */
  lemma BrokenStays(w: World, acts: seq<Action>, sid: SessionId)
    requires Inv(w) && IsRun(w, acts) && Broken(w, sid)
    ensures Broken(After(w, acts), sid)
  {
    if kind :| Counted(kind) && Count(w.trail, sid, kind) >= 2 {
      RunCounts(w, acts, sid, kind);
    } else {
      var i, j :| 0 <= i <= j < |w.history[sid]| && !Onward(w.history[sid][i], w.history[sid][j]);
      RunGrows(w, acts, sid);
      var rows := After(w, acts).history[sid];
      assert !Onward(rows[i], rows[j]);
    }
  }

  lemma {:induction false} LossShows(w: World, acts: seq<Action>, sid: SessionId)
    requires Inv(w) && ForwardOf(w, sid) && Stamped(w, sid) && IsRun(w, acts) && !AllHeldOf(w, acts, sid)
    ensures Broken(After(w, acts), sid)
    decreases |acts|
  {
    NextKeepsInv(w, acts[0]);
    if On(w, acts[0], sid) && !StillHeld(w, acts[0]) {
      LossBreaks(w, acts[0]);
      BrokenStays(Next(w, acts[0]), acts[1..], sid);
    } else {
      StepForward(w, acts[0], sid);
      StepStamped(w, acts[0], sid);
      LossShows(Next(w, acts[0]), acts[1..], sid);
    }
  }

  /** Both promises about a session are kept: it has never gone back, and was stored each of the three once at most. */
  ghost predicate Kept(w: World, sid: SessionId) {
    ForwardOf(w, sid) && forall kind | Counted(kind) :: Count(w.trail, sid, kind) <= 1
  }

  /**
   In any interleaving, with any failures: the guards of a session are held at every landing if and only if both
   promises about it are kept.
   */
  lemma HeldExactly(acts: seq<Action>, sid: SessionId)
    requires IsRun(EmptyWorld, acts)
    ensures AllHeldOf(EmptyWorld, acts, sid) <==> Kept(After(EmptyWorld, acts), sid)
  {
    if AllHeldOf(EmptyWorld, acts, sid) {
      HandedOnce(acts, sid);
    } else {
      LossShows(EmptyWorld, acts, sid);
    }
  }

  /** So guards are held throughout if and only if both promises are kept about every session. */
  lemma HeldEverywhere(acts: seq<Action>)
    requires IsRun(EmptyWorld, acts)
    ensures AllHeld(EmptyWorld, acts) <==> forall sid :: Kept(After(EmptyWorld, acts), sid)
  {
    if AllHeld(EmptyWorld, acts) {
      forall sid ensures Kept(After(EmptyWorld, acts), sid) {
        HeldOf(EmptyWorld, acts, sid);
        HeldExactly(acts, sid);
      }
    } else {
      if forall sid :: AllHeldOf(EmptyWorld, acts, sid) { HeldOfAll(EmptyWorld, acts); }
      var sid :| !AllHeldOf(EmptyWorld, acts, sid);
      HeldExactly(acts, sid);
      assert !Kept(After(EmptyWorld, acts), sid);
    }
  }

  // ---------- a session that goes back ----------

  /** A token request and an abort of its session both read the row. */
  lemma BothRead(w: World, sid: SessionId, t: nat, u: nat) returns (acts: seq<Action>, f: Flight, g: Flight)
    requires Inv(w) && sid in w.history && w.history[sid] != [] && Current(w, sid) == AuthCodeIssued
    requires t !in w.flights && u !in w.flights && t != u
    ensures IsRun(w, acts) && After(w, acts) == w.(flights := w.flights[t := f][u := g])
    ensures f.stage == StoreToken && f.sid == sid && f.snap.state == AuthCodeIssued
    ensures g.stage == StoreAbort && g.sid == sid
  {
    var n := |w.history[sid]| - 1;
    var row := w.history[sid][n];
    assert row in w.history[sid];
    var code, read := row.authorizationCode.value, GOOD.(now := row.expiryDate);
    f := Flight(Redeem(code), sid, n, row, StoreToken);
    g := Flight(Abort(sid), sid, n, row, StoreAbort);
    RunSnoc(w, [], Start(t, Redeem(code), sid, n, read));
    assert [] + [Start(t, Redeem(code), sid, n, read)] == [Start(t, Redeem(code), sid, n, read)];
    RunSnoc(w, [Start(t, Redeem(code), sid, n, read)], Start(u, Abort(sid), sid, n, read));
    acts := [Start(t, Redeem(code), sid, n, read)] + [Start(u, Abort(sid), sid, n, read)];
  }

  /** The abort lands before the token request goes on ... */
  lemma AbortBetween(w: World, sid: SessionId, t: nat, u: nat) returns (acts: seq<Action>, f: Flight, w': World)
    requires Inv(w) && sid in w.history && w.history[sid] != [] && Current(w, sid) == AuthCodeIssued
    requires t !in w.flights && u !in w.flights && t != u
    ensures IsRun(w, acts) && After(w, acts) == w' && t in w'.flights && w'.flights[t] == f
    ensures f.stage == StoreToken && f.sid == sid && f.snap.state == AuthCodeIssued
    ensures w'.history == w.history[sid := w.history[sid] + [Last(w.history[sid]).(state := CriSessionAborted)]]
    ensures w'.trail == w.trail + [Stored(sid, SetAuthState(CriSessionAborted))]
  {
    var g;
    acts, f, g := BothRead(w, sid, t, u);
    RunSnoc(w, acts, Advance(u, GOOD));
    acts := acts + [Advance(u, GOOD)];
    w' := After(w, acts);
  }

  /** ... so that its update is lost ... */
  lemma TokenLands(w: World, sid: SessionId, t: nat, f: Flight)
    requires t in w.flights && w.flights[t] == f && f.stage == StoreToken && f.sid == sid && f.snap.state == AuthCodeIssued
    requires sid in w.history && w.history[sid] != [] && Current(w, sid) == CriSessionAborted
    ensures Enabled(w, Advance(t, GOOD)) && !StillHeld(w, Advance(t, GOOD))
    ensures var w' := Next(w, Advance(t, GOOD));
            && sid in w'.history
            && w'.history[sid] == w.history[sid] + [Apply(SetAccessTokenDetails(TOKEN_EXPIRY_SECONDS), Last(w.history[sid]))]
            && w'.trail == w.trail + [Stored(sid, SetAccessTokenDetails(TOKEN_EXPIRY_SECONDS)), TokenHanded(sid)]
  {
  }

  lemma BackFrom(w: World, sid: SessionId, n: nat)
    requires sid in w.history && |w.history[sid]| == n + 2
    requires w.history[sid][n].state == CriSessionAborted && w.history[sid][n + 1].state == AccessTokenIssued
    ensures !ForwardOf(w, sid)
  {
    assert !Onward(w.history[sid][n], w.history[sid][n + 1]);
  }

  /**
   ... although the token is handed out all the same: wherever a session awaits its token, a run takes it from
   aborted back to ACCESS_TOKEN_ISSUED, and stores nothing of the OAuth half but that one token.
   */
  lemma SessionGoesBack(w: World, sid: SessionId, t: nat, u: nat) returns (acts: seq<Action>)
    requires Inv(w) && sid in w.history && w.history[sid] != [] && Current(w, sid) == AuthCodeIssued
    requires t !in w.flights && u !in w.flights && t != u
    ensures IsRun(w, acts) && !AllHeld(w, acts)
    ensures var w', n := After(w, acts), |w.history[sid]|;
            && sid in w'.history && |w'.history[sid]| == n + 2
            && w'.history[sid][n].state == CriSessionAborted && w'.history[sid][n + 1].state == AccessTokenIssued
            && !ForwardOf(w', sid)
            && w'.trail == w.trail + [Stored(sid, SetAuthState(CriSessionAborted)),
                                      Stored(sid, SetAccessTokenDetails(TOKEN_EXPIRY_SECONDS)), TokenHanded(sid)]
  {
    var f, w1;
    acts, f, w1 := AbortBetween(w, sid, t, u);
    TokenLands(w1, sid, t, f);
    HeldSnoc(w, acts, Advance(t, GOOD));
    acts := acts + [Advance(t, GOOD)];
    BackFrom(After(w, acts), sid, |w.history[sid]|);
  }
}
