/**
 What holds while guards still hold.

 Document selection, authorization and the token request check the state they read and later store an
 update that assumes it. When each of these three updates lands on a row still in the state its
 handler checked, a session moves forward only, and is handed one code and one token at most. That
 condition is exactly what makes the three updates raise the rank.
 */
module Guards {
  import opened Wrappers
  import opened SessionModel
  import opened Protocol
  import opened Interleaving
  import opened Trails

  /** The state a guarded update assumes. */
  function Guard(stage: Stage): Option<AuthSessionState> {
    match stage
    case StoreYotiId(_) => Some(SessionCreated)
    case StoreCode => Some(YotiSessionCreated)
    case StoreToken => Some(AuthCodeIssued)
    case _ => None
  }

  function Current(w: World, sid: SessionId): AuthSessionState
    requires sid in w.history && w.history[sid] != []
  {
    Last(w.history[sid]).state
  }

  /** The action lands a guarded update. */
  predicate Lands(w: World, a: Action)
    requires Enabled(w, a)
  {
    a.Advance? && Guard(w.flights[a.ticket].stage).Some? && EffectOf(w.flights[a.ticket], a.env).update.Some?
  }

  /** A guarded update finds the row in the state its handler checked, as a conditional write would enforce. */
  predicate StillHeld(w: World, a: Action)
    requires Enabled(w, a)
  {
    Lands(w, a) ==> Some(Current(w, w.flights[a.ticket].sid)) == Guard(w.flights[a.ticket].stage)
  }

  /** The action is a step of a handler of this session. */
  predicate On(w: World, a: Action, sid: SessionId)
    requires Enabled(w, a)
  {
    a.Advance? && w.flights[a.ticket].sid == sid
  }

  /** A guarded update moves its session strictly forward. */
  predicate Raises(w: World, a: Action)
    requires Enabled(w, a)
  {
    Lands(w, a) ==>
      var sid := w.flights[a.ticket].sid;
      sid in Next(w, a).history && Next(w, a).history[sid] != [] &&
      Rank(Current(w, sid)) < Rank(Current(Next(w, a), sid))
  }

  ghost predicate AllHeld(w: World, acts: seq<Action>)
    requires IsRun(w, acts)
    decreases |acts|
  {
    acts == [] || (StillHeld(w, acts[0]) && AllHeld(Next(w, acts[0]), acts[1..]))
  }

  /** The guards of one session are held at every landing. */
  ghost predicate AllHeldOf(w: World, acts: seq<Action>, sid: SessionId)
    requires IsRun(w, acts)
    decreases |acts|
  {
    acts == [] || ((On(w, acts[0], sid) ==> StillHeld(w, acts[0])) && AllHeldOf(Next(w, acts[0]), acts[1..], sid))
  }

  ghost predicate AllRaiseOf(w: World, acts: seq<Action>, sid: SessionId)
    requires IsRun(w, acts)
    decreases |acts|
  {
    acts == [] || ((On(w, acts[0], sid) ==> Raises(w, acts[0])) && AllRaiseOf(Next(w, acts[0]), acts[1..], sid))
  }

  lemma {:induction false} HeldOf(w: World, acts: seq<Action>, sid: SessionId)
    requires IsRun(w, acts) && AllHeld(w, acts)
    ensures AllHeldOf(w, acts, sid)
    decreases |acts|
  {
    if acts != [] {
      HeldOf(Next(w, acts[0]), acts[1..], sid);
    }
  }

  /** Guards are held at every landing if those of each session are. */
  lemma {:induction false} HeldOfAll(w: World, acts: seq<Action>)
    requires IsRun(w, acts) && forall sid :: AllHeldOf(w, acts, sid)
    ensures AllHeld(w, acts)
    decreases |acts|
  {
    if acts != [] {
      var a := acts[0];
      if a.Advance? { assert AllHeldOf(w, acts, w.flights[a.ticket].sid); }
      forall sid ensures AllHeldOf(Next(w, a), acts[1..], sid) { assert AllHeldOf(w, acts, sid); }
      HeldOfAll(Next(w, a), acts[1..]);
    }
  }

  /** A later version of a row is no further back, and has the Yoti id an earlier one had. */
  ghost predicate Onward(earlier: Row, later: Row) {
    && Rank(earlier.state) <= Rank(later.state)
    && (earlier.yotiSessionId.Some? ==> later.yotiSessionId == earlier.yotiSessionId)
  }

  /** The session has never gone back. */
  ghost predicate ForwardOf(w: World, sid: SessionId) {
    sid in w.history ==> forall i, j | 0 <= i <= j < |w.history[sid]| :: Onward(w.history[sid][i], w.history[sid][j])
  }

  ghost predicate Forward(w: World) {
    forall sid :: ForwardOf(w, sid)
  }

  /** An update outside the three guarded ones keeps the state or takes it to the top rank. */
  lemma UnguardedUpdate(f: Flight, env: Env, cur: Row)
    requires StageOk(f.snap, f.stage) && Guard(f.stage) == None
    requires EffectOf(f, env).update.Some?
    ensures var after := Apply(EffectOf(f, env).update.value, cur).state;
            after == cur.state || Rank(after) == 4
  {
  }

  lemma GuardedUpdate(f: Flight, env: Env, cur: Row)
    requires StageOk(f.snap, f.stage) && Guard(f.stage).Some?
    requires EffectOf(f, env).update.Some?
    ensures f.snap.state == Guard(f.stage).value
    ensures Rank(Apply(EffectOf(f, env).update.value, cur).state) == Rank(f.snap.state) + 1
  {
  }

  /** Where a session has not gone back, a guard of it still holds exactly when its update moves forward. */
  lemma HeldIffRaises(w: World, a: Action)
    requires Inv(w) && Enabled(w, a) && (a.Advance? ==> ForwardOf(w, w.flights[a.ticket].sid))
    ensures StillHeld(w, a) <==> Raises(w, a)
  {
    if Lands(w, a) {
      var f := w.flights[a.ticket];
      assert FlightOk(f, w);
      var rows := w.history[f.sid];
      GuardedUpdate(f, a.env, Last(rows));
      assert Onward(rows[f.seen], rows[|rows| - 1]);
    }
  }

  /** An update whose guard holds takes the row onward. */
  lemma UpdateOnward(f: Flight, env: Env, cur: Row)
    requires StageOk(f.snap, f.stage) && RowOk(cur) && EffectOf(f, env).update.Some?
    requires Guard(f.stage).Some? ==> Some(cur.state) == Guard(f.stage)
    ensures Onward(cur, Apply(EffectOf(f, env).update.value, cur))
  {
    if Guard(f.stage).Some? {
      GuardedUpdate(f, env, cur);
    } else {
      UnguardedUpdate(f, env, cur);
    }
  }

  lemma StepForward(w: World, a: Action, sid: SessionId)
    requires Inv(w) && ForwardOf(w, sid) && Enabled(w, a) && (On(w, a, sid) ==> StillHeld(w, a))
    ensures ForwardOf(Next(w, a), sid)
  {
    if On(w, a, sid) && EffectOf(w.flights[a.ticket], a.env).update.Some? {
      var f := w.flights[a.ticket];
      assert FlightOk(f, w);
      var rows := w.history[f.sid];
      assert Last(rows) in rows;
      UpdateOnward(f, a.env, Last(rows));
      forall i | 0 <= i < |rows| ensures Onward(rows[i], Last(rows)) {
        assert 0 <= i <= |rows| - 1 < |w.history[f.sid]|;
      }
    }
  }

  /** Over whole runs: the guards of a session are held at every landing exactly when every landing moves it forward. */
  lemma {:induction false} AllHeldIffAllRaise(w: World, acts: seq<Action>, sid: SessionId)
    requires Inv(w) && ForwardOf(w, sid) && IsRun(w, acts)
    ensures AllHeldOf(w, acts, sid) <==> AllRaiseOf(w, acts, sid)
    decreases |acts|
  {
    if acts != [] {
      if On(w, acts[0], sid) { HeldIffRaises(w, acts[0]); }
      if On(w, acts[0], sid) ==> StillHeld(w, acts[0]) {
        NextKeepsInv(w, acts[0]);
        StepForward(w, acts[0], sid);
        AllHeldIffAllRaise(Next(w, acts[0]), acts[1..], sid);
      }
    }
  }

  lemma {:induction false} HeldSnoc(w: World, acts: seq<Action>, a: Action)
    requires IsRun(w, acts) && Enabled(After(w, acts), a)
    ensures IsRun(w, acts + [a]) && After(w, acts + [a]) == Next(After(w, acts), a)
    ensures AllHeld(w, acts + [a]) <==> AllHeld(w, acts) && StillHeld(After(w, acts), a)
    decreases |acts|
  {
    RunSnoc(w, acts, a);
    if acts == [] {
      assert [a][1..] == [];
      assert acts + [a] == [a];
    } else {
      assert (acts + [a])[1..] == acts[1..] + [a];
      HeldSnoc(Next(w, acts[0]), acts[1..], a);
    }
  }

  // ---------- counting what a session is handed ----------

  /** A handler that has stored a code and has yet to answer with it. */
  ghost predicate OwesCode(w: World, t: nat, sid: SessionId) {
    t in w.flights && w.flights[t].sid == sid && (w.flights[t].stage.AuditCode? || w.flights[t].stage.AuditEnd?)
  }

  /** The rank a session must have reached for an event of this kind to be behind it. */
  function Earned(kind: Kind): Option<nat> {
    match kind
    case YotiIdStored => Some(1)
    case CodeStored => Some(2)
    case CodeGiven => Some(2)
    case TokenStored => Some(3)
    case TokenGiven => Some(3)
    case _ => None
  }

  ghost predicate CountedOnce(trail: seq<Event>, sid: SessionId, rank: nat) {
    forall kind | Earned(kind).Some? :: Count(trail, sid, kind) <= (if rank >= Earned(kind).value then 1 else 0)
  }

  /** At most one handler owes a session its code, and then the code has been stored but not handed out. */
  ghost predicate OwedOnce(w: World, sid: SessionId, rank: nat) {
    && (forall t | OwesCode(w, t, sid) :: rank >= 2 && Count(w.trail, sid, CodeGiven) == 0)
    && (forall t, u | OwesCode(w, t, sid) && OwesCode(w, u, sid) :: t == u)
  }

  /** Each step of the OAuth half is behind a session for good once counted. */
  ghost predicate OnceFor(w: World, sid: SessionId)
    requires sid in w.history && w.history[sid] != []
  {
    CountedOnce(w.trail, sid, Rank(Current(w, sid))) && OwedOnce(w, sid, Rank(Current(w, sid)))
  }

  ghost predicate OnceAt(w: World, sid: SessionId) {
    if sid in w.history then w.history[sid] != [] && OnceFor(w, sid)
    else forall kind | Earned(kind).Some? :: Count(w.trail, sid, kind) == 0
  }

  lemma EventSids(f: Flight, env: Env)
    ensures |EffectOf(f, env).events| <= 2 && forall e | e in EffectOf(f, env).events :: e.sid == f.sid
  {
    FewEvents(f, env);
  }

  lemma OtherCounts(f: Flight, env: Env, sid: SessionId, kind: Kind)
    requires sid != f.sid
    ensures Count(EffectOf(f, env).events, sid, kind) == 0
  {
    EventSids(f, env);
    CountFew(EffectOf(f, env).events, sid, kind);
  }

  /** Which step adds an event of a kind, and that it adds one. */
  lemma EventCounts(f: Flight, env: Env, kind: Kind)
    requires Earned(kind).Some?
    ensures Count(EffectOf(f, env).events, f.sid, kind) <= 1
    ensures Count(EffectOf(f, env).events, f.sid, kind) == 1 ==>
              if kind == CodeGiven then f.stage.AuditEnd?
              else Guard(f.stage).Some? && EffectOf(f, env).update.Some? &&
                   Rank(Guard(f.stage).value) + 1 == Earned(kind).value
  {
    EventSids(f, env);
    CountFew(EffectOf(f, env).events, f.sid, kind);
  }

  /** How far one step takes its session, when its guard still holds. */
  lemma StepRank(w: World, t: nat, env: Env)
    requires Inv(w) && Enabled(w, Advance(t, env)) && StillHeld(w, Advance(t, env))
    ensures var f := w.flights[t];
            var w' := Next(w, Advance(t, env));
            && f.sid in w'.history && w'.history[f.sid] != []
            && Rank(Current(w, f.sid)) <= Rank(Current(w', f.sid))
            && (Lands(w, Advance(t, env)) ==>
                  && Rank(Current(w, f.sid)) == Rank(Guard(f.stage).value)
                  && Rank(Current(w', f.sid)) == Rank(Guard(f.stage).value) + 1)
  {
    var f := w.flights[t];
    assert FlightOk(f, w);
    if EffectOf(f, env).update.Some? {
      if Guard(f.stage).Some? {
        GuardedUpdate(f, env, Last(w.history[f.sid]));
      } else {
        UnguardedUpdate(f, env, Last(w.history[f.sid]));
      }
    }
  }

  lemma CountsAfter(f: Flight, env: Env, trail: seq<Event>, rank: nat, rank': nat)
    requires CountedOnce(trail, f.sid, rank) && rank <= rank'
    requires Guard(f.stage).Some? && EffectOf(f, env).update.Some? ==>
               rank == Rank(Guard(f.stage).value) && rank' == rank + 1
    requires f.stage.AuditEnd? ==> rank >= 2 && Count(trail, f.sid, CodeGiven) == 0
    ensures CountedOnce(trail + EffectOf(f, env).events, f.sid, rank')
  {
    forall kind | Earned(kind).Some?
      ensures Count(trail + EffectOf(f, env).events, f.sid, kind) <= (if rank' >= Earned(kind).value then 1 else 0)
    {
      CountAppend(trail, EffectOf(f, env).events, f.sid, kind);
      EventCounts(f, env, kind);
    }
  }

  /** The step's own session: whatever it adds to the counts, the rank it has reached allows. */
  lemma AdvanceCounts(w: World, t: nat, env: Env)
    requires Inv(w) && Enabled(w, Advance(t, env)) && StillHeld(w, Advance(t, env))
    requires OnceAt(w, w.flights[t].sid)
    ensures var w' := Next(w, Advance(t, env));
            CountedOnce(w'.trail, w.flights[t].sid, Rank(Current(w', w.flights[t].sid)))
  {
    var f := w.flights[t];
    StepRank(w, t, env);
    assert f.stage.AuditEnd? ==> OwesCode(w, t, f.sid);
    CountsAfter(f, env, w.trail, Rank(Current(w, f.sid)), Rank(Current(Next(w, Advance(t, env)), f.sid)));
  }

  /** Who owes a code after a step: those who did before, and a handler that has just stored one. */
  lemma OwesAfter(w: World, t: nat, env: Env, u: nat)
    requires Enabled(w, Advance(t, env))
    requires OwesCode(Next(w, Advance(t, env)), u, w.flights[t].sid)
    ensures || OwesCode(w, u, w.flights[t].sid)
            || (u == t && Lands(w, Advance(t, env)) && w.flights[t].stage.StoreCode?)
    ensures u == t ==> !w.flights[t].stage.AuditEnd?
  {
  }

  lemma AdvanceOwed(w: World, t: nat, env: Env)
    requires Inv(w) && Enabled(w, Advance(t, env)) && StillHeld(w, Advance(t, env))
    requires OnceAt(w, w.flights[t].sid)
    ensures var w' := Next(w, Advance(t, env));
            OwedOnce(w', w.flights[t].sid, Rank(Current(w', w.flights[t].sid)))
  {
    var w' := Next(w, Advance(t, env));
    var sid := w.flights[t].sid;
    var rank, rank' := Rank(Current(w, sid)), Rank(Current(w', sid));
    assert rank <= rank' && (Lands(w, Advance(t, env)) && w.flights[t].stage.StoreCode? ==> rank == 1 && rank' == 2) by {
      StepRank(w, t, env);
    }
    var given := Count(w'.trail, sid, CodeGiven);
    assert given == Count(w.trail, sid, CodeGiven) || w.flights[t].stage.AuditEnd? by {
      CountAppend(w.trail, EffectOf(w.flights[t], env).events, sid, CodeGiven);
      EventCounts(w.flights[t], env, CodeGiven);
    }
    assert OwedOnce(w, sid, rank) && Count(w.trail, sid, CodeGiven) <= (if rank >= 2 then 1 else 0);
    assert w.flights[t].stage.AuditEnd? ==> OwesCode(w, t, sid);
    forall u | OwesCode(w', u, sid) ensures rank' >= 2 && given == 0 { OwesAfter(w, t, env, u); }
    forall u, v | OwesCode(w', u, sid) && OwesCode(w', v, sid) ensures u == v {
      OwesAfter(w, t, env, u);
      OwesAfter(w, t, env, v);
    }
  }

  lemma OthersOnce(w: World, t: nat, env: Env, sid: SessionId)
    requires Enabled(w, Advance(t, env)) && sid != w.flights[t].sid
    requires OnceAt(w, sid)
    ensures OnceAt(Next(w, Advance(t, env)), sid)
  {
    var w' := Next(w, Advance(t, env));
    forall kind ensures Count(w'.trail, sid, kind) == Count(w.trail, sid, kind) {
      CountAppend(w.trail, EffectOf(w.flights[t], env).events, sid, kind);
      OtherCounts(w.flights[t], env, sid, kind);
    }
    assert forall u :: OwesCode(w', u, sid) ==> OwesCode(w, u, sid);
  }

  lemma ReadOnce(w: World, a: Action, sid: SessionId)
    requires Inv(w) && Enabled(w, a) && !a.Advance? && OnceAt(w, sid)
    ensures OnceAt(Next(w, a), sid)
  {
    var w' := Next(w, a);
    assert forall u :: OwesCode(w', u, sid) ==> OwesCode(w, u, sid);
    assert forall u | u in w.flights :: FlightOk(w.flights[u], w);
  }

  lemma StepOnce(w: World, a: Action, sid: SessionId)
    requires Inv(w) && OnceAt(w, sid) && Enabled(w, a) && (On(w, a, sid) ==> StillHeld(w, a))
    ensures OnceAt(Next(w, a), sid)
  {
    if !a.Advance? {
      ReadOnce(w, a, sid);
    } else if sid == w.flights[a.ticket].sid {
      StepRank(w, a.ticket, a.env);
      AdvanceCounts(w, a.ticket, a.env);
      AdvanceOwed(w, a.ticket, a.env);
    } else {
      OthersOnce(w, a.ticket, a.env, sid);
    }
  }

  lemma {:induction false} RunOnce(w: World, acts: seq<Action>, sid: SessionId)
    requires Inv(w) && ForwardOf(w, sid) && OnceAt(w, sid) && IsRun(w, acts) && AllHeldOf(w, acts, sid)
    ensures ForwardOf(After(w, acts), sid) && OnceAt(After(w, acts), sid)
    decreases |acts|
  {
    if acts != [] {
      NextKeepsInv(w, acts[0]);
      StepForward(w, acts[0], sid);
      StepOnce(w, acts[0], sid);
      RunOnce(Next(w, acts[0]), acts[1..], sid);
    }
  }

  /**
   While the guards of a session hold, whatever happens to others, it never goes back, its Yoti id is stored once
   and it is handed one code and one token at most.
   */
  lemma HandedOnce(acts: seq<Action>, sid: SessionId)
    requires IsRun(EmptyWorld, acts) && AllHeldOf(EmptyWorld, acts, sid)
    ensures ForwardOf(After(EmptyWorld, acts), sid)
    ensures forall kind | kind in {YotiIdStored, CodeStored, CodeGiven, TokenStored, TokenGiven} ::
      Count(After(EmptyWorld, acts).trail, sid, kind) <= 1
  {
    RunOnce(EmptyWorld, acts, sid);
  }
}
