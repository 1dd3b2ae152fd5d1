/**
 How many expiry notices, and how many reminders, a session can be sent.

 A session is sent one at most when the job's handlers of that session do not overlap, read a version of the row
 that tells whether it has been sent one, and manage to mark the row behind every one that is accepted. What happens
 to other sessions is of no account. All other handlers interleave freely, and may bring the session back to a
 state the job queries: the flag the mark sets is never cleared.
 */
module Notices {
  import opened SessionModel
  import opened Protocol
  import opened Interleaving
  import opened Trails
  import opened Extending

  function Sent(m: Mailing): Kind {
    if m.ExpiryMail? then NoticeSent else ReminderSent
  }

  /** The request is one of this job's. */
  predicate For(m: Mailing, req: Request) {
    if m.ExpiryMail? then req.Expire? else req.Remind?
  }

  /** Nothing has been sent yet. */
  predicate Unsent(m: Mailing, stage: Stage) {
    if m.ExpiryMail? then stage.SendExpiry? else stage.ReadPerson? || stage.SendReminder?
  }

  predicate Marking(m: Mailing, stage: Stage) {
    if m.ExpiryMail? then stage.StoreExpired? else stage.FlagReminder?
  }

  predicate Working(m: Mailing, stage: Stage) {
    Unsent(m, stage) || Marking(m, stage)
  }

  /** A handler that is working on the session. */
  ghost predicate WorksOn(w: World, t: nat, sid: SessionId, m: Mailing) {
    t in w.flights && w.flights[t].sid == sid && Working(m, w.flights[t].stage)
  }

  predicate Flagged(w: World, sid: SessionId, m: Mailing) {
    sid in w.history && w.history[sid] != [] && Flag(m, Last(w.history[sid]))
  }

  predicate SentSome(w: World, sid: SessionId, m: Mailing) {
    Count(w.trail, sid, Sent(m)) > 0
  }

  /** Once the session has been sent one, the flag read is current, and the mark succeeds. */
  predicate Marks(w: World, a: Action, sid: SessionId, m: Mailing)
    requires Enabled(w, a)
  {
    match a
    case Create(_, _) => true
    case Start(_, req, s, v, _) =>
      For(m, req) && s == sid && SentSome(w, sid, m) ==> Flag(m, w.history[sid][v]) == Flagged(w, sid, m)
    case Advance(t, env) =>
      w.flights[t].sid == sid && Marking(m, w.flights[t].stage) && SentSome(w, sid, m) ==> env.ok
  }

  ghost predicate AllMark(w: World, acts: seq<Action>, sid: SessionId, m: Mailing)
    requires IsRun(w, acts)
    decreases |acts|
  {
    acts == [] || (Marks(w, acts[0], sid, m) && AllMark(Next(w, acts[0]), acts[1..], sid, m))
  }

  /** ... and no other handler is working on the session when one starts. */
  ghost predicate Orderly(w: World, a: Action, sid: SessionId, m: Mailing)
    requires Enabled(w, a)
  {
    Marks(w, a, sid, m) && (a.Start? && For(m, a.req) && a.sid == sid ==> forall t :: !WorksOn(w, t, sid, m))
  }

  ghost predicate AllOrderly(w: World, acts: seq<Action>, sid: SessionId, m: Mailing)
    requires IsRun(w, acts)
    decreases |acts|
  {
    acts == [] || (Orderly(w, acts[0], sid, m) && AllOrderly(Next(w, acts[0]), acts[1..], sid, m))
  }

  ghost predicate NoticedOnce(w: World, sid: SessionId, m: Mailing) {
    var sent := Count(w.trail, sid, Sent(m));
    && sent <= 1
    && (forall t, u | WorksOn(w, t, sid, m) && WorksOn(w, u, sid, m) :: t == u)
    && (forall t | WorksOn(w, t, sid, m) && Unsent(m, w.flights[t].stage) :: sent == 0)
    && (sent == 0 || Flagged(w, sid, m) || exists t :: WorksOn(w, t, sid, m))
  }

  /** Only a step that has nothing sent yet sends, and then it goes on to its mark. */
  lemma NoticeCount(f: Flight, env: Env, sid: SessionId, m: Mailing)
    ensures var sent, e := Count(EffectOf(f, env).events, sid, Sent(m)), EffectOf(f, env);
            && sent <= 1
            && (sent == 1 ==> f.sid == sid && Unsent(m, f.stage) && e.outcome.Continue? && Marking(m, e.outcome.stage))
  {
    var e := EffectOf(f, env);
    FewEvents(f, env);
    CountFew(e.events, sid, Sent(m));
    assert |e.events| > 0 && Is(e.events[0], f.sid, Sent(m)) ==>
      Unsent(m, f.stage) && e.outcome.Continue? && Marking(m, e.outcome.stage);
  }

  lemma NoticeStages(f: Flight, env: Env, cur: Row, m: Mailing)
    ensures var e := EffectOf(f, env);
            && (Marking(m, f.stage) ==> e.outcome.Finish?)
            && (Marking(m, f.stage) && env.ok ==> e.update.Some? && Flag(m, Apply(e.update.value, cur)))
            && (e.outcome.Continue? && Working(m, e.outcome.stage) ==> Working(m, f.stage))
            && (e.update.Some? && Flag(m, cur) ==> Flag(m, Apply(e.update.value, cur)))
  {
  }

  lemma StartNoticed(w: World, a: Action, sid: SessionId, m: Mailing)
    requires Inv(w) && NoticedOnce(w, sid, m) && Enabled(w, a) && Orderly(w, a, sid, m) && a.Start?
    requires For(m, a.req) && a.sid == sid
    ensures NoticedOnce(Next(w, a), sid, m)
  {
    var w' := Next(w, a);
    forall u | WorksOn(w', u, sid, m) ensures u == a.ticket { assert !WorksOn(w, u, sid, m); }
    BeginUnsent(a.req, w.history[sid][a.version], a.env, m);
    assert SentSome(w, sid, m) ==> Flagged(w, sid, m);
  }

  lemma BeginUnsent(req: Request, row: Row, env: Env, m: Mailing)
    ensures var first := Begin(req, row, env);
            && (first.Continue? && Working(m, first.stage) ==> For(m, req) && Unsent(m, first.stage))
            && (For(m, req) && first.Continue? ==> !Flag(m, row))
  {
  }

  lemma CreateNoticed(w: World, a: Action, sid: SessionId, m: Mailing)
    requires Inv(w) && NoticedOnce(w, sid, m) && Enabled(w, a) && a.Create?
    ensures NoticedOnce(Next(w, a), sid, m)
  {
    var w' := Next(w, a);
    forall u ensures WorksOn(w', u, sid, m) <==> WorksOn(w, u, sid, m) {}
    assert forall u | u in w.flights :: FlightOk(w.flights[u], w);
  }

  lemma ReadNoticed(w: World, a: Action, sid: SessionId, m: Mailing)
    requires NoticedOnce(w, sid, m) && Enabled(w, a) && a.Start? && !(For(m, a.req) && a.sid == sid)
    ensures NoticedOnce(Next(w, a), sid, m)
  {
    var w' := Next(w, a);
    BeginUnsent(a.req, w.history[a.sid][a.version], a.env, m);
    forall u ensures WorksOn(w', u, sid, m) <==> WorksOn(w, u, sid, m) {}
  }

  lemma OtherNoticed(w: World, t: nat, env: Env, sid: SessionId, m: Mailing)
    requires NoticedOnce(w, sid, m) && Enabled(w, Advance(t, env)) && !WorksOn(w, t, sid, m)
    ensures NoticedOnce(Next(w, Advance(t, env)), sid, m)
  {
    var w' := Next(w, Advance(t, env));
    var f := w.flights[t];
    NoticeCount(f, env, sid, m);
    NoticeStages(f, env, Last(w.history[f.sid]), m);
    assert Count(w'.trail, sid, Sent(m)) == Count(w.trail, sid, Sent(m)) by {
      CountAppend(w.trail, EffectOf(f, env).events, sid, Sent(m));
    }
    assert Flagged(w, sid, m) ==> Flagged(w', sid, m);
    forall u ensures WorksOn(w', u, sid, m) <==> WorksOn(w, u, sid, m) {}
  }

  lemma OwnWorks(w: World, t: nat, env: Env, sid: SessionId, m: Mailing, u: nat)
    requires NoticedOnce(w, sid, m) && Enabled(w, Advance(t, env)) && WorksOn(w, t, sid, m)
    requires WorksOn(Next(w, Advance(t, env)), u, sid, m)
    ensures u == t && EffectOf(w.flights[t], env).outcome.Continue?
    ensures Next(w, Advance(t, env)).flights[t].stage == EffectOf(w.flights[t], env).outcome.stage
  {
    if u != t { assert WorksOn(w, u, sid, m); }
  }

  lemma UnsentNoticed(w: World, t: nat, env: Env, sid: SessionId, m: Mailing)
    requires NoticedOnce(w, sid, m) && Enabled(w, Advance(t, env))
    requires WorksOn(w, t, sid, m) && Unsent(m, w.flights[t].stage)
    ensures NoticedOnce(Next(w, Advance(t, env)), sid, m)
  {
    var w' := Next(w, Advance(t, env));
    NoticeCount(w.flights[t], env, sid, m);
    CountAppend(w.trail, EffectOf(w.flights[t], env).events, sid, Sent(m));
    forall u | WorksOn(w', u, sid, m)
      ensures u == t && (Unsent(m, w'.flights[u].stage) ==> Count(w'.trail, sid, Sent(m)) == 0)
    {
      OwnWorks(w, t, env, sid, m, u);
    }
    if SentSome(w', sid, m) { assert WorksOn(w', t, sid, m); }
  }

  lemma MarkNoticed(w: World, t: nat, env: Env, sid: SessionId, m: Mailing)
    requires NoticedOnce(w, sid, m) && Enabled(w, Advance(t, env)) && Marks(w, Advance(t, env), sid, m)
    requires WorksOn(w, t, sid, m) && Marking(m, w.flights[t].stage)
    ensures NoticedOnce(Next(w, Advance(t, env)), sid, m)
  {
    var w' := Next(w, Advance(t, env));
    NoticeCount(w.flights[t], env, sid, m);
    NoticeStages(w.flights[t], env, Last(w.history[sid]), m);
    CountAppend(w.trail, EffectOf(w.flights[t], env).events, sid, Sent(m));
    forall u ensures !WorksOn(w', u, sid, m) {
      if WorksOn(w', u, sid, m) { OwnWorks(w, t, env, sid, m, u); }
    }
  }

  lemma StepNoticed(w: World, a: Action, sid: SessionId, m: Mailing)
    requires Inv(w) && NoticedOnce(w, sid, m) && Enabled(w, a) && Orderly(w, a, sid, m)
    ensures NoticedOnce(Next(w, a), sid, m)
  {
    if a.Start? && For(m, a.req) && a.sid == sid {
      StartNoticed(w, a, sid, m);
    } else if a.Start? {
      ReadNoticed(w, a, sid, m);
    } else if a.Create? {
      CreateNoticed(w, a, sid, m);
    } else if WorksOn(w, a.ticket, sid, m) {
      if Unsent(m, w.flights[a.ticket].stage) {
        UnsentNoticed(w, a.ticket, a.env, sid, m);
      } else {
        MarkNoticed(w, a.ticket, a.env, sid, m);
      }
    } else {
      OtherNoticed(w, a.ticket, a.env, sid, m);
    }
  }

  lemma {:induction false} RunNoticed(w: World, acts: seq<Action>, sid: SessionId, m: Mailing)
    requires Inv(w) && NoticedOnce(w, sid, m) && IsRun(w, acts) && AllOrderly(w, acts, sid, m)
    ensures NoticedOnce(After(w, acts), sid, m)
    decreases |acts|
  {
    if acts != [] {
      NextKeepsInv(w, acts[0]);
      StepNoticed(w, acts[0], sid, m);
      RunNoticed(Next(w, acts[0]), acts[1..], sid, m);
    }
  }

  /** No session is sent a second expiry notice, or a second reminder, whatever else happens to it and to others. */
  lemma NoticedAtMostOnce(acts: seq<Action>, sid: SessionId, m: Mailing)
    requires IsRun(EmptyWorld, acts) && AllOrderly(EmptyWorld, acts, sid, m)
    ensures Count(After(EmptyWorld, acts).trail, sid, Sent(m)) <= 1
  {
    RunNoticed(EmptyWorld, acts, sid, m);
  }

  // ---------- when a mark fails ----------

  function NoticeOf(m: Mailing, sid: SessionId): Event {
    if m.ExpiryMail? then ExpiryNotice(sid) else ReminderQueued(sid)
  }

  function MarkOf(m: Mailing): Update {
    if m.ExpiryMail? then MarkAsExpired else SetReminderFlag
  }

  /** A handler of the job reads some version of the row and gets to where it sends ... */
  lemma ReachSend(w0: World, acts: seq<Action>, w: World, sid: SessionId, v: nat, t: nat, m: Mailing)
    returns (acts': seq<Action>, f: Flight)
    requires IsRun(w0, acts) && After(w0, acts) == w && t !in w.flights && sid in w.history && v < |w.history[sid]|
    requires Queries(m, w.history[sid][v].state) && !Flag(m, w.history[sid][v])
    ensures Reaches(w0, acts', w, t, f, []) && f.sid == sid
    ensures f.stage == if m.ExpiryMail? then SendExpiry else SendReminder
  {
    var row := w.history[sid][v];
    var req := if m.ExpiryMail? then Expire(row.createdDate) else Remind(row.createdDate);
    var read := Start(t, req, sid, v, GOOD.(now := row.expiryDate - 1));
    RunSnoc(w0, acts, read);
    acts' := acts + [read];
    assert w.trail + [] == w.trail;
    f := Flight(req, sid, v, row, if m.ExpiryMail? then SendExpiry else ReadPerson);
    if m.ReminderMail? {
      acts' := Turn(w0, acts', w, t, f, [], GOOD, SendReminder);
      f := f.(stage := SendReminder);
    }
  }

  lemma SendStep(g: Flight, m: Mailing)
    requires g.stage == if m.ExpiryMail? then SendExpiry else SendReminder
    ensures EffectOf(g, GOOD) ==
            Emit(NoticeOf(m, g.sid), Continue(if m.ExpiryMail? then StoreExpired else FlagReminder))
  {
  }

  /** ... and sends. */
  lemma ReachMark(w0: World, acts: seq<Action>, w: World, sid: SessionId, v: nat, t: nat, m: Mailing)
    returns (acts': seq<Action>, f: Flight)
    requires IsRun(w0, acts) && After(w0, acts) == w && t !in w.flights && sid in w.history && v < |w.history[sid]|
    requires Queries(m, w.history[sid][v].state) && !Flag(m, w.history[sid][v])
    ensures Reaches(w0, acts', w, t, f, [NoticeOf(m, sid)]) && Marking(m, f.stage) && f.sid == sid
  {
    var g;
    acts', g := ReachSend(w0, acts, w, sid, v, t, m);
    SendStep(g, m);
    RunSnoc(w0, acts', Advance(t, GOOD));
    acts' := acts' + [Advance(t, GOOD)];
    f := g.(stage := if m.ExpiryMail? then StoreExpired else FlagReminder);
    assert w.trail + [] + [NoticeOf(m, sid)] == w.trail + [NoticeOf(m, sid)];
    assert w.flights[t := g][t := f] == w.flights[t := f];
  }

  /** A handler whose notice is accepted and whose mark then succeeds or fails. */
  lemma NoticeThenMark(w: World, sid: SessionId, v: nat, t: nat, env: Env, m: Mailing)
    returns (acts: seq<Action>, w': World)
    requires t !in w.flights && sid in w.history && v < |w.history[sid]|
    requires Queries(m, w.history[sid][v].state) && !Flag(m, w.history[sid][v])
    ensures IsRun(w, acts) && After(w, acts) == w' && w'.flights == w.flights
    ensures sid in w'.history && w.history[sid] <= w'.history[sid] && (!env.ok ==> w'.history == w.history)
    ensures w'.trail == w.trail + [NoticeOf(m, sid)] + (if env.ok then [Stored(sid, MarkOf(m))] else [])
  {
    var f;
    acts, f := ReachMark(w, [], w, sid, v, t, m);
    RunSnoc(w, acts, Advance(t, env));
    w' := Next(After(w, acts), Advance(t, env));
    acts := acts + [Advance(t, env)];
    assert w.flights[t := f] - {t} == w.flights;
  }

  /**
   Marks must succeed for the count to hold: when one mark of an unflagged session fails behind an accepted notice,
   the next run of the job sends a second one, before it comes to its own mark.
   */
  lemma UnmarkedNoticeRepeats(w: World, sid: SessionId, t: nat, m: Mailing) returns (acts: seq<Action>, f: Flight)
    requires t !in w.flights && sid in w.history && w.history[sid] != []
    requires Queries(m, Last(w.history[sid]).state) && !Flagged(w, sid, m)
    ensures IsRun(w, acts) && f.sid == sid && Marking(m, f.stage)
    ensures After(w, acts) == World(w.history, w.flights[t := f], w.trail + [NoticeOf(m, sid), NoticeOf(m, sid)])
  {
    var v := |w.history[sid]| - 1;
    var w1;
    acts, w1 := NoticeThenMark(w, sid, v, t, BAD, m);
    acts, f := ReachMark(w, acts, w1, sid, v, t, m);
    assert w1.trail + [NoticeOf(m, sid)] == w.trail + [NoticeOf(m, sid), NoticeOf(m, sid)];
  }

  /** Flags read must be current too: two runs that read one unflagged version send two notices, though every mark succeeds. */
  lemma StaleNoticeRepeats(w: World, sid: SessionId, v: nat, t: nat, m: Mailing) returns (acts: seq<Action>, f: Flight)
    requires t !in w.flights && sid in w.history && v < |w.history[sid]|
    requires Queries(m, w.history[sid][v].state) && !Flag(m, w.history[sid][v])
    ensures IsRun(w, acts) && f.sid == sid && Marking(m, f.stage) && After(w, acts).flights == w.flights[t := f]
    ensures After(w, acts).trail == w.trail + [NoticeOf(m, sid), Stored(sid, MarkOf(m)), NoticeOf(m, sid)]
  {
    var w1;
    acts, w1 := NoticeThenMark(w, sid, v, t, GOOD, m);
    acts, f := ReachMark(w, acts, w1, sid, v, t, m);
    assert w1.trail + [NoticeOf(m, sid)] == w.trail + [NoticeOf(m, sid), Stored(sid, MarkOf(m)), NoticeOf(m, sid)];
  }
}
