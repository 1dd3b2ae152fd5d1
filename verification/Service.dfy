/**
 The service as its clients and its scheduler use it: any number of invocations, one after the other, of
 the handlers, the completion callback, the expiry job and the reminder job, with any failures and any lag of the
 indexes the jobs read. Every such use is a serial run of the protocol, so what serial runs promise holds of the
 table and the queues the handlers leave behind.
 */
module Service {
  import opened SessionModel
  import opened Protocol
  import opened Interleaving
  import opened Trails
  import opened Guards
  import opened Credentials
  import opened Notices
  import opened Serial
  import opened HandlerSpec
  import opened HandlerEpisode
  import opened Sweep
  import opened ExpiryJob
  import opened ReminderJob
  import opened Versions
  import opened JobEpisode
  import opened ReminderEpisode
  import C = Completion
  import CompletionMessages

  datatype Invocation =
    | Open(sid: SessionId, now: int, saved: bool)
    | Call(req: Request, lookedUp: bool, script: Script)
    | Complete(callback: C.Callback)
    | Expiry(results: seq<seq<Item>>, clock: nat -> int, cutoff: int, script: Script)
    | Reminding(results: seq<seq<Item>>, clock: nat -> int, cutoff: int, script: Script)
  {
    /** The sessions a job works on. */
    function Swept(): seq<Item>
      requires Expiry? || Reminding?
    {
      SweepOf(if Expiry? then ExpiryMail else ReminderMail, results, clock, cutoff)
    }
  }

  const EMPTY_STORE := Store(map[], [])

  /** What one invocation may do, as the contracts of the handlers, of the callback and of the jobs state it. */
  ghost predicate Invokes(st: Store, inv: Invocation, st': Store) {
    match inv
    case Open(sid, now, saved) => st' == if sid in st.table || !saved then st else st.(table := st.table[sid := NewRow(now)])
    case Call(req, lookedUp, script) =>
      !IsJob(req) && !req.Completion? && exists response :: Serves(st, req, lookedUp, script, st', response)
    case Complete(x) => Completes(st, x, st')
    case Expiry(results, _, _, script) =>
      Indexed(ExpiryMail, results, st) && AllStored(inv.Swept(), st.table) && st' == RunJob(st, inv.Swept(), script)
    case Reminding(results, _, _, script) =>
      && Indexed(ReminderMail, results, st) && AllStored(inv.Swept(), st.table)
      && st' == Reminders(st, inv.Swept(), |inv.Swept()|, script)
  }

  ghost predicate Completes(st: Store, x: C.Callback, st': Store) {
    if !C.Looks(x) then st' == st
    else
      var req := Request.Completion(x.yotiSessionId.value);
      && (forall sid | Found(st.table, req, sid) :: st' == C.Completed(st, sid, x).0)
      && ((forall sid :: !Found(st.table, req, sid)) ==> st' == st)
  }

  /** The stores a sequence of invocations goes through. */
  ghost predicate Use(stores: seq<Store>, invs: seq<Invocation>) {
    && |stores| == |invs| + 1 && stores[0] == EMPTY_STORE
    && forall k {:trigger invs[k]} | 0 <= k < |invs| :: Invokes(stores[k], invs[k], stores[k + 1])
  }

  /** If the callback sends a credential for the session, it records that. */
  ghost predicate CallbackRecords(st: Store, inv: Invocation, sid: SessionId) {
    inv.Complete? && inv.callback.yotiSessionId.Some? &&
    Found(st.table, Request.Completion(inv.callback.yotiSessionId.value), sid) ==>
      CompletionMessages.RecordsIssue(st.table[sid], inv.callback)
  }

  /**
   If the job works on the session, the index is not behind on its flag once it has been notified, and the mark behind
   an accepted notice, or behind an earlier one, succeeds.
   */
  ghost predicate JobMarks(st: Store, inv: Invocation, sid: SessionId, m: Mailing) {
    && (inv.Expiry? && m.ExpiryMail? ==> MarksBehind(st, inv.Swept(), inv.script, sid))
    && (inv.Reminding? && m.ReminderMail? ==> FlagsBehind(st, inv.Swept(), inv.script, sid))
  }

  /** A world between invocations, in which the table and the trail agree on the past. */
  ghost predicate Rests(w: World, st: Store) {
    Abstracts(w, st) && w.flights == map[]
  }

  ghost predicate Remembers(w: World, st: Store) {
    Inv(w) && forall x | Had(st, x) :: Known(w, x)
  }

  /** An episode of one invocation, what it ends in, and the discipline it keeps on a session. */
  ghost predicate EpisodeOf(w: World, st: Store, inv: Invocation, st': Store, acts: seq<Action>, sid: SessionId, m: Mailing) {
    && Episode(w, acts) && Rests(After(w, acts), st')
    && (CallbackRecords(st, inv, sid) ==> AllRecord(w, acts, sid))
    && (JobMarks(st, inv, sid, m) ==> AllMark(w, acts, sid, m))
  }

  lemma NothingIsEpisode(w: World, st: Store, inv: Invocation, sid: SessionId, m: Mailing) returns (acts: seq<Action>)
    requires Rests(w, st)
    ensures EpisodeOf(w, st, inv, st, acts, sid, m)
  {
    acts := [];
  }

  lemma OpenIsEpisode(w: World, st: Store, inv: Invocation, sid: SessionId, m: Mailing) returns (acts: seq<Action>)
    requires Rests(w, st) && inv.Open? && inv.sid !in st.table
    ensures EpisodeOf(w, st, inv, st.(table := st.table[inv.sid := NewRow(inv.now)]), acts, sid, m)
  {
    var create := Create(inv.sid, inv.now);
    acts := [create];
    assert acts[1..] == [];
    assert Episode(w, acts);
    assert After(w, acts) == Next(w, create);
    assert AllRecord(w, acts, sid);
  }

  lemma CallIsEpisode(w: World, st: Store, inv: Invocation, st': Store, sid: SessionId, m: Mailing) returns (acts: seq<Action>)
    requires Rests(w, st) && inv.Call? && Invokes(st, inv, st')
    ensures EpisodeOf(w, st, inv, st', acts, sid, m)
  {
    if !inv.lookedUp {
      acts := NothingIsEpisode(w, st, inv, sid, m);
    } else if found :| Found(st.table, inv.req, found) {
      OthersRecord(st.table[found], inv.req, found, inv.script);
      acts := HandleIsEpisode(w, st, inv.req, found, inv.script, sid);
    } else {
      acts := NothingIsEpisode(w, st, inv, sid, m);
    }
  }

  lemma FoundIsEpisode(w: World, st: Store, x: C.Callback, found: SessionId, sid: SessionId) returns (acts: seq<Action>)
    requires Rests(w, st) && x.yotiSessionId.Some? && Found(st.table, Request.Completion(x.yotiSessionId.value), found)
    ensures Episode(w, acts) && Rests(After(w, acts), C.Completed(st, found, x).0)
    ensures found != sid || CompletionMessages.RecordsIssue(st.table[found], x) ==> AllRecord(w, acts, sid)
    ensures forall m :: AllMark(w, acts, sid, m)
  {
    var req := Request.Completion(x.yotiSessionId.value);
    var script := CompletionMessages.CompletedIsHandle(st, req, found, x);
    if CompletionMessages.RecordsIssue(st.table[found], x) {
      CompletionMessages.RecordsIssueIs(st.table[found], req, found, x, script);
    }
    acts := HandleIsEpisode(w, st, req, found, script, sid);
  }

  lemma CallbackIsEpisode(w: World, st: Store, inv: Invocation, st': Store, sid: SessionId, m: Mailing) returns (acts: seq<Action>)
    requires Rests(w, st) && inv.Complete? && Invokes(st, inv, st')
    ensures EpisodeOf(w, st, inv, st', acts, sid, m)
  {
    var x := inv.callback;
    acts := NothingIsEpisode(w, st, inv, sid, m);
    if C.Looks(x) {
      if found :| Found(st.table, Request.Completion(x.yotiSessionId.value), found) {
        acts := FoundIsEpisode(w, st, x, found, sid);
      }
    }
  }

  lemma ExpiryIsEpisode(w: World, st: Store, inv: Invocation, st': Store, sid: SessionId, m: Mailing) returns (acts: seq<Action>)
    requires Rests(w, st) && Remembers(w, st) && inv.Expiry? && Invokes(st, inv, st')
    ensures EpisodeOf(w, st, inv, st', acts, sid, m)
  {
    SweepWorks(ExpiryMail, inv.results, inv.clock, inv.cutoff, w, st);
    acts := JobIsEpisode(w, st, inv.Swept(), inv.cutoff, inv.script, sid);
  }

  lemma RemindingIsEpisode(w: World, st: Store, inv: Invocation, st': Store, sid: SessionId, m: Mailing) returns (acts: seq<Action>)
    requires Rests(w, st) && Remembers(w, st) && inv.Reminding? && Invokes(st, inv, st')
    ensures EpisodeOf(w, st, inv, st', acts, sid, m)
  {
    SweepWorks(ReminderMail, inv.results, inv.clock, inv.cutoff, w, st);
    acts := RemindersAreEpisode(w, st, inv.Swept(), inv.cutoff, inv.script, sid);
  }

  /** The episode of one invocation. Where nothing happens it has no step. */
  lemma InvocationIsEpisode(w: World, st: Store, inv: Invocation, st': Store, sid: SessionId, m: Mailing) returns (acts: seq<Action>)
    requires Rests(w, st) && Remembers(w, st) && Invokes(st, inv, st')
    ensures EpisodeOf(w, st, inv, st', acts, sid, m)
  {
    match inv
    case Open(id, _, saved) =>
      if id in st.table || !saved {
        acts := NothingIsEpisode(w, st, inv, sid, m);
      } else {
        acts := OpenIsEpisode(w, st, inv, sid, m);
      }
    case Call(_, _, _) => acts := CallIsEpisode(w, st, inv, st', sid, m);
    case Complete(_) => acts := CallbackIsEpisode(w, st, inv, st', sid, m);
    case Expiry(_, _, _, _) => acts := ExpiryIsEpisode(w, st, inv, st', sid, m);
    case Reminding(_, _, _, _) => acts := RemindingIsEpisode(w, st, inv, st', sid, m);
  }

  /** What the trail says a row has been, the table has held. */
  lemma RunRemembers(acts: seq<Action>, st: Store)
    requires IsRun(EmptyWorld, acts) && Abstracts(After(EmptyWorld, acts), st)
    ensures Remembers(After(EmptyWorld, acts), st)
  {
    RunKeepsInv(EmptyWorld, acts);
    forall x | Had(st, x) ensures Known(After(EmptyWorld, acts), x) {
      VersionsAreReplays(acts, x.sid, x.row);
    }
  }

  lemma {:induction false} FlattenSnoc(eps: seq<seq<Action>>, more: seq<Action>)
    ensures Flatten(eps + [more]) == Flatten(eps) + more
    decreases |eps|
  {
    var all := eps + [more];
    if eps == [] {
      assert all[1..] == [];
      assert Flatten(all) == more;
    } else {
      assert all[1..] == eps[1..] + [more];
      FlattenSnoc(eps[1..], more);
    }
  }

  lemma {:induction false} EpisodesSnoc(w: World, eps: seq<seq<Action>>, more: seq<Action>)
    requires Inv(w) && Episodes(w, eps) && IsRun(w, Flatten(eps)) && Episode(After(w, Flatten(eps)), more)
    ensures Episodes(w, eps + [more])
    decreases |eps|
  {
    var all := eps + [more];
    if eps == [] {
      assert all[1..] == [];
    } else {
      assert all[0] == eps[0] && all[1..] == eps[1..] + [more];
      RunKeepsInv(w, eps[0]);
      SerialHolds(After(w, eps[0]), eps[1..], "");
      RunConcat(w, eps[0], Flatten(eps[1..]));
      EpisodesSnoc(After(w, eps[0]), eps[1..], more);
    }
  }

  ghost predicate AllRecorded(stores: seq<Store>, invs: seq<Invocation>, sid: SessionId)
    requires |stores| > |invs|
  {
    forall k | 0 <= k < |invs| :: CallbackRecords(stores[k], invs[k], sid)
  }

  ghost predicate AllMarking(stores: seq<Store>, invs: seq<Invocation>, sid: SessionId, m: Mailing)
    requires |stores| > |invs|
  {
    forall k | 0 <= k < |invs| :: JobMarks(stores[k], invs[k], sid, m)
  }

  /** A serial run of the protocol that does what a use of the service does, with the same discipline on a session. */
  ghost predicate SerialRunOf(stores: seq<Store>, invs: seq<Invocation>, eps: seq<seq<Action>>, sid: SessionId,
                              m: Mailing)
    requires |stores| > |invs|
  {
    && Episodes(EmptyWorld, eps) && IsRun(EmptyWorld, Flatten(eps))
    && Rests(After(EmptyWorld, Flatten(eps)), stores[|invs|])
    && (AllRecorded(stores, invs, sid) ==> AllRecord(EmptyWorld, Flatten(eps), sid))
    && (AllMarking(stores, invs, sid, m) ==> AllMark(EmptyWorld, Flatten(eps), sid, m))
  }

  lemma DisciplineSnoc(eps: seq<seq<Action>>, more: seq<Action>, sid: SessionId, m: Mailing)
    requires IsRun(EmptyWorld, Flatten(eps)) && IsRun(After(EmptyWorld, Flatten(eps)), more)
    ensures Flatten(eps + [more]) == Flatten(eps) + more && IsRun(EmptyWorld, Flatten(eps + [more]))
    ensures After(EmptyWorld, Flatten(eps + [more])) == After(After(EmptyWorld, Flatten(eps)), more)
    ensures AllRecord(EmptyWorld, Flatten(eps), sid) && AllRecord(After(EmptyWorld, Flatten(eps)), more, sid) ==>
              AllRecord(EmptyWorld, Flatten(eps + [more]), sid)
    ensures AllMark(EmptyWorld, Flatten(eps), sid, m) && AllMark(After(EmptyWorld, Flatten(eps)), more, sid, m) ==>
              AllMark(EmptyWorld, Flatten(eps + [more]), sid, m)
  {
    FlattenSnoc(eps, more);
    RunConcat(EmptyWorld, Flatten(eps), more);
    ConcatHolds(EmptyWorld, Flatten(eps), more, sid);
    ConcatOrderly(EmptyWorld, Flatten(eps), more, sid, m);
  }

  lemma Earlier(stores: seq<Store>, invs: seq<Invocation>, sid: SessionId, m: Mailing)
    requires Use(stores, invs) && invs != []
    ensures Use(stores[..|invs|], invs[..|invs| - 1])
    ensures AllRecorded(stores, invs, sid) ==>
      && AllRecorded(stores[..|invs|], invs[..|invs| - 1], sid)
      && CallbackRecords(stores[|invs| - 1], invs[|invs| - 1], sid)
    ensures AllMarking(stores, invs, sid, m) ==>
      AllMarking(stores[..|invs|], invs[..|invs| - 1], sid, m) && JobMarks(stores[|invs| - 1], invs[|invs| - 1], sid, m)
  {
  }

  /** One more invocation: its episode. */
  lemma LastEpisode(stores: seq<Store>, invs: seq<Invocation>, eps: seq<seq<Action>>, sid: SessionId, m: Mailing)
    returns (more: seq<Action>)
    requires Use(stores, invs) && invs != [] && SerialRunOf(stores[..|invs|], invs[..|invs| - 1], eps, sid, m)
    ensures Rests(After(EmptyWorld, Flatten(eps)), stores[|invs| - 1])
    ensures EpisodeOf(After(EmptyWorld, Flatten(eps)), stores[|invs| - 1], invs[|invs| - 1], stores[|invs|], more, sid, m)
  {
    var n := |invs| - 1;
    var w := After(EmptyWorld, Flatten(eps));
    RunRemembers(Flatten(eps), stores[n]);
    more := InvocationIsEpisode(w, stores[n], invs[n], stores[n + 1], sid, m);
  }

  lemma LastIsSerial(stores: seq<Store>, invs: seq<Invocation>, eps: seq<seq<Action>>, more: seq<Action>, sid: SessionId,
                     m: Mailing)
    requires Use(stores, invs) && invs != [] && SerialRunOf(stores[..|invs|], invs[..|invs| - 1], eps, sid, m)
    requires EpisodeOf(After(EmptyWorld, Flatten(eps)), stores[|invs| - 1], invs[|invs| - 1], stores[|invs|], more, sid, m)
    ensures SerialRunOf(stores, invs, eps + [more], sid, m) && Flatten(eps + [more]) == Flatten(eps) + more
  {
    EpisodesSnoc(EmptyWorld, eps, more);
    DisciplineSnoc(eps, more, sid, m);
    Earlier(stores, invs, sid, m);
  }

  /** Every use of the service is a serial run of the protocol. */
  lemma {:induction false} UseIsSerial(stores: seq<Store>, invs: seq<Invocation>, sid: SessionId, m: Mailing)
    returns (eps: seq<seq<Action>>)
    requires Use(stores, invs)
    ensures SerialRunOf(stores, invs, eps, sid, m)
    decreases |invs|
  {
    eps := [];
    if invs != [] {
      Earlier(stores, invs, sid, m);
      eps := UseIsSerial(stores[..|invs|], invs[..|invs| - 1], sid, m);
      var more := LastEpisode(stores, invs, eps, sid, m);
      LastIsSerial(stores, invs, eps, more, sid, m);
      eps := eps + [more];
    }
  }

  lemma OneInvocationOnward(stores: seq<Store>, invs: seq<Invocation>, sid: SessionId)
    requires Use(stores, invs) && invs != [] && sid in stores[|invs| - 1].table
    ensures sid in stores[|invs|].table && Onward(stores[|invs| - 1].table[sid], stores[|invs|].table[sid])
  {
    Earlier(stores, invs, sid, ExpiryMail);
    var eps := UseIsSerial(stores[..|invs|], invs[..|invs| - 1], sid, ExpiryMail);
    var more := LastEpisode(stores, invs, eps, sid, ExpiryMail);
    LastIsSerial(stores, invs, eps, more, sid, ExpiryMail);
    var w := After(EmptyWorld, Flatten(eps));
    RunConcat(EmptyWorld, Flatten(eps), more);
    SerialHandedOnce(eps + [more], sid);
    RunKeepsInv(EmptyWorld, Flatten(eps));
    RunGrows(w, more, sid);
    assert Onward(After(w, more).history[sid][|w.history[sid]| - 1], Last(After(w, more).history[sid]));
  }

  /** Whatever is invoked and whatever fails, a session never goes back and keeps the Yoti id it was given. */
  lemma {:induction false} UseMovesOnward(stores: seq<Store>, invs: seq<Invocation>, sid: SessionId, i: nat, j: nat)
    requires Use(stores, invs) && i <= j <= |invs| && sid in stores[i].table
    ensures sid in stores[j].table
    ensures Rank(stores[i].table[sid].state) <= Rank(stores[j].table[sid].state)
    ensures stores[i].table[sid].yotiSessionId.Some? ==>
              stores[j].table[sid].yotiSessionId == stores[i].table[sid].yotiSessionId
    decreases j
  {
    if i < j {
      UseMovesOnward(stores, invs, sid, i, j - 1);
      OneInvocationOnward(stores[..j + 1], invs[..j], sid);
    }
  }

  /**
   Whatever is invoked and whatever fails: a session is handed one code and one token at most, its Yoti id
   is stored once, and its row is as a reader may rely on.
   */
  lemma UseHandsOnce(stores: seq<Store>, invs: seq<Invocation>, sid: SessionId)
    requires Use(stores, invs)
    ensures var st := stores[|invs|];
            && Count(st.trail, sid, CodeGiven) <= 1 && Count(st.trail, sid, TokenGiven) <= 1
            && Count(st.trail, sid, YotiIdStored) <= 1
            && (sid in st.table ==> RowOk(st.table[sid]))
  {
    var eps := UseIsSerial(stores, invs, sid, ExpiryMail);
    SerialHandedOnce(eps, sid);
    RunKeepsInv(EmptyWorld, Flatten(eps));
    var w := After(EmptyWorld, Flatten(eps));
    if sid in w.history { assert Last(w.history[sid]) in w.history[sid]; }
  }

  /**
   Whatever is invoked and whatever fails, if every credential sent for a session is recorded: there are never more
   of its credentials than processed thank-you callbacks, and such a callback stands between any two.
   */
  lemma UseCredentialsAlternate(stores: seq<Store>, invs: seq<Invocation>, sid: SessionId, i: nat, j: nat)
    requires Use(stores, invs) && AllRecorded(stores, invs, sid)
    ensures var trail := stores[|invs|].trail;
            && Count(trail, sid, CredentialSent) <= Count(trail, sid, ThankYouStored)
            && (i < j < |trail| && trail[i] == trail[j] == Credential(sid) ==>
                  exists k :: i < k < j && trail[k] == Thanked(sid))
  {
    var eps := UseIsSerial(stores, invs, sid, ExpiryMail);
    SerialCredentialsAlternate(eps, sid, i, j);
  }

  /**
   Whatever is invoked and whatever else fails, if the job marks the session behind each notice it is sent, and the
   index is not behind on its flag then: it is sent one expiry notice, or one reminder, at most.
   */
  lemma UseNotifiesOnce(stores: seq<Store>, invs: seq<Invocation>, sid: SessionId, m: Mailing)
    requires Use(stores, invs) && AllMarking(stores, invs, sid, m)
    ensures Count(stores[|invs|].trail, sid, Sent(m)) <= 1
  {
    var eps := UseIsSerial(stores, invs, sid, m);
    SerialNoticedOnce(eps, sid, m);
  }

  // ---------- jobs over an index that is up to date ----------

  /** What the queries of a job return are the rows as they stand. */
  ghost predicate UpToDate(st: Store, inv: Invocation) {
    inv.Expiry? || inv.Reminding? ==>
      forall x | x in Concat(inv.results) :: x.sid in st.table && x.row == st.table[x.sid]
  }

  /** The job's mark of the session succeeds if its notice, or its reminder, is accepted. */
  ghost predicate Follows(inv: Invocation, sid: SessionId) {
    && (inv.Expiry? ==> forall k | 0 <= k < |inv.Swept()| && inv.Swept()[k].sid == sid ::
          inv.script(k).ok ==> inv.script(|inv.Swept()| + k).ok)
    && (inv.Reminding? ==> forall k | 0 <= k < |inv.Swept()| && inv.Swept()[k].sid == sid :: FlagBehind(inv.script, k))
  }

  /** A session that has been sent a notice is flagged between invocations. */
  ghost predicate FlaggedIfSent(st: Store, sid: SessionId, m: Mailing) {
    SentBefore(st, sid, m) ==> sid in st.table && Flag(m, st.table[sid])
  }

  /** An up-to-date index does not return a session again that has been notified and flagged. */
  lemma FreshMarks(st: Store, inv: Invocation, sid: SessionId, m: Mailing)
    requires UpToDate(st, inv) && Follows(inv, sid) && FlaggedIfSent(st, sid, m)
    ensures JobMarks(st, inv, sid, m)
  {
    if if m.ExpiryMail? then inv.Expiry? else inv.Reminding? {
      forall x | x in inv.Swept() && x.sid == sid ensures FlagCurrent(st, x, m) && !SentBefore(st, sid, m) {
        SweepOfReturned(m, inv.results, inv.clock, inv.cutoff, x);
      }
      assert forall k | 0 <= k < |inv.Swept()| :: inv.Swept()[k] in inv.Swept();
    }
  }

  /** Between invocations a session that has been notified is flagged, if marks have been kept so far. */
  lemma MarkedSoFar(stores: seq<Store>, invs: seq<Invocation>, sid: SessionId, m: Mailing)
    requires Use(stores, invs) && AllMarking(stores, invs, sid, m)
    ensures FlaggedIfSent(stores[|invs|], sid, m)
  {
    var eps := UseIsSerial(stores, invs, sid, m);
    SerialFlagged(eps, sid, m);
  }

  lemma {:induction false} FreshMarking(stores: seq<Store>, invs: seq<Invocation>, sid: SessionId, m: Mailing)
    requires Use(stores, invs)
    requires forall k | 0 <= k < |invs| :: UpToDate(stores[k], invs[k]) && Follows(invs[k], sid)
    ensures AllMarking(stores, invs, sid, m)
    decreases |invs|
  {
    if invs != [] {
      var n := |invs| - 1;
      Earlier(stores, invs, sid, m);
      FreshMarking(stores[..n + 1], invs[..n], sid, m);
      MarkedSoFar(stores[..n + 1], invs[..n], sid, m);
      FreshMarks(stores[n], invs[n], sid, m);
      MarkingSnoc(stores, invs, sid, m);
    }
  }

  lemma MarkingSnoc(stores: seq<Store>, invs: seq<Invocation>, sid: SessionId, m: Mailing)
    requires |stores| == |invs| + 1 && invs != []
    requires AllMarking(stores[..|invs|], invs[..|invs| - 1], sid, m) && JobMarks(stores[|invs| - 1], invs[|invs| - 1], sid, m)
    ensures AllMarking(stores, invs, sid, m)
  {
    forall k | 0 <= k < |invs| ensures JobMarks(stores[k], invs[k], sid, m) {
      if k < |invs| - 1 { assert JobMarks(stores[..|invs|][k], invs[..|invs| - 1][k], sid, m); }
    }
  }

  /**
   Over indexes that are up to date, whatever else fails: a session is sent one expiry notice and one reminder at most,
   if each that is accepted is followed by its mark.
   */
  lemma FreshUseNotifiesOnce(stores: seq<Store>, invs: seq<Invocation>, sid: SessionId, m: Mailing)
    requires Use(stores, invs)
    requires forall k | 0 <= k < |invs| :: UpToDate(stores[k], invs[k]) && Follows(invs[k], sid)
    ensures Count(stores[|invs|].trail, sid, Sent(m)) <= 1
  {
    FreshMarking(stores, invs, sid, m);
    UseNotifiesOnce(stores, invs, sid, m);
  }
}
