/** Counting the events of one session on a trail. */
module Trails {
  import opened SessionModel
  import opened Protocol

  datatype Kind =
    | YotiIdStored | CodeStored | CodeGiven | TokenStored | TokenGiven
    | CredentialSent | ThankYouStored | NoticeSent | ReminderSent

  predicate Is(e: Event, sid: SessionId, kind: Kind) {
    e.sid == sid &&
    match kind
    case YotiIdStored => e.Stored? && e.update.SetYotiIdAndStatus?
    case CodeStored => e.Stored? && e.update.SetAuthorizationCode?
    case TokenStored => e.Stored? && e.update.SetAccessTokenDetails?
    case CodeGiven => e.CodeHanded?
    case TokenGiven => e.TokenHanded?
    case CredentialSent => e.Credential?
    case ThankYouStored => e.Stored? && e.update == SetAuthState(YotiSessionComplete)
    case NoticeSent => e.ExpiryNotice?
    case ReminderSent => e.ReminderQueued?
  }

  function Count(trail: seq<Event>, sid: SessionId, kind: Kind): nat {
    if trail == [] then 0
    else Count(trail[..|trail| - 1], sid, kind) + (if Is(trail[|trail| - 1], sid, kind) then 1 else 0)
  }

  lemma {:induction false} CountAppend(trail: seq<Event>, more: seq<Event>, sid: SessionId, kind: Kind)
    ensures Count(trail + more, sid, kind) == Count(trail, sid, kind) + Count(more, sid, kind)
    decreases |more|
  {
    if more == [] {
      assert trail + more == trail;
    } else {
      var n := |more| - 1;
      assert (trail + more)[..|trail + more| - 1] == trail + more[..n];
      CountAppend(trail, more[..n], sid, kind);
    }
  }

  lemma CountFew(events: seq<Event>, sid: SessionId, kind: Kind)
    requires |events| <= 2
    ensures Count(events, sid, kind) ==
            (if |events| > 0 && Is(events[0], sid, kind) then 1 else 0) +
            (if |events| > 1 && Is(events[1], sid, kind) then 1 else 0)
  {
    if |events| == 2 {
      assert events[..1] == [events[0]];
    }
  }

  /** A step adds two events at most, both of its own session, and the second is an answer to the caller. */
  lemma FewEvents(f: Flight, env: Env)
    ensures var events := EffectOf(f, env).events;
            && |events| <= 2
            && (|events| > 0 ==> events[0].sid == f.sid)
            && (|events| > 1 ==> events[1].sid == f.sid && (events[1].CodeHanded? || events[1].TokenHanded?))
  {
  }
}
