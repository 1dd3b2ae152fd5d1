/**
 A run in which guards are lost: two authorization requests overlap, and each of the two codes is then
 redeemed, the first against a version of the row that has since been overwritten.
 */
module Replay {
  import opened Wrappers
  import opened SessionModel
  import opened Protocol
  import opened Guards
  import opened Trails

  function Answer(id: string): Env { Env(true, None, true, 500, id, 0) }

  const OPEN := NewRow(0)
  const WITH_YOTI := OPEN.(yotiSessionId := Some("y"), state := YotiSessionCreated)
  const WITH_CODE := WITH_YOTI.(authorizationCode := Some("c"), state := AuthCodeIssued)
  const WITH_SECOND_CODE := WITH_CODE.(authorizationCode := Some("d"))

  const WITH_TOKEN := WITH_CODE.(authorizationCode := None, accessTokenExpiryDate := Some(3600), state := AccessTokenIssued)

  const OPENED := [LetterStarted("s", "y"), Stored("s", SetYotiIdAndStatus("y"))]
  const STORED := [Stored("s", SetAuthorizationCode("c")), Stored("s", SetAuthorizationCode("d"))]
  const HANDED := [CodeHanded("s", "c"), CodeHanded("s", "d")]
  const REDEEMED := [Stored("s", SetAccessTokenDetails(3600)), TokenHanded("s")]

  const SELECT := SelectDocument("s", UkPassport)

  lemma Do(acts: seq<Action>, w: World, a: Action) returns (acts': seq<Action>, w': World)
    requires IsRun(EmptyWorld, acts) && After(EmptyWorld, acts) == w && Enabled(w, a)
    ensures IsRun(EmptyWorld, acts') && After(EmptyWorld, acts') == w' == Next(w, a)
    ensures AllHeld(EmptyWorld, acts') <==> AllHeld(EmptyWorld, acts) && StillHeld(w, a)
  {
    RunSnoc(EmptyWorld, acts, a);
    HeldSnoc(EmptyWorld, acts, a);
    acts', w' := acts + [a], Next(w, a);
  }

  /** A run so far and the world it has reached. */
  ghost predicate Reached(acts: seq<Action>, w: World) {
    IsRun(EmptyWorld, acts) && After(EmptyWorld, acts) == w && "s" in w.history
  }

  /** Nothing unusual: the session is created, and a document selection gets a Yoti id for it ... */
  lemma Selecting() returns (acts: seq<Action>, w: World)
    ensures Reached(acts, w)
    ensures w == World(map["s" := [OPEN]], map[0 := Flight(SELECT, "s", 0, OPEN, StartLetterMachine("y"))], [])
  {
    acts, w := Do([], EmptyWorld, Create("s", 0));
    acts, w := Do(acts, w, Start(0, SELECT, "s", 0, Answer("")));
    acts, w := Do(acts, w, Advance(0, Answer("y")));
  }

  /** ... which it stores. */
  lemma Opening() returns (acts: seq<Action>, w: World)
    ensures Reached(acts, w) && w.history.Keys == {"s"} && w.history["s"] == [OPEN, WITH_YOTI] && w.flights.Keys == {0}
    ensures w.trail == OPENED
  {
    acts, w := Selecting();
    acts, w := Do(acts, w, Advance(0, Answer("")));
    assert w.flights[0] == Flight(SELECT, "s", 0, OPEN, StoreYotiId("y")) && w.trail == [LetterStarted("s", "y")];
    acts, w := Do(acts, w, Advance(0, Answer("")));
    assert w.history.Keys == {"s"} && w.history["s"] == [OPEN, WITH_YOTI];
  }

  /** A handler that has read the row before any code was stored. */
  ghost predicate Authorizing(w: World, t: nat, stage: Stage) {
    t in w.flights && w.flights[t] == Flight(Authorize("s"), "s", 1, WITH_YOTI, stage)
  }

  lemma StoreCodeStep(acts: seq<Action>, w: World, t: nat, code: string) returns (acts': seq<Action>, w': World)
    requires Reached(acts, w) && w.history["s"] != [] && Authorizing(w, t, StoreCode)
    ensures Reached(acts', w') && w'.flights == w.flights[t := w.flights[t].(stage := AuditCode(code))]
    ensures w'.history.Keys == w.history.Keys
    ensures w'.history["s"] == w.history["s"] + [Apply(SetAuthorizationCode(code), Last(w.history["s"]))]
    ensures w'.trail == w.trail + [Stored("s", SetAuthorizationCode(code))]
    ensures AllHeld(EmptyWorld, acts') ==> AllHeld(EmptyWorld, acts) && Last(w.history["s"]).state == YotiSessionCreated
  {
    acts', w' := Do(acts, w, Advance(t, Answer(code)));
  }

  lemma HandCode(acts: seq<Action>, w: World, t: nat, code: string) returns (acts': seq<Action>, w': World)
    requires Reached(acts, w) && w.history["s"] != [] && Authorizing(w, t, AuditCode(code))
    ensures Reached(acts', w') && w'.flights == w.flights - {t} && w'.history == w.history
    ensures w'.trail == w.trail + [CodeHanded("s", code)]
    ensures AllHeld(EmptyWorld, acts') ==> AllHeld(EmptyWorld, acts)
  {
    var mid;
    acts', mid := Do(acts, w, Advance(t, Answer("").(ok := false)));
    acts', w' := Do(acts', mid, Advance(t, Answer("").(ok := false)));
    assert w'.flights == w.flights - {t};
  }

  lemma ReadForCode(acts: seq<Action>, w: World, t: nat) returns (acts': seq<Action>, w': World)
    requires Reached(acts, w) && |w.history["s"]| > 1 && w.history["s"][1] == WITH_YOTI && t !in w.flights
    ensures Reached(acts', w') && Authorizing(w', t, StoreCode) && w' == w.(flights := w'.flights)
    ensures w'.flights.Keys == w.flights.Keys + {t} && forall u | u in w.flights :: w'.flights[u] == w.flights[u]
  {
    acts', w' := Do(acts, w, Start(t, Authorize("s"), "s", 1, Answer("")));
  }

  lemma BothRead() returns (acts: seq<Action>, w: World)
    ensures Reached(acts, w) && w.history.Keys == {"s"} && w.history["s"] == [OPEN, WITH_YOTI] && w.trail == OPENED
    ensures w.flights.Keys == {0, 1, 2} && Authorizing(w, 1, StoreCode) && Authorizing(w, 2, StoreCode)
  {
    acts, w := Opening();
    acts, w := ReadForCode(acts, w, 1);
    acts, w := ReadForCode(acts, w, 2);
  }

  lemma BothStored() returns (acts: seq<Action>, w: World)
    ensures Reached(acts, w) && !AllHeld(EmptyWorld, acts)
    ensures w.history.Keys == {"s"} && w.history["s"] == [OPEN, WITH_YOTI, WITH_CODE, WITH_SECOND_CODE]
    ensures w.trail == OPENED + STORED
    ensures w.flights.Keys == {0, 1, 2} && Authorizing(w, 1, AuditCode("c")) && Authorizing(w, 2, AuditCode("d"))
  {
    acts, w := BothRead();
    acts, w := StoreCodeStep(acts, w, 1, "c");
    acts, w := StoreCodeStep(acts, w, 2, "d");
    assert STORED == [STORED[0]] + [STORED[1]];
  }

  /** Both authorization requests read the same row, and both are answered with a code. */
  lemma TwoCodes() returns (acts: seq<Action>, w: World)
    ensures Reached(acts, w) && !AllHeld(EmptyWorld, acts)
    ensures w.history.Keys == {"s"} && w.history["s"] == [OPEN, WITH_YOTI, WITH_CODE, WITH_SECOND_CODE]
    ensures 1 !in w.flights && w.trail == OPENED + STORED + HANDED
  {
    acts, w := BothStored();
    acts, w := HandCode(acts, w, 1, "c");
    acts, w := HandCode(acts, w, 2, "d");
    assert HANDED == [HANDED[0]] + [HANDED[1]];
  }

  lemma RedeemOne(acts: seq<Action>, w: World, version: nat, code: string) returns (acts': seq<Action>, w': World)
    requires IsRun(EmptyWorld, acts) && After(EmptyWorld, acts) == w && 1 !in w.flights
    requires "s" in w.history && version < |w.history["s"]|
    requires w.history["s"][version] in {WITH_CODE, WITH_SECOND_CODE}
    requires w.history["s"][version].authorizationCode == Some(code)
    ensures IsRun(EmptyWorld, acts') && After(EmptyWorld, acts') == w' && 1 !in w'.flights
    ensures AllHeld(EmptyWorld, acts') ==> AllHeld(EmptyWorld, acts)
    ensures w'.history.Keys == w.history.Keys
    ensures w'.history["s"] == w.history["s"] + [Apply(SetAccessTokenDetails(3600), Last(w.history["s"]))]
    ensures w'.trail == w.trail + REDEEMED
  {
    var mid;
    acts', mid := Do(acts, w, Start(1, Redeem(code), "s", version, Answer("")));
    assert mid == w.(flights := w.flights[1 := Flight(Redeem(code), "s", version, w.history["s"][version], StoreToken)]);
    acts', w' := Do(acts', mid, Advance(1, Answer("")));
  }

  lemma CountAll(kind: Kind)
    ensures var all := OPENED + STORED + HANDED + REDEEMED + REDEEMED;
            Count(all, "s", kind) ==
            Count(OPENED, "s", kind) + Count(STORED, "s", kind) + Count(HANDED, "s", kind) + 2 * Count(REDEEMED, "s", kind)
  {
    CountAppend(OPENED, STORED, "s", kind);
    CountAppend(OPENED + STORED, HANDED, "s", kind);
    CountAppend(OPENED + STORED + HANDED, REDEEMED, "s", kind);
    CountAppend(OPENED + STORED + HANDED + REDEEMED, REDEEMED, "s", kind);
  }

  lemma CountGiven(kind: Kind)
    requires kind == CodeGiven || kind == TokenGiven
    ensures Count(OPENED + STORED + HANDED + REDEEMED + REDEEMED, "s", kind) == 2
  {
    CountAll(kind);
    CountFew(OPENED, "s", kind);
    CountFew(STORED, "s", kind);
    CountFew(HANDED, "s", kind);
    CountFew(REDEEMED, "s", kind);
  }

  lemma RedeemBoth() returns (acts: seq<Action>, w: World)
    ensures Reached(acts, w) && !AllHeld(EmptyWorld, acts)
    ensures w.trail == OPENED + STORED + HANDED + REDEEMED + REDEEMED
    ensures w.history.Keys == {"s"} && w.history["s"] == [OPEN, WITH_YOTI, WITH_CODE, WITH_SECOND_CODE, WITH_TOKEN, WITH_TOKEN]
  {
    acts, w := TwoCodes();
    var rows := w.history["s"];
    acts, w := RedeemOne(acts, w, 2, "c");
    assert w.history["s"][3] == rows[3];
    acts, w := RedeemOne(acts, w, 3, "d");
  }

  /** Two codes in a row and two tokens in a row: the session stays where it is. */
  lemma NeverBack(w: World)
    requires w.history.Keys == {"s"}
    requires w.history["s"] == [OPEN, WITH_YOTI, WITH_CODE, WITH_SECOND_CODE, WITH_TOKEN, WITH_TOKEN]
    ensures Forward(w)
  {
  }

  /** Once guards are lost, a session can be handed two codes and two tokens, although it never goes back. */
  lemma HandedTwice() returns (acts: seq<Action>)
    ensures IsRun(EmptyWorld, acts) && !AllHeld(EmptyWorld, acts) && Forward(After(EmptyWorld, acts))
    ensures Count(After(EmptyWorld, acts).trail, "s", CodeGiven) == 2
    ensures Count(After(EmptyWorld, acts).trail, "s", TokenGiven) == 2
  {
    var w;
    acts, w := RedeemBoth();
    NeverBack(w);
    CountGiven(CodeGiven);
    CountGiven(TokenGiven);
  }
}
