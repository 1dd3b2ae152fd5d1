/**
 Selecting the sessions a scheduled job works on: one index query per state, duplicates dropped, then a
 filter on age and flag. Query results are arbitrary: an index lags, and may return a row under two states.
 */
module Sweep {
  import opened SessionModel

  /** A session as an index query returned it. */
  datatype Item = Item(sid: SessionId, row: Row)

  /** The items the first `n` queries returned, in order. */
  function FirstOf(results: seq<seq<Item>>, n: nat): seq<Item>
    requires n <= |results|
  {
    if n == 0 then [] else FirstOf(results, n - 1) + results[n - 1]
  }

  function Concat(results: seq<seq<Item>>): seq<Item> {
    FirstOf(results, |results|)
  }

  /** The items not yet expired when examined; `clock(k)` is the time at which item `k` is examined. */
  function Live(items: seq<Item>, clock: nat -> int): seq<Item> {
    if items == [] then []
    else
      var n := |items| - 1;
      Live(items[..n], clock) + (if items[n].row.expiryDate > clock(n) then [items[n]] else [])
  }

  ghost predicate Distinct(items: seq<Item>) {
    forall i, j | 0 <= i < j < |items| :: items[i].sid != items[j].sid
  }

  predicate HasId(items: seq<Item>, sid: SessionId) {
    exists k :: 0 <= k < |items| && items[k].sid == sid
  }

  lemma HasIdAppend(items: seq<Item>, item: Item, sid: SessionId)
    ensures HasId(items + [item], sid) <==> HasId(items, sid) || item.sid == sid
  {
    var more := items + [item];
    assert more[|items|] == item;
    if k :| 0 <= k < |items| && items[k].sid == sid { assert more[k].sid == sid; }
  }

  /** Each session the first time it occurs. */
  function FirstById(items: seq<Item>): seq<Item> {
    if items == [] then []
    else
      var n := |items| - 1;
      var rest := FirstById(items[..n]);
      if HasId(rest, items[n].sid) then rest else rest + [items[n]]
  }

  lemma LiveAppend(items: seq<Item>, item: Item, clock: nat -> int)
    ensures Live(items + [item], clock) ==
            if item.row.expiryDate > clock(|items|) then Live(items, clock) + [item] else Live(items, clock)
  {
    assert (items + [item])[..|items|] == items;
  }

  lemma FirstByIdAppend(items: seq<Item>, item: Item)
    ensures FirstById(items + [item]) ==
            if HasId(FirstById(items), item.sid) then FirstById(items) else FirstById(items) + [item]
  {
    assert (items + [item])[..|items|] == items;
  }

  /** The items a query loop that has examined `items` has collected. */
  function Collected(items: seq<Item>, clock: nat -> int): seq<Item> {
    FirstById(Live(items, clock))
  }

  lemma CollectedAppend(items: seq<Item>, item: Item, clock: nat -> int)
    ensures Collected(items + [item], clock) ==
            if !HasId(Collected(items, clock), item.sid) && item.row.expiryDate > clock(|items|)
            then Collected(items, clock) + [item] else Collected(items, clock)
  {
    LiveAppend(items, item, clock);
    FirstByIdAppend(Live(items, clock), item);
  }

  ghost predicate Tracks(unique: set<SessionId>, items: seq<Item>) {
    forall sid :: sid in unique <==> HasId(items, sid)
  }

  lemma TracksAppend(unique: set<SessionId>, items: seq<Item>, item: Item)
    requires Tracks(unique, items)
    ensures Tracks(unique + {item.sid}, items + [item])
  {
    forall sid { HasIdAppend(items, item, sid); }
  }

  /** What the query loop has when it has examined `seen`. */
  ghost predicate Gathered(unique: set<SessionId>, filtered: seq<Item>, seen: seq<Item>, clock: nat -> int) {
    filtered == Collected(seen, clock) && Tracks(unique, filtered)
  }

  lemma Examine(unique: set<SessionId>, filtered: seq<Item>, seen: seq<Item>, item: Item, clock: nat -> int)
    requires Gathered(unique, filtered, seen, clock)
    ensures if item.sid !in unique && item.row.expiryDate > clock(|seen|)
            then Gathered(unique + {item.sid}, filtered + [item], seen + [item], clock)
            else Gathered(unique, filtered, seen + [item], clock)
  {
    CollectedAppend(seen, item, clock);
    TracksAppend(unique, filtered, item);
  }

  /** The query loop, with its set of identifiers already seen. */
  method GetSessions(results: seq<seq<Item>>, clock: nat -> int) returns (filtered: seq<Item>)
    ensures filtered == Collected(Concat(results), clock)
  {
    filtered := [];
    var unique: set<SessionId> := {};
    var k: nat := 0;
    ghost var seen: seq<Item> := [];
    for i := 0 to |results|
      invariant k == |seen| && seen == FirstOf(results, i) && Gathered(unique, filtered, seen, clock)
    {
      var items := results[i];
      ghost var before := seen;
      for j := 0 to |items|
        invariant k == |seen| && seen == before + items[..j] && Gathered(unique, filtered, seen, clock)
      {
        var item := items[j];
        Examine(unique, filtered, seen, item, clock);
        if item.sid !in unique && item.row.expiryDate > clock(k) {
          unique := unique + {item.sid};
          filtered := filtered + [item];
        }
        k := k + 1;
        seen := seen + [item];
      }
      assert items[..|items|] == items;
    }
  }

  /** No session is returned twice, and those returned are exactly those with an unexpired item. */
  lemma {:induction false} FirstByIdOnce(items: seq<Item>)
    ensures var r := FirstById(items);
            && Distinct(r)
            && (forall sid :: HasId(r, sid) <==> HasId(items, sid))
  {
    if items != [] {
      var n := |items| - 1;
      FirstByIdOnce(items[..n]);
      var r := FirstById(items);
      forall sid ensures HasId(r, sid) <==> HasId(items, sid) {
        assert items == items[..n] + [items[n]];
        HasIdAppend(items[..n], items[n], sid);
        var rest := FirstById(items[..n]);
        HasIdAppend(rest, items[n], sid);
      }
    }
  }

  /** The position of the first item of a session. */
  function FirstPosition(items: seq<Item>, sid: SessionId): nat {
    if items == [] || items[0].sid == sid then 0 else 1 + FirstPosition(items[1..], sid)
  }

  lemma {:induction false} FirstPositionIs(items: seq<Item>, sid: SessionId)
    ensures var p := FirstPosition(items, sid);
            && p <= |items|
            && (p < |items| ==> items[p].sid == sid)
            && (forall k | 0 <= k < p :: items[k].sid != sid)
            && (HasId(items, sid) <==> p < |items|)
  {
    if items != [] && items[0].sid != sid {
      FirstPositionIs(items[1..], sid);
      var p := FirstPosition(items, sid);
      forall k | 0 <= k < p ensures items[k].sid != sid {
        if k > 0 { assert items[k] == items[1..][k - 1]; }
      }
    }
  }

  lemma FirstPositionExtends(items: seq<Item>, more: Item, sid: SessionId)
    ensures HasId(items, sid) ==> FirstPosition(items + [more], sid) == FirstPosition(items, sid)
    ensures !HasId(items, sid) && more.sid == sid ==> FirstPosition(items + [more], sid) == |items|
  {
    FirstPositionIs(items, sid);
    FirstPositionIs(items + [more], sid);
    var p, q := FirstPosition(items, sid), FirstPosition(items + [more], sid);
    assert q < |items| ==> (items + [more])[q] == items[q];
    assert p < |items| ==> (items + [more])[p] == items[p];
    assert (items + [more])[|items|] == more;
  }

  /** Each session is returned as it was first seen, and in the order of those first sightings. */
  lemma {:induction false} FirstByIdOrder(items: seq<Item>, i: nat, j: nat)
    requires i <= j < |FirstById(items)|
    ensures var r := FirstById(items);
            && FirstPosition(items, r[i].sid) < |items| && r[i] == items[FirstPosition(items, r[i].sid)]
            && (i < j ==> FirstPosition(items, r[i].sid) < FirstPosition(items, r[j].sid))
  {
    var n := |items| - 1;
    var init := items[..n];
    var rest := FirstById(init);
    var r := FirstById(items);
    assert items == init + [items[n]];
    FirstByIdOnce(init);
    FirstPositionExtends(init, items[n], r[i].sid);
    FirstPositionExtends(init, items[n], r[j].sid);
    if j < |rest| {
      FirstByIdOrder(init, i, j);
      FirstPositionIs(init, r[i].sid);
      FirstPositionIs(init, r[j].sid);
      assert HasId(rest, rest[i].sid) && HasId(rest, rest[j].sid);
    } else if i < j {
      FirstByIdOrder(init, i, i);
      assert HasId(rest, rest[i].sid);
      FirstPositionIs(init, r[i].sid);
    }
  }

  /** At a fixed time, the sessions collected are exactly those some query returned unexpired, each once. */
  lemma CollectedExactly(results: seq<seq<Item>>, now: int, sid: SessionId)
    ensures var r := Collected(Concat(results), k => now);
            && Distinct(r)
            && (HasId(r, sid) <==> exists x :: x in Concat(results) && x.sid == sid && x.row.expiryDate > now)
            && forall x | x in r :: x in Concat(results) && x.row.expiryDate > now
  {
    var items := Concat(results);
    var live := Live(items, k => now);
    var r := FirstById(live);
    LiveExactly(items, now);
    FirstByIdOnce(live);
    if x :| x in items && x.sid == sid && x.row.expiryDate > now {
      var k :| 0 <= k < |live| && live[k] == x;
      assert HasId(live, sid);
    }
    forall x | x in r ensures x in live {
      var i :| 0 <= i < |r| && r[i] == x;
      FirstByIdOrder(live, i, i);
    }
    if HasId(live, sid) {
      var k :| 0 <= k < |live| && live[k].sid == sid;
      assert live[k] in live;
    }
  }

  lemma {:induction false} LiveExactly(items: seq<Item>, now: int)
    ensures forall x :: x in Live(items, k => now) <==> x in items && x.row.expiryDate > now
  {
    if items != [] {
      var n := |items| - 1;
      LiveExactly(items[..n], now);
      assert items == items[..n] + [items[n]];
    }
  }

  // ---------- a job's filter ----------

  /** A session created up to this moment has had its document kit for a day longer than it is valid. */
  function Cutoff(now: int, ttlDays: int): int {
    now - (ttlDays + 1) * SECONDS_PER_DAY
  }

  /** A session created up to this moment is five days old. */
  function ReminderCutoff(now: int): int {
    now - 5 * SECONDS_PER_DAY
  }

  predicate Eligible(m: Mailing, row: Row, cutoff: int) {
    row.createdDate <= cutoff && !Flag(m, row)
  }

  function Select(m: Mailing, items: seq<Item>, cutoff: int): seq<Item> {
    if items == [] then []
    else
      var n := |items| - 1;
      Select(m, items[..n], cutoff) + (if Eligible(m, items[n].row, cutoff) then [items[n]] else [])
  }

  /** The sessions one run of the job works on. */
  function SweepOf(m: Mailing, results: seq<seq<Item>>, clock: nat -> int, cutoff: int): seq<Item> {
    Select(m, Collected(Concat(results), clock), cutoff)
  }

  lemma {:induction false} SelectKeeps(m: Mailing, items: seq<Item>, cutoff: int)
    ensures forall x :: x in Select(m, items, cutoff) <==> x in items && Eligible(m, x.row, cutoff)
  {
    if items != [] {
      var n := |items| - 1;
      SelectKeeps(m, items[..n], cutoff);
      assert items == items[..n] + [items[n]];
    }
  }

  lemma {:induction false} SelectDistinct(m: Mailing, items: seq<Item>, cutoff: int)
    requires Distinct(items)
    ensures Distinct(Select(m, items, cutoff))
  {
    if items != [] {
      var n := |items| - 1;
      SelectDistinct(m, items[..n], cutoff);
      SelectKeeps(m, items[..n], cutoff);
      assert forall x | x in Select(m, items[..n], cutoff) :: x in items[..n];
    }
  }

  lemma {:induction false} LiveKeeps(items: seq<Item>, clock: nat -> int)
    ensures forall x | x in Live(items, clock) :: x in items
    ensures forall k | 0 <= k < |items| && items[k].row.expiryDate > clock(k) :: items[k] in Live(items, clock)
  {
    if items != [] {
      LiveKeeps(items[..|items| - 1], clock);
    }
  }

  lemma SweepOfOnce(m: Mailing, results: seq<seq<Item>>, clock: nat -> int, cutoff: int)
    ensures Distinct(SweepOf(m, results, clock, cutoff))
  {
    var live := Live(Concat(results), clock);
    FirstByIdOnce(live);
    SelectDistinct(m, FirstById(live), cutoff);
  }

  lemma SweepOfReturned(m: Mailing, results: seq<seq<Item>>, clock: nat -> int, cutoff: int, x: Item)
    requires x in SweepOf(m, results, clock, cutoff)
    ensures x in Concat(results) && Eligible(m, x.row, cutoff)
  {
    var live := Live(Concat(results), clock);
    LiveKeeps(Concat(results), clock);
    var first := FirstById(live);
    SelectKeeps(m, first, cutoff);
    var i :| 0 <= i < |first| && first[i] == x;
    FirstByIdOrder(live, i, i);
  }

  // ---------- exactly which sessions a sweep selects ----------

  /** Item `k` is unexpired when it is examined, and no earlier item of its session was. */
  ghost predicate FirstLive(items: seq<Item>, clock: nat -> int, k: nat) {
    && k < |items| && items[k].row.expiryDate > clock(k)
    && forall j: nat | j < k && items[j].sid == items[k].sid :: items[j].row.expiryDate <= clock(j)
  }

  ghost predicate HasLive(items: seq<Item>, clock: nat -> int, sid: SessionId) {
    exists k: nat :: k < |items| && items[k].sid == sid && items[k].row.expiryDate > clock(k)
  }

  lemma HasLiveAppend(items: seq<Item>, item: Item, clock: nat -> int, sid: SessionId)
    ensures HasLive(items + [item], clock, sid) <==>
              HasLive(items, clock, sid) || (item.sid == sid && item.row.expiryDate > clock(|items|))
  {
    var more := items + [item];
    assert more[|items|] == item;
    if k: nat :| k < |items| && items[k].sid == sid && items[k].row.expiryDate > clock(k) { assert more[k] == items[k]; }
  }

  lemma {:induction false} CollectedHasLive(items: seq<Item>, clock: nat -> int, sid: SessionId)
    ensures HasId(Collected(items, clock), sid) <==> HasLive(items, clock, sid)
  {
    if items != [] {
      var n := |items| - 1;
      assert items == items[..n] + [items[n]];
      CollectedHasLive(items[..n], clock, sid);
      CollectedAppend(items[..n], items[n], clock);
      HasIdAppend(Collected(items[..n], clock), items[n], sid);
      HasLiveAppend(items[..n], items[n], clock, sid);
    }
  }

  lemma FirstLiveInit(items: seq<Item>, item: Item, clock: nat -> int, k: nat)
    ensures k < |items| ==> (FirstLive(items + [item], clock, k) <==> FirstLive(items, clock, k))
    ensures FirstLive(items + [item], clock, |items|) <==>
              item.row.expiryDate > clock(|items|) && !HasLive(items, clock, item.sid)
  {
    var more := items + [item];
    assert forall j: nat | j < |items| :: more[j] == items[j];
    assert more[|items|] == item;
  }

  /** Some item of the kind is this one. */
  ghost predicate IsFirstLive(items: seq<Item>, clock: nat -> int, x: Item) {
    exists k: nat :: FirstLive(items, clock, k) && items[k] == x
  }

  lemma IsFirstLiveAppend(items: seq<Item>, item: Item, clock: nat -> int, x: Item)
    ensures IsFirstLive(items + [item], clock, x) <==>
              || IsFirstLive(items, clock, x)
              || (item == x && item.row.expiryDate > clock(|items|) && !HasLive(items, clock, item.sid))
  {
    var more := items + [item];
    forall k: nat { FirstLiveInit(items, item, clock, k); }
    assert more[|items|] == item;
    if k: nat :| FirstLive(items, clock, k) && items[k] == x { assert FirstLive(more, clock, k) && more[k] == x; }
  }

  /** What the query loop collects is, of each session, the first item found unexpired. */
  lemma {:induction false} CollectedFirstLive(items: seq<Item>, clock: nat -> int, x: Item)
    ensures x in Collected(items, clock) <==> IsFirstLive(items, clock, x)
  {
    if items != [] {
      var n := |items| - 1;
      assert items == items[..n] + [items[n]];
      CollectedFirstLive(items[..n], clock, x);
      CollectedAppend(items[..n], items[n], clock);
      CollectedHasLive(items[..n], clock, items[n].sid);
      IsFirstLiveAppend(items[..n], items[n], clock, x);
    }
  }

  /**
   An item is selected if and only if it is the first one of its session that is unexpired when examined, is not
   flagged, and is old enough: for a notice the days its document kit is valid and one more, for a reminder five days.
   */
  lemma SweptExactly(results: seq<seq<Item>>, clock: nat -> int, now: int, ttlDays: int, x: Item)
    ensures x in SweepOf(ExpiryMail, results, clock, Cutoff(now, ttlDays)) <==>
              && x.row.createdDate + (ttlDays + 1) * 86400 <= now && !x.row.expiredNotificationSent
              && exists k: nat :: FirstLive(Concat(results), clock, k) && Concat(results)[k] == x
    ensures x in SweepOf(ReminderMail, results, clock, ReminderCutoff(now)) <==>
              && x.row.createdDate + 5 * 86400 <= now && !x.row.reminderEmailSent
              && exists k: nat :: FirstLive(Concat(results), clock, k) && Concat(results)[k] == x
  {
    CollectedFirstLive(Concat(results), clock, x);
    SelectKeeps(ExpiryMail, Collected(Concat(results), clock), Cutoff(now, ttlDays));
    SelectKeeps(ReminderMail, Collected(Concat(results), clock), ReminderCutoff(now));
  }

  /** Both were the first live items of their sessions, and `a` was examined before `b`. */
  ghost predicate Before(items: seq<Item>, clock: nat -> int, a: Item, b: Item) {
    exists p: nat, q: nat :: p < q && FirstLive(items, clock, p) && items[p] == a && FirstLive(items, clock, q) && items[q] == b
  }

  ghost predicate Ordered(items: seq<Item>, clock: nat -> int, r: seq<Item>) {
    forall i, j | 0 <= i < j < |r| :: Before(items, clock, r[i], r[j])
  }

  lemma BeforeAppend(items: seq<Item>, item: Item, clock: nat -> int, a: Item, b: Item)
    requires Before(items, clock, a, b)
    ensures Before(items + [item], clock, a, b)
  {
    var p: nat, q: nat :| p < q && FirstLive(items, clock, p) && items[p] == a && FirstLive(items, clock, q) && items[q] == b;
    FirstLiveInit(items, item, clock, p);
    FirstLiveInit(items, item, clock, q);
    var more := items + [item];
    assert more[p] == a && more[q] == b;
  }

  lemma BeforeLast(items: seq<Item>, item: Item, clock: nat -> int, a: Item)
    requires IsFirstLive(items, clock, a) && FirstLive(items + [item], clock, |items|)
    ensures Before(items + [item], clock, a, item)
  {
    var p: nat :| FirstLive(items, clock, p) && items[p] == a;
    FirstLiveInit(items, item, clock, p);
    var more := items + [item];
    assert more[p] == a && more[|items|] == item;
  }

  lemma OrderedStays(items: seq<Item>, item: Item, clock: nat -> int, r: seq<Item>)
    requires Ordered(items, clock, r)
    ensures Ordered(items + [item], clock, r)
  {
    forall i, j | 0 <= i < j < |r| ensures Before(items + [item], clock, r[i], r[j]) {
      BeforeAppend(items, item, clock, r[i], r[j]);
    }
  }

  lemma OrderedAppend(items: seq<Item>, item: Item, clock: nat -> int, r: seq<Item>)
    requires Ordered(items + [item], clock, r) && FirstLive(items + [item], clock, |items|)
    requires forall a | a in r :: IsFirstLive(items, clock, a)
    ensures Ordered(items + [item], clock, r + [item])
  {
    forall i | 0 <= i < |r| ensures Before(items + [item], clock, r[i], item) {
      assert r[i] in r;
      BeforeLast(items, item, clock, r[i]);
    }
  }

  lemma {:induction false} CollectedOrdered(items: seq<Item>, clock: nat -> int)
    ensures Ordered(items, clock, Collected(items, clock))
  {
    if items != [] {
      var n := |items| - 1;
      var init, item := items[..n], items[n];
      assert items == init + [item];
      CollectedOrdered(init, clock);
      CollectedAppend(init, item, clock);
      CollectedHasLive(init, clock, item.sid);
      FirstLiveInit(init, item, clock, n);
      OrderedStays(init, item, clock, Collected(init, clock));
      if Collected(items, clock) != Collected(init, clock) {
        forall a | a in Collected(init, clock) ensures IsFirstLive(init, clock, a) { CollectedFirstLive(init, clock, a); }
        OrderedAppend(init, item, clock, Collected(init, clock));
      }
    }
  }

  lemma {:induction false} SelectOrdered(m: Mailing, items: seq<Item>, clock: nat -> int, r: seq<Item>, cutoff: int)
    requires Ordered(items, clock, r)
    ensures Ordered(items, clock, Select(m, r, cutoff))
  {
    if r != [] {
      var n := |r| - 1;
      var init := Select(m, r[..n], cutoff);
      SelectOrdered(m, items, clock, r[..n], cutoff);
      SelectKeeps(m, r[..n], cutoff);
      forall i | 0 <= i < |init| ensures Before(items, clock, init[i], r[n]) {
        assert init[i] in r[..n];
        var k :| 0 <= k < n && r[k] == init[i];
      }
    }
  }

  /** The sessions selected are in the order in which the queries returned them. */
  lemma SweptInOrder(m: Mailing, results: seq<seq<Item>>, clock: nat -> int, cutoff: int)
    ensures Ordered(Concat(results), clock, SweepOf(m, results, clock, cutoff))
  {
    CollectedOrdered(Concat(results), clock);
    SelectOrdered(m, Concat(results), clock, Collected(Concat(results), clock), cutoff);
  }

  // ---------- when a sweep comes in time ----------

  /** The first moment the job considers a session of this age expired. */
  function Due(createdDate: int, ttlDays: int): int {
    createdDate + (ttlDays + 1) * SECONDS_PER_DAY
  }

  /** It is the first moment at which the age filter of a run lets the session through. */
  lemma DueExactly(row: Row, now: int, ttlDays: int)
    requires !row.expiredNotificationSent
    ensures Eligible(ExpiryMail, row, Cutoff(now, ttlDays)) <==> Due(row.createdDate, ttlDays) <= now
    ensures Due(row.createdDate, ttlDays) == row.createdDate + (ttlDays + 1) * 86400
  {
  }

  lemma HasIdOf(items: seq<Item>, x: Item)
    requires x in items
    ensures HasId(items, x.sid)
  {
    var k :| 0 <= k < |items| && items[k] == x;
  }

  /** A session with a live item is collected, as some item the queries returned. */
  lemma CollectedFrom(items: seq<Item>, clock: nat -> int, x: Item) returns (first: Item)
    requires x in Live(items, clock)
    ensures first in Collected(items, clock) && first in items && first.sid == x.sid
  {
    var live := Live(items, clock);
    HasIdOf(live, x);
    FirstByIdOnce(live);
    var i :| 0 <= i < |FirstById(live)| && FirstById(live)[i].sid == x.sid;
    FirstByIdOrder(live, i, i);
    first := FirstById(live)[i];
    LiveKeeps(items, clock);
  }

  /**
   A sweep between the moment a session is due and its expiry date selects it, if the queries return it
   at all and whatever else they return, an older version of its row included.
   */
  lemma SweepInTimeSelects(m: Mailing, results: seq<seq<Item>>, clock: nat -> int, cutoff: int, x: Item)
    requires x in Concat(results)
    requires forall y | y in Concat(results) && y.sid == x.sid :: y.row.createdDate == x.row.createdDate && !Flag(m, y.row)
    requires forall k :: clock(k) < x.row.expiryDate
    requires x.row.createdDate <= cutoff
    ensures HasId(SweepOf(m, results, clock, cutoff), x.sid)
  {
    var all := Concat(results);
    assert x in Live(all, clock) by {
      LiveKeeps(all, clock);
      var k :| 0 <= k < |all| && all[k] == x;
    }
    var first := CollectedFrom(all, clock, x);
    SelectKeeps(m, Collected(all, clock), cutoff);
    HasIdOf(SweepOf(m, results, clock, cutoff), first);
  }

  /** Whatever the time, some sweep starts within `gap` seconds. */
  ghost predicate Regular(sweeps: iset<int>, gap: int) {
    forall s: int :: StartsWithin(sweeps, s, gap)
  }

  ghost predicate StartsWithin(sweeps: iset<int>, s: int, gap: int) {
    exists t :: t in sweeps && s <= t < s + gap
  }

  /** A sweep runs while the session is due and not yet past its expiry date. */
  ghost predicate Covered(sweeps: iset<int>, createdDate: int, expiryDate: int, ttlDays: int) {
    StartsWithin(sweeps, Due(createdDate, ttlDays), expiryDate - Due(createdDate, ttlDays))
  }

  predicate Outside(t: int, from: int, to: int) {
    t < from || t >= to
  }

  /** Every regular schedule covers a session exactly when its gap fits between due moment and expiry date. */
  lemma RegularCoversIffGapFits(gap: int, createdDate: int, expiryDate: int, ttlDays: int)
    requires gap > 0
    ensures (forall sweeps | Regular(sweeps, gap) :: Covered(sweeps, createdDate, expiryDate, ttlDays))
       <==> gap <= expiryDate - Due(createdDate, ttlDays)
  {
    var due := Due(createdDate, ttlDays);
    if gap <= expiryDate - due {
      forall sweeps | Regular(sweeps, gap) ensures Covered(sweeps, createdDate, expiryDate, ttlDays) {
        assert StartsWithin(sweeps, due, gap);
      }
    } else {
      // a schedule that pauses from the due moment up to the expiry date, no longer than `gap` allows
      var sweeps := iset t: int | Outside(t, due, expiryDate);
      forall s: int ensures StartsWithin(sweeps, s, gap) {
        var t := if s in sweeps then s else expiryDate;
        assert t in sweeps && s <= t < s + gap;
      }
      assert !Covered(sweeps, createdDate, expiryDate, ttlDays);
    }
  }

  /** One sweep: when each query was made and what it returned, when each item was examined, when the cutoff was taken. */
  datatype Sweeping = Sweeping(asked: nat -> int, results: seq<seq<Item>>, clock: nat -> int, now: int)

  /** A sweep that starts at `start`, takes less than `length` seconds, and whose queries return the unflagged session. */
  ghost predicate Returns(s: Sweeping, start: int, length: int, sid: SessionId, createdDate: int, expiryDate: int) {
    && start <= s.now && (forall k :: s.clock(k) < start + length)
    && HasId(Concat(s.results), sid)
    && forall x | x in Concat(s.results) && x.sid == sid ::
         x.row.createdDate == createdDate && x.row.expiryDate == expiryDate && !x.row.expiredNotificationSent
  }

  /**
   A session the queries keep returning unflagged is selected before its expiry date, whenever sweeps of
   less than `length` seconds start at least every `gap` seconds and both fit after its due moment.
   */
  lemma SweepsCover(sweeps: iset<int>, gap: int, length: int, run: int -> Sweeping, sid: SessionId,
                    createdDate: int, expiryDate: int, ttlDays: int) returns (start: int)
    requires Regular(sweeps, gap) && length >= 1 && gap + length <= expiryDate - Due(createdDate, ttlDays) + 1
    requires forall t | t in sweeps && Due(createdDate, ttlDays) <= t < expiryDate ::
      Returns(run(t), t, length, sid, createdDate, expiryDate)
    ensures start in sweeps && Due(createdDate, ttlDays) <= start && start + length <= expiryDate
    ensures HasId(SweepOf(ExpiryMail, run(start).results, run(start).clock, Cutoff(run(start).now, ttlDays)), sid)
  {
    assert StartsWithin(sweeps, Due(createdDate, ttlDays), gap);
    start :| start in sweeps && Due(createdDate, ttlDays) <= start < Due(createdDate, ttlDays) + gap;
    var s := run(start);
    assert Returns(s, start, length, sid, createdDate, expiryDate);
    var all := Concat(s.results);
    var k :| 0 <= k < |all| && all[k].sid == sid;
    SweepInTimeSelects(ExpiryMail, s.results, s.clock, Cutoff(s.now, ttlDays), all[k]);
  }

  // ---------- queries one after the other ----------

  /** The state the expiry job asks for in its query `i`. */
  function StateAsked(i: nat): AuthSessionState
    requires i < 4
  {
    if i == 0 then YotiSessionCreated
    else if i == 1 then AuthCodeIssued
    else if i == 2 then AccessTokenIssued
    else PostOfficeVisited
  }

  /** The queries of the expiry job ask for the states in which a branch may still be visited or has been. */
  lemma AskedExactly(state: AuthSessionState)
    ensures Queries(ExpiryMail, state) <==> exists i: nat :: i < 4 && StateAsked(i) == state
    ensures Queries(ExpiryMail, state) <==>
              state in {YotiSessionCreated, AuthCodeIssued, AccessTokenIssued, PostOfficeVisited}
    ensures Queries(ReminderMail, state) <==> state in {YotiSessionCreated, AuthCodeIssued, AccessTokenIssued}
  {
    assert StateAsked(0) == YotiSessionCreated && StateAsked(1) == AuthCodeIssued;
    assert StateAsked(2) == AccessTokenIssued && StateAsked(3) == PostOfficeVisited;
  }

  /** Each query returns the session, as it is then, if and only if it is in the state asked for. */
  ghost predicate AsksComplete(s: Sweeping, sid: SessionId, row: int -> Row) {
    && |s.results| == 4
    && (forall i: nat, x | i < 4 && x in s.results[i] && x.sid == sid :: x.row == row(s.asked(i)))
    && (forall i: nat | i < 4 && row(s.asked(i)).state == StateAsked(i) :: HasId(s.results[i], sid))
  }

  /** From one moment on, and up to another, the session waits to be swept, and does not go back. */
  ghost predicate WaitsForward(row: int -> Row, from: int, to: int) {
    && (forall t | from <= t < to :: Swept(row(t).state))
    && (forall t, u | from <= t <= u < to :: Rank(row(t).state) <= Rank(row(u).state))
  }

  lemma {:induction false} HasIdConcat(results: seq<seq<Item>>, n: nat, i: nat, sid: SessionId)
    requires i < n <= |results| && HasId(results[i], sid)
    ensures HasId(FirstOf(results, n), sid)
  {
    var before, last := FirstOf(results, n - 1), results[n - 1];
    if i < n - 1 {
      HasIdConcat(results, n - 1, i, sid);
      var k :| 0 <= k < |before| && before[k].sid == sid;
      assert (before + last)[k].sid == sid;
    } else {
      var k :| 0 <= k < |last| && last[k].sid == sid;
      assert (before + last)[|before| + k].sid == sid;
    }
  }

  lemma {:induction false} InConcat(results: seq<seq<Item>>, n: nat, x: Item) returns (i: nat)
    requires n <= |results| && x in FirstOf(results, n)
    ensures i < n && x in results[i]
  {
    if x in results[n - 1] {
      i := n - 1;
    } else {
      i := InConcat(results, n - 1, x);
    }
  }

  /** Not asked for at its state up to query `i`, a session that does not go back is already past what was asked. */
  lemma {:induction false} PastAsked(s: Sweeping, row: int -> Row, from: int, to: int, i: nat)
    requires i < 4 && WaitsForward(row, from, to)
    requires forall j: nat | j < 4 :: from <= s.asked(j) < to
    requires forall j: nat | j < 3 :: s.asked(j) <= s.asked(j + 1)
    requires forall j: nat | j < i :: row(s.asked(j)).state != StateAsked(j)
    ensures Rank(row(s.asked(i)).state) >= i + 1
  {
    if i > 0 {
      PastAsked(s, row, from, to, i - 1);
      var before := row(s.asked(i - 1)).state;
      assert s.asked(i - 1) <= s.asked(i - 1 + 1);
      assert Swept(before) && before != StateAsked(i - 1);
      assert Rank(before) <= Rank(row(s.asked(i)).state);
    }
  }

  /**
   The queries are made one after the other and a session may move on between them, but they ask for the states in
   the order in which a session goes through them: one that waits all the while and does not go back is returned.
   */
  lemma QueriesNeverMiss(s: Sweeping, sid: SessionId, row: int -> Row, from: int, to: int)
    requires AsksComplete(s, sid, row) && WaitsForward(row, from, to)
    requires forall j: nat | j < 4 :: from <= s.asked(j) < to
    requires forall j: nat | j < 3 :: s.asked(j) <= s.asked(j + 1)
    ensures HasId(Concat(s.results), sid)
  {
    if i: nat :| i < 3 && row(s.asked(i)).state == StateAsked(i) {
      HasIdConcat(s.results, 4, i, sid);
    } else {
      PastAsked(s, row, from, to, 3);
      assert Swept(row(s.asked(3)).state);
      HasIdConcat(s.results, 4, 3, sid);
    }
  }

  /** A sweep at `start` of less than `length` seconds over an index that is complete. */
  ghost predicate SweepsAll(s: Sweeping, start: int, length: int, sid: SessionId, row: int -> Row) {
    && start <= s.now && (forall k :: s.clock(k) < start + length)
    && (forall j: nat | j < 4 :: start <= s.asked(j) < start + length)
    && (forall j: nat | j < 3 :: s.asked(j) <= s.asked(j + 1))
    && AsksComplete(s, sid, row)
  }

  /** The dates of the session stay, and it is not flagged. */
  ghost predicate Unnoticed(row: int -> Row, createdDate: int, expiryDate: int, from: int, to: int) {
    forall t | from <= t < to ::
      row(t).createdDate == createdDate && row(t).expiryDate == expiryDate && !row(t).expiredNotificationSent
  }

  lemma CompleteReturns(s: Sweeping, start: int, length: int, sid: SessionId, row: int -> Row,
                        createdDate: int, expiryDate: int, from: int)
    requires SweepsAll(s, start, length, sid, row) && from <= start && start + length <= expiryDate
    requires WaitsForward(row, from, expiryDate) && Unnoticed(row, createdDate, expiryDate, from, expiryDate)
    ensures Returns(s, start, length, sid, createdDate, expiryDate)
  {
    assert forall j: nat | j < 4 :: start <= s.asked(j) < start + length;
    QueriesNeverMiss(s, sid, row, from, expiryDate);
    forall x | x in Concat(s.results) && x.sid == sid
      ensures x.row.createdDate == createdDate && x.row.expiryDate == expiryDate && !x.row.expiredNotificationSent
    {
      var i := InConcat(s.results, |s.results|, x);
      assert x.row == row(s.asked(i));
    }
  }

  /**
   Over a complete index: a session that waits unflagged from its due moment on, moving forward as it may, is
   selected before its expiry date, whenever sweeps of less than `length` seconds start at least every `gap` seconds
   and both fit.
   */
  lemma CompleteSweepsCover(sweeps: iset<int>, gap: int, length: int, run: int -> Sweeping, sid: SessionId, row: int -> Row,
                            createdDate: int, expiryDate: int, ttlDays: int) returns (start: int)
    requires Regular(sweeps, gap) && length >= 1 && gap + length <= expiryDate - Due(createdDate, ttlDays) + 1
    requires WaitsForward(row, Due(createdDate, ttlDays), expiryDate)
    requires Unnoticed(row, createdDate, expiryDate, Due(createdDate, ttlDays), expiryDate)
    requires forall t | t in sweeps && Due(createdDate, ttlDays) <= t < expiryDate :: SweepsAll(run(t), t, length, sid, row)
    ensures start in sweeps && Due(createdDate, ttlDays) <= start && start + length <= expiryDate
    ensures HasId(SweepOf(ExpiryMail, run(start).results, run(start).clock, Cutoff(run(start).now, ttlDays)), sid)
  {
    assert StartsWithin(sweeps, Due(createdDate, ttlDays), gap);
    start :| start in sweeps && Due(createdDate, ttlDays) <= start < Due(createdDate, ttlDays) + gap;
    var s := run(start);
    CompleteReturns(s, start, length, sid, row, createdDate, expiryDate, Due(createdDate, ttlDays));
    var all := Concat(s.results);
    var k :| 0 <= k < |all| && all[k].sid == sid;
    SweepInTimeSelects(ExpiryMail, s.results, s.clock, Cutoff(s.now, ttlDays), all[k]);
  }
}
