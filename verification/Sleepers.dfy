/** The executor's registry of sleeping tickers (`Sleepers`).

    `Registry` is the registry as a value, with one function for each of its operations.
    `SleeperList` is the registry as the object that the executor updates under its mutex.
    `WellFormed` ties a registry to the set of ids currently held by tickers. */
module Sleepers {
  import opened Options

  type Waker = nat
  type Entry = (nat, Waker)

  datatype Registry = Registry(count: nat, wakers: seq<Entry>, freeIds: seq<nat>)

  function WakerIds(wakers: seq<Entry>): set<nat> {
    set e | e in wakers :: e.0
  }

  function FreeIds(free: seq<nat>): set<nat> {
    set id | id in free
  }

  /** The first position holding `id`, or the length when there is none. */
  function First(wakers: seq<Entry>, id: nat): (r: nat)
    ensures r <= |wakers|
    ensures r < |wakers| ==> wakers[r].0 == id
    ensures forall j :: 0 <= j < r ==> wakers[j].0 != id
  {
    if wakers == [] then 0
    else if wakers[0].0 == id then 0
    else 1 + First(wakers[1..], id)
  }

  /** One past the last position holding `id`, or 0 when there is none. */
  function AfterLast(wakers: seq<Entry>, id: nat): (r: nat)
    ensures r <= |wakers|
    ensures r > 0 ==> wakers[r - 1].0 == id
    ensures forall j :: r <= j < |wakers| ==> wakers[j].0 != id
  {
    if wakers == [] then 0
    else if wakers[|wakers| - 1].0 == id then |wakers|
    else AfterLast(wakers[..|wakers| - 1], id)
  }

  function Insert(r: Registry, w: Waker): (Registry, nat) {
    var n := |r.freeIds|;
    var id := if n > 0 then r.freeIds[n - 1] else r.count + 1;
    var free := if n > 0 then r.freeIds[..n - 1] else [];
    (Registry(r.count + 1, r.wakers + [(id, w)], free), id)
  }

  function Update(r: Registry, id: nat, w: Waker): (Registry, bool) {
    var k := First(r.wakers, id);
    if k < |r.wakers| then (r.(wakers := r.wakers[k := (id, w)]), false)
    else (r.(wakers := r.wakers + [(id, w)]), true)
  }

  function Remove(r: Registry, id: nat): (Registry, bool)
    requires r.count > 0
  {
    var k := AfterLast(r.wakers, id);
    if k > 0
    then (Registry(r.count - 1, r.wakers[..k - 1] + r.wakers[k..], r.freeIds + [id]), false)
    else (Registry(r.count - 1, r.wakers, r.freeIds + [id]), true)
  }

  predicate IsNotified(r: Registry) {
    r.count == 0 || r.count > |r.wakers|
  }

  function Notify(r: Registry): (Registry, Option<Waker>) {
    var n := |r.wakers|;
    if n == r.count && n > 0 then (r.(wakers := r.wakers[..n - 1]), Some(r.wakers[n - 1].1))
    else (r, None)
  }

  function IdsUpTo(n: nat): (ids: set<nat>)
    ensures forall id :: id in ids <==> 1 <= id <= n
  {
    if n == 0 then {} else IdsUpTo(n - 1) + {n}
  }

  /** The ids held by tickers and the reclaimed ids partition 1..count+|free|. */
  ghost predicate IdsPartition(count: nat, free: seq<nat>, live: set<nat>) {
    && |live| == count
    && (forall i, j :: 0 <= i < j < |free| ==> free[i] != free[j])
    && live !! FreeIds(free)
    && live + FreeIds(free) == IdsUpTo(count + |free|)
  }

  /** The wakers belong to distinct held ids, and at most one held id has no waker. */
  ghost predicate WakersOk(count: nat, wakers: seq<Entry>, live: set<nat>) {
    && (forall i, j :: 0 <= i < j < |wakers| ==> wakers[i].0 != wakers[j].0)
    && WakerIds(wakers) <= live
    && (|wakers| == count || |wakers| + 1 == count)
  }

  ghost predicate WellFormed(r: Registry, live: set<nat>) {
    IdsPartition(r.count, r.freeIds, live) && WakersOk(r.count, r.wakers, live)
  }

  lemma IdsOfAppend(wakers: seq<Entry>, e: Entry)
    ensures WakerIds(wakers + [e]) == WakerIds(wakers) + {e.0}
  {
    assert forall x: Entry :: x in wakers + [e] <==> x in wakers || x == e;
  }

  lemma FreeIdsOfAppend(free: seq<nat>, id: nat)
    ensures FreeIds(free + [id]) == FreeIds(free) + {id}
  {
  }

  lemma {:induction false} DistinctIdsCount(wakers: seq<Entry>)
    requires forall i, j :: 0 <= i < j < |wakers| ==> wakers[i].0 != wakers[j].0
    ensures |WakerIds(wakers)| == |wakers|
  {
    if wakers != [] {
      var n := |wakers| - 1;
      DistinctIdsCount(wakers[..n]);
      assert WakerIds(wakers) == WakerIds(wakers[..n]) + {wakers[n].0};
    }
  }

  lemma SubsetOfEqualSize(a: set<nat>, b: set<nat>)
    requires a <= b
    ensures |a| <= |b|
    ensures |a| == |b| ==> a == b
  {
    assert b == a + (b - a);
    assert |b| == |a| + |b - a|;
  }

  /** The flag recomputed from the registry says that nobody sleeps or that some held id has lost
      its waker, and nothing else. */
  lemma NotifiedMeansMissingWaker(r: Registry, live: set<nat>)
    requires |live| == r.count && WakersOk(r.count, r.wakers, live)
    ensures IsNotified(r) <==> r.count == 0 || exists id :: id in live && id !in WakerIds(r.wakers)
    ensures |r.wakers| == r.count <==> WakerIds(r.wakers) == live
  {
    DistinctIdsCount(r.wakers);
    SubsetOfEqualSize(WakerIds(r.wakers), live);
    if WakerIds(r.wakers) != live {
      assert exists id :: id in live && id !in WakerIds(r.wakers);
    }
  }

  /** Two held ids cannot both be without a waker. */
  lemma AtMostOneNotified(r: Registry, live: set<nat>, a: nat, b: nat)
    requires WellFormed(r, live)
    requires a in live && a !in WakerIds(r.wakers)
    requires b in live && b !in WakerIds(r.wakers)
    ensures a == b
  {
    DistinctIdsCount(r.wakers);
    SubsetOfEqualSize(WakerIds(r.wakers), live - {a} - {b});
    assert |live - {a}| == |live| - 1;
    assert a != b ==> |live - {a} - {b}| == |live - {a}| - 1;
  }

  lemma EmptyWellFormed()
    ensures WellFormed(Registry(0, [], []), {})
  {}

  lemma TakeFreeId(count: nat, rest: seq<nat>, id: nat, live: set<nat>)
    requires IdsPartition(count, rest + [id], live)
    ensures id != 0 && id !in live && IdsPartition(count + 1, rest, live + {id})
  {
    FreeIdsOfAppend(rest, id);
    LastApart(rest, id);
    MovedOver(live, FreeIds(rest), id);
    assert id in live + FreeIds(rest + [id]);
  }

  lemma LastApart(rest: seq<nat>, id: nat)
    ensures (forall i, j :: 0 <= i < j < |rest + [id]| ==> (rest + [id])[i] != (rest + [id])[j])
       <==> (forall i, j :: 0 <= i < j < |rest| ==> rest[i] != rest[j]) && id !in FreeIds(rest)
  {
    var free := rest + [id];
    assert forall i :: 0 <= i < |rest| ==> free[i] == rest[i] && rest[i] in FreeIds(rest);
    assert free[|rest|] == id;
    if id in FreeIds(rest) {
      var k :| 0 <= k < |rest| && rest[k] == id;
      assert free[k] == free[|rest|];
    }
  }

  /** An id changes sides. */
  lemma MovedOver(live: set<nat>, free: set<nat>, id: nat)
    requires id !in live && id !in free
    ensures (live + {id}) + free == live + (free + {id}) && |live + {id}| == |live| + 1
    ensures live !! free + {id} ==> live + {id} !! free
    ensures live + {id} !! free ==> live !! free + {id}
  {}

  lemma TakeNewId(count: nat, live: set<nat>)
    requires IdsPartition(count, [], live)
    ensures count + 1 !in live && IdsPartition(count + 1, [], live + {count + 1})
  {
    assert FreeIds([]) == {};
    assert count + 1 !in IdsUpTo(count);
    assert IdsUpTo(count + 1) == IdsUpTo(count) + {count + 1};
  }

  lemma ReleaseFrom(count: nat, free: seq<nat>, rest: set<nat>, id: nat)
    requires IdsPartition(count, free, rest + {id}) && id !in rest
    ensures count > 0 && IdsPartition(count - 1, free + [id], rest)
  {
    assert id in rest + {id};
    FreeIdsOfAppend(free, id);
    LastApart(free, id);
    MovedOver(rest, FreeIds(free), id);
    assert count - 1 + |free + [id]| == count + |free|;
  }

  lemma ReleaseId(count: nat, free: seq<nat>, live: set<nat>, id: nat)
    requires IdsPartition(count, free, live) && id in live
    ensures count > 0 && IdsPartition(count - 1, free + [id], live - {id})
  {
    assert live == (live - {id}) + {id};
    ReleaseFrom(count, free, live - {id}, id);
  }

  /** A new entry for an id that is not held yet. */
  lemma AddEntry(count: nat, wakers: seq<Entry>, live: set<nat>, e: Entry)
    requires WakersOk(count, wakers, live) && e.0 !in live
    ensures WakersOk(count + 1, wakers + [e], live + {e.0})
    ensures WakerIds(wakers + [e]) == WakerIds(wakers) + {e.0}
  {
    IdsOfAppend(wakers, e);
    forall i | 0 <= i < |wakers|
      ensures wakers[i].0 != e.0
    {
      assert wakers[i] in wakers;
      assert wakers[i].0 in WakerIds(wakers);
    }
  }

  /** The id handed out is reclaimed, or new. */
  lemma InsertId(r: Registry, live: set<nat>, w: Waker)
    requires IdsPartition(r.count, r.freeIds, live)
    ensures var (r', id) := Insert(r, w);
            id != 0 && id !in live && IdsPartition(r'.count, r'.freeIds, live + {id}) && r'.count == r.count + 1
  {
    if |r.freeIds| > 0 { InsertReusedId(r, live, w); } else { TakeNewId(r.count, live); }
  }

  lemma InsertReusedId(r: Registry, live: set<nat>, w: Waker)
    requires IdsPartition(r.count, r.freeIds, live) && |r.freeIds| > 0
    ensures var (r', id) := Insert(r, w);
            id != 0 && id !in live && IdsPartition(r'.count, r'.freeIds, live + {id}) && r'.count == r.count + 1
  {
    var (r', id) := Insert(r, w);
    assert r.freeIds == r'.freeIds + [id];
    TakeFreeId(r.count, r'.freeIds, id, live);
  }

  lemma InsertKeeps(r: Registry, live: set<nat>, w: Waker)
    requires WellFormed(r, live)
    ensures var (r', id) := Insert(r, w);
            && id != 0 && id !in live
            && WellFormed(r', live + {id})
            && r'.wakers == r.wakers + [(id, w)]
            && WakerIds(r'.wakers) == WakerIds(r.wakers) + {id}
  {
    InsertId(r, live, w);
    AddEntry(r.count, r.wakers, live, (Insert(r, w).1, w));
  }

  /** Replacing the waker of the entry at `k`. */
  lemma ReplaceEntry(wakers: seq<Entry>, k: nat, w: Waker)
    requires k < |wakers|
    requires forall i, j :: 0 <= i < j < |wakers| ==> wakers[i].0 != wakers[j].0
    ensures var put := wakers[k := (wakers[k].0, w)];
            && WakerIds(put) == WakerIds(wakers)
            && put[k] in put
            && (forall e: Entry :: e.0 != wakers[k].0 ==> (e in put <==> e in wakers))
  {
    var put := wakers[k := (wakers[k].0, w)];
    assert wakers == wakers[..k] + [wakers[k]] + wakers[k + 1..];
    assert put == wakers[..k] + [put[k]] + wakers[k + 1..];
    assert forall e: Entry :: e in wakers <==> e in wakers[..k] || e == wakers[k] || e in wakers[k + 1..];
    assert forall e: Entry :: e in put <==> e in wakers[..k] || e == put[k] || e in wakers[k + 1..];
  }

  lemma UpdateEntry(r: Registry, live: set<nat>, id: nat, w: Waker)
    requires |live| == r.count && WakersOk(r.count, r.wakers, live) && id in live
    ensures var (r', notified) := Update(r, id, w);
            && (notified <==> id !in WakerIds(r.wakers))
            && WakersOk(r'.count, r'.wakers, live)
            && WakerIds(r'.wakers) == WakerIds(r.wakers) + {id}
            && (id, w) in r'.wakers
            && (forall e: Entry :: e.0 != id ==> (e in r'.wakers <==> e in r.wakers))
  {
    var (r', notified) := Update(r, id, w);
    var k := First(r.wakers, id);
    if k < |r.wakers| {
      assert r.wakers[k] in r.wakers;
      ReplaceEntry(r.wakers, k, w);
    } else {
      assert id !in WakerIds(r.wakers);
      NotifiedMeansMissingWaker(r, live);
      IdsOfAppend(r.wakers, (id, w));
      assert r'.wakers[|r.wakers|] == (id, w);
    }
  }

  lemma UpdateKeeps(r: Registry, live: set<nat>, id: nat, w: Waker)
    requires WellFormed(r, live) && id in live
    ensures var (r', notified) := Update(r, id, w);
            && (notified <==> id !in WakerIds(r.wakers))
            && WellFormed(r', live)
            && WakerIds(r'.wakers) == WakerIds(r.wakers) + {id}
            && (id, w) in r'.wakers
            && (forall e: Entry :: e.0 != id ==> (e in r'.wakers <==> e in r.wakers))
  {
    UpdateEntry(r, live, id, w);
  }

  /** Deleting the entry at `k` takes exactly that id out of a list of distinct ids. */
  lemma DeleteEntry(wakers: seq<Entry>, k: nat)
    requires k < |wakers|
    requires forall i, j :: 0 <= i < j < |wakers| ==> wakers[i].0 != wakers[j].0
    ensures var rest := wakers[..k] + wakers[k + 1..];
            && (forall i, j :: 0 <= i < j < |rest| ==> rest[i].0 != rest[j].0)
            && (forall e: Entry :: e in rest <==> e in wakers && e.0 != wakers[k].0)
  {
    var before, after := wakers[..k], wakers[k + 1..];
    assert wakers == before + [wakers[k]] + after;
    forall e: Entry | e in before + after
      ensures e.0 != wakers[k].0
    {
      if e in before {
        var i :| 0 <= i < k && before[i] == e;
        assert wakers[i] == e;
      } else {
        var i :| 0 <= i < |after| && after[i] == e;
        assert wakers[k + 1 + i] == e;
      }
    }
  }

  lemma RemoveEntry(r: Registry, live: set<nat>, id: nat)
    requires |live| == r.count && WakersOk(r.count, r.wakers, live) && id in live
    ensures r.count > 0
    ensures var (r', notified) := Remove(r, id);
            && (notified <==> id !in WakerIds(r.wakers))
            && WakersOk(r'.count, r'.wakers, live - {id})
            && WakerIds(r'.wakers) == WakerIds(r.wakers) - {id}
            && (forall e: Entry :: e.0 != id ==> (e in r'.wakers <==> e in r.wakers))
  {
    assert |live| > 0;
    var k := AfterLast(r.wakers, id);
    if k > 0 {
      DeleteEntry(r.wakers, k - 1);
      assert r.wakers[k - 1] in r.wakers;
    } else {
      assert id !in WakerIds(r.wakers);
      NotifiedMeansMissingWaker(r, live);
    }
  }

  lemma RemoveKeeps(r: Registry, live: set<nat>, id: nat)
    requires WellFormed(r, live) && id in live
    ensures r.count > 0
    ensures var (r', notified) := Remove(r, id);
            && (notified <==> id !in WakerIds(r.wakers))
            && WellFormed(r', live - {id})
            && WakerIds(r'.wakers) == WakerIds(r.wakers) - {id}
            && (forall e: Entry :: e.0 != id ==> (e in r'.wakers <==> e in r.wakers))
  {
    RemoveEntry(r, live, id);
    ReleaseId(r.count, r.freeIds, live, id);
  }

  /** A notification takes a waker exactly if there are sleepers and every held id still has one, and
      then the one listed last. */
  lemma NotifyTakesLast(r: Registry, live: set<nat>)
    requires WellFormed(r, live)
    ensures var (r', w) := Notify(r);
            && (w.Some? <==> live != {} && WakerIds(r.wakers) == live)
            && (w.Some? ==> exists id :: r.wakers == r'.wakers + [(id, w.value)])
            && r'.count == r.count && r'.freeIds == r.freeIds
  {
    var (r', w) := Notify(r);
    NotifiedMeansMissingWaker(r, live);
    assert live == {} <==> |live| == 0;
    if w.Some? {
      var n := |r.wakers| - 1;
      assert r.wakers == r'.wakers + [(r.wakers[n].0, w.value)];
    }
  }

  /** A notification takes the waker of one held id while every held id still had one, and leaves
      the registry saying that somebody is notified or that nobody sleeps. */
  lemma NotifyKeeps(r: Registry, live: set<nat>) returns (id: nat)
    requires WellFormed(r, live)
    ensures var (r', w) := Notify(r);
            && WellFormed(r', live)
            && IsNotified(r')
            && (w.None? ==> r' == r)
            && (w.Some? ==>
                  && id in live && (id, w.value) in r.wakers
                  && WakerIds(r'.wakers) == live - {id}
                  && (forall e: Entry :: e in r'.wakers <==> e in r.wakers && e.0 != id))
  {
    var (r', w) := Notify(r);
    var n := |r.wakers|;
    id := 0;
    if w.Some? {
      id := r.wakers[n - 1].0;
      NotifiedMeansMissingWaker(r, live);
      DeleteEntry(r.wakers, n - 1);
      assert r.wakers[..n - 1] + r.wakers[n - 1 + 1..] == r'.wakers;
      assert r.wakers[n - 1] in r.wakers;
      assert WakerIds(r'.wakers) == WakerIds(r.wakers) - {id};
    }
  }
}

module SleeperLists {
  import opened Options
  import opened Sleepers

  /** The registry as the executor keeps it, changed in place. */
  class SleeperList {
    var count: nat
    var wakers: seq<Entry>
    var freeIds: seq<nat>

    function Value(): Registry
      reads this
    {
      Registry(count, wakers, freeIds)
    }

    constructor ()
      ensures Value() == Registry(0, [], [])
    {
      count, wakers, freeIds := 0, [], [];
    }

    method Insert(waker: Waker) returns (id: nat)
      modifies this
      ensures (Value(), id) == Sleepers.Insert(old(Value()), waker)
    {
      if |freeIds| > 0 {
        id := freeIds[|freeIds| - 1];
        freeIds := freeIds[..|freeIds| - 1];
      } else {
        id := count + 1;
      }
      count := count + 1;
      wakers := wakers + [(id, waker)];
    }

    method Update(id: nat, waker: Waker) returns (notified: bool)
      modifies this`wakers
      ensures (Value(), notified) == Sleepers.Update(old(Value()), id, waker)
    {
      var i := 0;
      while i < |wakers|
        invariant 0 <= i <= |wakers| && wakers == old(wakers)
        invariant forall j :: 0 <= j < i ==> wakers[j].0 != id
      {
        if wakers[i].0 == id {
          wakers := wakers[i := (id, waker)];
          return false;
        }
        i := i + 1;
      }
      wakers := wakers + [(id, waker)];
      return true;
    }

    method Remove(id: nat) returns (notified: bool)
      requires count > 0
      modifies this
      ensures (Value(), notified) == Sleepers.Remove(old(Value()), id)
    {
      count := count - 1;
      freeIds := freeIds + [id];
      var i := |wakers|;
      while i > 0
        invariant 0 <= i <= |wakers| && wakers == old(wakers)
        invariant count == old(count) - 1 && freeIds == old(freeIds) + [id]
        invariant forall j :: i <= j < |wakers| ==> wakers[j].0 != id
      {
        i := i - 1;
        if wakers[i].0 == id {
          wakers := wakers[..i] + wakers[i + 1..];
          return false;
        }
      }
      return true;
    }

    method Notify() returns (waker: Option<Waker>)
      modifies this`wakers
      ensures (Value(), waker) == Sleepers.Notify(old(Value()))
    {
      if |wakers| == count && |wakers| > 0 {
        waker := Some(wakers[|wakers| - 1].1);
        wakers := wakers[..|wakers| - 1];
      } else {
        waker := None;
      }
    }
  }
}
