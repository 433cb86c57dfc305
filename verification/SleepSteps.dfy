/** Every step of the query queue keeps the ownership protocol between senders and receivers. */
module SleepSteps {
  import opened Options
  import opened Lists
  import opened OneShots
  import opened SleepQueues

  // ---- Completion ----

  /** The sender has been used up: an open cell has a value now. */
  predicate UsedUp(x: Cell, x': Cell) {
    x'.complete && x'.recvWaker.None? && (!x.complete ==> x'.data.Some?)
  }

  /** The senders of `gone` leave the queue and are used up; nothing else happens to the cells. */
  ghost predicate Leaves(w: World, w': World, gone: set<Id>) {
    && w'.held == w.held && w'.registered == w.registered && w'.cells.Keys == w.cells.Keys && w.woken <= w'.woken
    && (forall id :: Owned(w', id) <==> Owned(w, id) && id !in gone)
    && (forall id :: id in gone ==> Owned(w, id) && id in w.cells)
    && (forall id :: id in w.cells && id !in gone ==> w'.cells[id] == w.cells[id])
    && (forall id :: id in gone ==> UsedUp(w.cells[id], w'.cells[id]))
    && (forall id :: id in gone ==> HasWoken(w.cells[id], id, w'.woken))
    && (forall e :: e in w'.woken ==> e in w.woken || e.id in gone)
  }

  ghost predicate SendersApart(w: World) {
    && Distinct(Ids(w.times)) && Distinct(Ids(w.frames)) && Distinct(w.watches)
    && (forall id :: id in Ids(w.times) ==> id !in Ids(w.frames) && id !in w.watches)
    && (forall id :: id in Ids(w.frames) ==> id !in w.watches)
  }

  lemma LeavesSenders(w: World, w': World, gone: set<Id>)
    requires SendersOk(w) && Leaves(w, w', gone) && SendersApart(w')
    ensures SendersOk(w')
  {}

  lemma LeavesReceivers(w: World, w': World, gone: set<Id>)
    requires SendersOk(w) && ReceiversOk(w) && Leaves(w, w', gone)
    ensures ReceiversOk(w')
  {
    forall id | id in w'.held
      ensures id in w'.cells && (Owned(w', id) || (w'.cells[id].complete && w'.cells[id].data.Some?))
    {
      if id in gone { assert EmptyCell(w.cells[id], true); }
    }
  }

  lemma LeavesWakers(w: World, w': World, gone: set<Id>)
    requires WakersOk(w) && Leaves(w, w', gone)
    ensures WakersOk(w')
  {
    forall id | id in w'.registered && !Owned(w', id)
      ensures Wake(id, w'.registered[id]) in w'.woken
    {
      if Owned(w, id) {
        assert w.cells[id].recvWaker == Some(w.registered[id]) && HasWoken(w.cells[id], id, w'.woken);
      } else {
        var k :| 0 <= k < |w.woken| && w.woken[k] == Wake(id, w.registered[id]);
        assert w'.woken[k] == w.woken[k];
      }
    }
  }

  // ---- Time ----

  lemma SentIds(es: seq<Entry>, now: int, sent: seq<Entry>)
    requires Distinct(Ids(es)) && Popped(es, now, sent)
    ensures Distinct(Ids(sent))
    ensures forall id :: id in Ids(sent) ==> id in Ids(es)
    ensures forall id :: id in Ids(Later(es, now)) <==> id in Ids(es) && id !in Ids(sent)
  {
    FilterMembers(es, now);
    forall i, j | 0 <= i < j < |sent|
      ensures Ids(sent)[i] != Ids(sent)[j]
    {
      assert sent[i] in sent && sent[j] in sent;
      SameId(es, sent[i], sent[j]);
    }
    forall id
      ensures id in Ids(sent) ==> id in Ids(es)
      ensures id in Ids(Later(es, now)) <==> id in Ids(es) && id !in Ids(sent)
    {
      SentId(es, now, sent, id);
    }
  }

  lemma DistinctAppend(a: seq<Id>, b: seq<Id>)
    requires Distinct(a) && Distinct(b) && forall id :: id in a ==> id !in b
    ensures Distinct(a + b)
  {
    forall i, j | 0 <= i < j < |a + b|
      ensures (a + b)[i] != (a + b)[j]
    {
      if i < |a| <= j { assert a[i] in a && b[j - |a|] in b; }
    }
  }

  lemma SameId(es: seq<Entry>, e: Entry, f: Entry)
    requires Distinct(Ids(es)) && e in es && f in es
    ensures e.id == f.id ==> e == f
  {
    var i :| 0 <= i < |es| && es[i] == e;
    var j :| 0 <= j < |es| && es[j] == f;
    assert e.id == f.id ==> Ids(es)[i] == Ids(es)[j];
  }

  lemma SentId(es: seq<Entry>, now: int, sent: seq<Entry>, id: Id)
    requires Distinct(Ids(es)) && Popped(es, now, sent)
    ensures id in Ids(sent) ==> id in Ids(es)
    ensures id in Ids(Later(es, now)) <==> id in Ids(es) && id !in Ids(sent)
  {
    FilterMembers(es, now);
    if id in Ids(sent) {
      var e := EntryOf(sent, id);
      IdIn(es, e);
      if id in Ids(Later(es, now)) {
        var f := EntryOf(Later(es, now), id);
        SameId(es, e, f);
      }
    } else if id in Ids(es) {
      var e := EntryOf(es, id);
      IdIn(sent, e);
      IdIn(Later(es, now), e);
    } else if id in Ids(Later(es, now)) {
      var f := EntryOf(Later(es, now), id);
      IdIn(es, f);
    }
  }

  /** The world as `run_time_series` leaves it before it sends. */
  function Rewound(w: World, a: Step): World
    requires a.RunTimeSeries?
  {
    w.(now := a.now, frame := a.frame, times := Later(w.times, a.now), frames := Later(w.frames, a.frame),
       fired := w.fired + a.sent, firedFrames := w.firedFrames + a.sentFrames)
  }

  lemma FiredIds(w: World, a: Step)
    requires SendersOk(w) && a.RunTimeSeries? && Allowed(w, a)
    ensures var ids := Ids(a.sent) + Ids(a.sentFrames);
            && Distinct(ids) && (forall id :: id in ids ==> id in w.cells && Owned(w, id))
            && (forall id :: Owned(Rewound(w, a), id) <==> Owned(w, id) && id !in ids)
  {
    SentIds(w.times, a.now, a.sent);
    SentIds(w.frames, a.frame, a.sentFrames);
    var ids := Ids(a.sent) + Ids(a.sentFrames);
    DistinctAppend(Ids(a.sent), Ids(a.sentFrames));
    assert forall id :: id in ids <==> id in Ids(a.sent) || id in Ids(a.sentFrames);
  }

  lemma FireApart(w: World, a: Step)
    requires SendersOk(w) && a.RunTimeSeries?
    ensures SendersApart(Rewound(w, a))
  {
    LaterDistinct(w.times, a.now);
    LaterDistinct(w.frames, a.frame);
  }

  lemma FireLeaves(w: World, a: Step)
    requires SendersOk(w) && a.RunTimeSeries? && Allowed(w, a)
    ensures forall id :: id in Ids(a.sent) + Ids(a.sentFrames) ==> id in w.cells
    ensures var w' := Fire(w, a.now, a.frame, a.sent, a.sentFrames);
            && Leaves(w, w', set id | id in Ids(a.sent) + Ids(a.sentFrames)) && SendersApart(w')
            && w'.times == Later(w.times, a.now) && w'.now == a.now && w'.fired == w.fired + a.sent
            && w'.frames == Later(w.frames, a.frame) && w'.frame == a.frame
            && w'.firedFrames == w.firedFrames + a.sentFrames
  {
    var ids := Ids(a.sent) + Ids(a.sentFrames);
    FiredIds(w, a);
    FireApart(w, a);
    var w1 := Rewound(w, a);
    CompleteAllEffect(w1, ids);
    var w' := CompleteAll(w1, ids);
    forall id | id in ids
      ensures UsedUp(w.cells[id], w'.cells[id]) && HasWoken(w.cells[id], id, w'.woken)
    {
      assert DoneCell(w1.cells[id], w'.cells[id]) && EmptyCell(w.cells[id], id in w.held);
      assert HasWoken(w1.cells[id], id, w'.woken);
    }
  }

  /** A heap whose due entries have been sent to. */
  lemma SeriesFires(es: seq<Entry>, fired: seq<Entry>, before: int, now: int, sent: seq<Entry>, known: set<Id>)
    requires SeriesOk(es, fired, before, known) && Distinct(Ids(es)) && before <= now && Popped(es, now, sent)
    requires forall id :: id in Ids(es) ==> id in known
    ensures SeriesOk(Later(es, now), fired + sent, now, known)
  {
    FilterMembers(es, now);
    SentIds(es, now, sent);
    forall e | e in fired + sent
      ensures e.deadline <= now && e.id in known && e.id !in Ids(Later(es, now))
    {
      if e in sent {
        IdIn(sent, e);
        IdIn(es, e);
      } else {
        assert e in fired;
      }
    }
    FiredSorted(es, fired, before, now, sent);
    FiredDistinct(es, fired, now, sent);
  }

  lemma FiredSorted(es: seq<Entry>, fired: seq<Entry>, before: int, now: int, sent: seq<Entry>)
    requires Sorted(fired) && Popped(es, now, sent)
    requires (forall e :: e in fired ==> e.deadline <= before) && (forall e :: e in es ==> e.deadline >= before)
    ensures Sorted(fired + sent)
  {
    FilterMembers(es, now);
    forall i, j | 0 <= i < j < |fired + sent|
      ensures (fired + sent)[i].deadline <= (fired + sent)[j].deadline
    {
      if i < |fired| <= j {
        assert fired[i] in fired && sent[j - |fired|] in sent;
      }
    }
  }

  lemma FiredDistinct(es: seq<Entry>, fired: seq<Entry>, now: int, sent: seq<Entry>)
    requires Distinct(Ids(es)) && Popped(es, now, sent) && Distinct(Ids(fired))
    requires forall e :: e in fired ==> e.id !in Ids(es)
    ensures Distinct(Ids(fired + sent))
  {
    SentIds(es, now, sent);
    assert Ids(fired + sent) == Ids(fired) + Ids(sent);
    forall i, j | 0 <= i < |fired| && 0 <= j < |sent|
      ensures Ids(fired)[i] != Ids(sent)[j]
    {
      assert fired[i] in fired && Ids(sent)[j] in Ids(sent);
    }
  }

  lemma FireClock(w: World, a: Step, w': World)
    requires SendersOk(w) && ClockOk(w) && a.RunTimeSeries? && Allowed(w, a) && w'.cells.Keys == w.cells.Keys
    requires w'.times == Later(w.times, a.now) && w'.now == a.now && w'.fired == w.fired + a.sent
    requires w'.frames == Later(w.frames, a.frame) && w'.frame == a.frame
    requires w'.firedFrames == w.firedFrames + a.sentFrames
    ensures ClockOk(w')
  {
    assert forall id :: id in Ids(w.times) || id in Ids(w.frames) ==> Owned(w, id);
    SeriesFires(w.times, w.fired, w.now, a.now, a.sent, w.cells.Keys);
    SeriesFires(w.frames, w.firedFrames, w.frame, a.frame, a.sentFrames, w.cells.Keys);
  }

  lemma FireKeeps(w: World, a: Step)
    requires Inv(w) && a.RunTimeSeries? && Allowed(w, a)
    ensures forall id :: id in Ids(a.sent) + Ids(a.sentFrames) ==> id in w.cells
    ensures Inv(Fire(w, a.now, a.frame, a.sent, a.sentFrames))
  {
    FireLeaves(w, a);
    var w' := Fire(w, a.now, a.frame, a.sent, a.sentFrames);
    var gone := set id | id in Ids(a.sent) + Ids(a.sentFrames);
    LeavesSenders(w, w', gone);
    LeavesReceivers(w, w', gone);
    LeavesWakers(w, w', gone);
    FireClock(w, a, w');
  }

  // ---- Watch queries ----

  predicate Stays(x: Cell, id: Id, answers: map<Id, int>) {
    !x.complete && id !in answers
  }

  /** What one pass over the callbacks `ids` does. */
  ghost predicate Watched(w: World, ids: seq<Id>, answers: map<Id, int>, w': World) {
    && w'.cells.Keys == w.cells.Keys && w'.(cells := w.cells, woken := w.woken, watches := w.watches) == w
    && w.woken <= w'.woken && Distinct(w'.watches)
    && (forall e :: e in w'.woken ==>
          e in w.woken || (e.id in ids && e.id in w.cells && !Stays(w.cells[e.id], e.id, answers)))
    && (forall id ::
          id in w'.watches <==> id in w.watches || (id in ids && id in w.cells && Stays(w.cells[id], id, answers)))
    && (forall id :: id in w.cells && (id !in ids || Stays(w.cells[id], id, answers)) ==> w'.cells[id] == w.cells[id])
    && (forall id :: id in w.cells && id in ids && !Stays(w.cells[id], id, answers) ==>
          Answered(w.cells[id], w'.cells[id], id, answers) && HasWoken(w.cells[id], id, w'.woken))
  }

  predicate Answered(x: Cell, x': Cell, id: Id, answers: map<Id, int>) {
    && x'.complete && x'.recvWaker.None? && (x.complete ==> x'.data == x.data)
    && (!x.complete && x.data.None? ==> id in answers && x'.data == Some(answers[id]))
  }

  lemma WatchOneEffect(w: World, id: Id, answers: map<Id, int>)
    requires id in w.cells && id !in w.watches && Distinct(w.watches)
    ensures Watched(w, [id], answers, WatchOne(w, id, answers))
  {
    var w' := WatchOne(w, id, answers);
    if !Stays(w.cells[id], id, answers) && w.cells[id].recvWaker.Some? {
      assert w'.woken[|w.woken|] == Wake(id, w.cells[id].recvWaker.value);
    }
  }

  lemma WatchedChain(w: World, first: Id, w1: World, rest: seq<Id>, w': World, answers: map<Id, int>)
    requires Watched(w, [first], answers, w1) && Watched(w1, rest, answers, w') && first !in rest && first in w.cells
    ensures Watched(w, [first] + rest, answers, w')
  {
    forall id | id in w.cells
      ensures (id !in [first] + rest || Stays(w.cells[id], id, answers)) ==> w'.cells[id] == w.cells[id]
      ensures id in [first] + rest && !Stays(w.cells[id], id, answers) ==>
                Answered(w.cells[id], w'.cells[id], id, answers)
      ensures id in [first] + rest && !Stays(w.cells[id], id, answers) ==> HasWoken(w.cells[id], id, w'.woken)
    {
      if id != first { assert w1.cells[id] == w.cells[id]; } else { assert w'.cells[id] == w1.cells[id]; }
    }
  }

  lemma {:induction false} WatchAllEffect(w: World, ids: seq<Id>, answers: map<Id, int>)
    requires Distinct(ids) && Distinct(w.watches) && forall id :: id in ids ==> id in w.cells && id !in w.watches
    ensures Watched(w, ids, answers, WatchAll(w, ids, answers))
    decreases |ids|
  {
    if ids != [] {
      var (first, rest) := (ids[0], ids[1..]);
      DistinctTail(ids);
      WatchOneEffect(w, first, answers);
      var w1 := WatchOne(w, first, answers);
      WatchAllEffect(w1, rest, answers);
      WatchedChain(w, first, w1, rest, WatchAll(w1, rest, answers), answers);
      assert ids == [first] + rest;
    }
  }

  /** The callbacks that do not stay. */
  function Ended(w: World, answers: map<Id, int>): set<Id> {
    set id | id in w.watches && id in w.cells && !Stays(w.cells[id], id, answers)
  }

  lemma WatchedLeaves(w: World, answers: map<Id, int>, w': World)
    requires SendersOk(w) && Watched(w.(watches := []), w.watches, answers, w')
    ensures Leaves(w, w', Ended(w, answers)) && SendersApart(w')
  {
    assert forall id :: id in w.watches ==> Owned(w, id);
    forall id | id in Ended(w, answers)
      ensures UsedUp(w.cells[id], w'.cells[id]) && HasWoken(w.cells[id], id, w'.woken)
    {
      assert Answered(w.cells[id], w'.cells[id], id, answers) && EmptyCell(w.cells[id], id in w.held);
    }
  }

  lemma WatchLeaves(w: World, answers: map<Id, int>)
    requires SendersOk(w)
    ensures forall id :: id in w.watches ==> id in w.cells
    ensures var w' := WatchAll(w.(watches := []), w.watches, answers);
            && Leaves(w, w', Ended(w, answers)) && SendersApart(w')
            && w'.times == w.times && w'.now == w.now && w'.fired == w.fired
            && w'.frames == w.frames && w'.frame == w.frame && w'.firedFrames == w.firedFrames
  {
    assert forall id :: id in w.watches ==> Owned(w, id);
    WatchAllEffect(w.(watches := []), w.watches, answers);
    WatchedLeaves(w, answers, WatchAll(w.(watches := []), w.watches, answers));
  }

  lemma WatchKeeps(w: World, answers: map<Id, int>)
    requires Inv(w)
    ensures forall id :: id in w.watches ==> id in w.cells
    ensures Inv(WatchAll(w.(watches := []), w.watches, answers))
  {
    WatchLeaves(w, answers);
    var w' := WatchAll(w.(watches := []), w.watches, answers);
    var gone := Ended(w, answers);
    LeavesSenders(w, w', gone);
    LeavesReceivers(w, w', gone);
    LeavesWakers(w, w', gone);
  }

  // ---- New sleepers, polls and drops ----

  lemma AppendedId(es: seq<Entry>, e: Entry)
    ensures forall id :: id in Ids(es + [e]) <==> id in Ids(es) || id == e.id
    ensures Distinct(Ids(es)) && e.id !in Ids(es) ==> Distinct(Ids(es + [e]))
  {
    assert Ids(es + [e]) == Ids(es) + [e.id];
  }

  function WithTimed(w: World, duration: nat, id: Id): World {
    NewReceiver(w, id).(times := w.times + [Entry(w.now + duration, id)])
  }

  function WithFrames(w: World, duration: nat, id: Id): World {
    NewReceiver(w, id).(frames := w.frames + [Entry(w.frame + duration, id)])
  }

  function WithWatch(w: World, id: Id): World {
    NewReceiver(w, id).(watches := w.watches + [id])
  }

  /** The world gains a held receiver and its sender. */
  ghost predicate Gains(w: World, w': World, id: Id) {
    && id !in w.cells && w'.cells == w.cells[id := NEW_CELL] && w'.held == w.held + {id} && w'.woken == w.woken
    && w'.registered == w.registered && (forall k :: Owned(w', k) <==> Owned(w, k) || k == id)
  }

  lemma GainsKeeps(w: World, w': World, id: Id)
    requires SendersOk(w) && ReceiversOk(w) && WakersOk(w) && Gains(w, w', id) && SendersApart(w')
    ensures SendersOk(w') && ReceiversOk(w') && WakersOk(w')
  {}

  lemma TimedKeeps(w: World, duration: nat, id: Id)
    requires Inv(w) && id !in w.cells
    ensures Inv(WithTimed(w, duration, id))
  {
    AppendedId(w.times, Entry(w.now + duration, id));
    assert !Owned(w, id);
    GainsKeeps(w, WithTimed(w, duration, id), id);
  }

  lemma FramesKeeps(w: World, duration: nat, id: Id)
    requires Inv(w) && id !in w.cells
    ensures Inv(WithFrames(w, duration, id))
  {
    AppendedId(w.frames, Entry(w.frame + duration, id));
    assert !Owned(w, id);
    GainsKeeps(w, WithFrames(w, duration, id), id);
  }

  lemma RepeatKeeps(w: World, id: Id)
    requires Inv(w) && id !in w.cells
    ensures Inv(WithWatch(w, id))
  {
    assert !Owned(w, id);
    GainsKeeps(w, WithWatch(w, id), id);
  }

  /** A held receiver is pending exactly while its sender is in the queue; it never reports
      cancellation. */
  lemma PollNeverCanceled(w: World, id: Id, k: Waker)
    requires Inv(w) && id in w.held
    ensures id in w.cells && Polled(w.cells[id], k).1 != Canceled
    ensures Polled(w.cells[id], k).1 == Pending <==> Owned(w, id)
  {
    if Owned(w, id) { assert EmptyCell(w.cells[id], true); }
  }

  lemma PollKeeps(w: World, id: Id, k: Waker)
    requires Inv(w) && id in w.held
    ensures id in w.cells && Inv(PollCell(w, id, k))
  {
    PollNeverCanceled(w, id, k);
  }

  lemma DropKeeps(w: World, id: Id)
    requires Inv(w) && id in w.held
    ensures id in w.cells && Inv(w.(cells := w.cells[id := Closed(w.cells[id])], held := w.held - {id}))
  {}
}
