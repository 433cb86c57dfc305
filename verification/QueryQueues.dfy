/** The query queue as it updates its fields: the pop loops over the heaps and the pass over the
    watch callbacks. */
module QueryQueues {
  import opened Options
  import opened Lists
  import opened OneShots
  import opened SleepQueues
  import opened SleepTheorems

  // ---- Pure facts about the loops ----

  function Remove(es: seq<Entry>, i: nat): seq<Entry>
    requires i < |es|
  {
    es[..i] + es[i + 1..]
  }

  lemma {:induction false} RemoveDue(es: seq<Entry>, i: nat, now: int)
    requires i < |es| && es[i].deadline <= now
    ensures Later(Remove(es, i), now) == Later(es, now)
    ensures |Due(es, now)| == |Due(Remove(es, i), now)| + 1
  {
    if i > 0 {
      RemoveDue(es[1..], i - 1, now);
      assert Remove(es, i)[1..] == Remove(es[1..], i - 1);
    } else {
      assert Remove(es, 0) == es[1..];
    }
  }

  lemma {:induction false} NothingDue(es: seq<Entry>, now: int)
    requires forall e :: e in es ==> e.deadline > now
    ensures Later(es, now) == es && Due(es, now) == []
  {
    if es != [] { NothingDue(es[1..], now); }
  }

  lemma RemoveMembers(es: seq<Entry>, i: nat)
    requires i < |es| && Distinct(Ids(es))
    ensures Distinct(Ids(Remove(es, i)))
    ensures forall e :: e in Remove(es, i) <==> e in es && e != es[i]
  {
    var r := Remove(es, i);
    assert forall k :: 0 <= k < |r| ==> r[k] == es[if k < i then k else k + 1];
    forall j, k | 0 <= j < k < |r|
      ensures Ids(r)[j] != Ids(r)[k]
    {
      assert Ids(es)[if j < i then j else j + 1] != Ids(es)[if k < i then k else k + 1];
    }
    forall e | e in es && e != es[i]
      ensures e in r
    {
      var k :| 0 <= k < |es| && es[k] == e;
      assert r[if k < i then k else k - 1] == e;
    }
    forall e | e in r
      ensures e in es && e != es[i]
    {
      var k :| 0 <= k < |r| && r[k] == e;
      assert Ids(es)[if k < i then k else k + 1] != Ids(es)[i];
    }
  }

  lemma {:induction false} CompleteOneMore(w: World, ids: seq<Id>, id: Id)
    requires forall k :: k in ids + [id] ==> k in w.cells
    ensures CompleteAll(w, ids).cells.Keys == w.cells.Keys
    ensures CompleteAll(w, ids + [id]) == Complete(CompleteAll(w, ids), id, Some(0))
    decreases |ids|
  {
    if ids != [] {
      assert (ids + [id])[1..] == ids[1..] + [id];
      CompleteOneMore(Complete(w, ids[0], Some(0)), ids[1..], id);
    } else {
      assert [] + [id] == [id];
      assert CompleteAll(Complete(w, id, Some(0)), []) == Complete(w, id, Some(0));
    }
  }

  /** Completing depends on the cells only and leaves the rest of the queue alone. */
  lemma {:induction false} CompleteAllFrame(w: World, v: World, ids: seq<Id>)
    requires w.cells == v.cells && w.woken == v.woken && forall id :: id in ids ==> id in w.cells
    ensures var (w', v') := (CompleteAll(w, ids), CompleteAll(v, ids));
            w' == w.(cells := v'.cells, woken := v'.woken) && w'.cells.Keys == w.cells.Keys
    decreases |ids|
  {
    if ids != [] {
      CompleteAllFrame(Complete(w, ids[0], Some(0)), Complete(v, ids[0], Some(0)), ids[1..]);
    }
  }

  lemma {:induction false} CompleteAllTwice(w: World, a: seq<Id>, b: seq<Id>)
    requires forall id :: id in a + b ==> id in w.cells
    ensures CompleteAll(w, a).cells.Keys == w.cells.Keys
    ensures CompleteAll(w, a + b) == CompleteAll(CompleteAll(w, a), b)
    decreases |a|
  {
    CompleteAllFrame(w, w, a);
    if a != [] {
      assert (a + b)[1..] == a[1..] + b;
      CompleteAllTwice(Complete(w, a[0], Some(0)), a[1..], b);
    } else {
      assert a + b == b;
    }
  }

  /** Firing the sleepers by time and then those by frame is firing them all. */
  lemma FireInTwo(w: World, now: int, frame: int, sent: seq<Entry>, sentFrames: seq<Entry>, w2: World)
    requires forall id :: id in Ids(sent) + Ids(sentFrames) ==> id in w.cells
    requires w2 == CompleteAll(w.(now := now), Ids(sent)).(frame := frame, times := Later(w.times, now),
                                                           fired := w.fired + sent)
    ensures w2.cells.Keys == w.cells.Keys
    ensures CompleteAll(w2, Ids(sentFrames)).(frames := Later(w.frames, frame),
                                              firedFrames := w.firedFrames + sentFrames)
         == Fire(w, now, frame, sent, sentFrames)
  {
    var (a, b) := (Ids(sent), Ids(sentFrames));
    CompleteAllFrame(w.(now := now), w, a);
    CompleteAllFrame(w, w, a);
    CompleteAllFrame(w2, CompleteAll(w, a), b);
    CompleteAllTwice(w, a, b);
    CompleteAllFrame(w.(now := now, frame := frame, times := Later(w.times, now), frames := Later(w.frames, frame),
                        fired := w.fired + sent, firedFrames := w.firedFrames + sentFrames), w, a + b);
  }

  lemma {:induction false} WatchOneMore(w: World, ids: seq<Id>, id: Id, answers: map<Id, int>)
    requires forall k :: k in ids + [id] ==> k in w.cells
    ensures WatchAll(w, ids, answers).cells.Keys == w.cells.Keys
    ensures WatchAll(w, ids + [id], answers) == WatchOne(WatchAll(w, ids, answers), id, answers)
    decreases |ids|
  {
    if ids != [] {
      assert (ids + [id])[1..] == ids[1..] + [id];
      WatchOneMore(WatchOne(w, ids[0], answers), ids[1..], id, answers);
    } else {
      assert [] + [id] == [id];
      assert WatchAll(WatchOne(w, id, answers), [], answers) == WatchOne(w, id, answers);
    }
  }

  datatype Ordering = Less | Equal | Greater

  /** The order of heap entries: that of their deadlines, reversed. */
  function Compare(a: Entry, b: Entry): Ordering {
    if a.deadline > b.deadline then Less else if a.deadline == b.deadline then Equal else Greater
  }

  /** The reversed order is total, so that a greatest entry is one with the earliest deadline. */
  lemma GreatestIsEarliest(es: seq<Entry>, top: Entry)
    ensures (forall e :: e in es ==> Compare(top, e) != Less) <==> (forall e :: e in es ==> top.deadline <= e.deadline)
    ensures forall e, f: Entry :: Compare(e, f) == Less <==> Compare(f, e) == Greater
    ensures forall e, f, g: Entry :: Compare(e, f) != Less && Compare(f, g) != Less ==> Compare(e, g) != Less
  {
    if forall e :: e in es ==> Compare(top, e) != Less {
      forall e | e in es ensures top.deadline <= e.deadline { assert Compare(top, e) != Less; }
    }
  }

  /** The top of the heap is a greatest entry, which is one with the earliest deadline. */
  method Peek(es: seq<Entry>) returns (i: nat)
    requires es != []
    ensures i < |es| && (forall e :: e in es ==> Compare(es[i], e) != Less)
    ensures forall e :: e in es ==> es[i].deadline <= e.deadline
  {
    i := 0;
    var k := 1;
    while k < |es|
      invariant i < k <= |es|
      invariant forall j :: 0 <= j < k ==> Compare(es[i], es[j]) != Less
    {
      if Compare(es[i], es[k]) == Less {
        i := k;
      }
      k := k + 1;
    }
    GreatestIsEarliest(es, es[i]);
  }

  /** `sent` has been popped off `all` and `rest` is left. */
  ghost predicate PartlyPopped(all: seq<Entry>, now: int, sent: seq<Entry>, rest: seq<Entry>) {
    && Distinct(Ids(rest)) && Later(rest, now) == Later(all, now) && |Due(all, now)| == |sent| + |Due(rest, now)|
    && (forall e :: e in all <==> e in sent || e in rest) && (forall e :: e in sent ==> e !in rest && e.deadline <= now)
    && Sorted(sent) && Distinct(sent) && (forall e, f :: e in sent && f in rest ==> e.deadline <= f.deadline)
  }

  lemma SortedWith(sent: seq<Entry>, e: Entry)
    requires Sorted(sent) && Distinct(sent) && e !in sent && forall f :: f in sent ==> f.deadline <= e.deadline
    ensures Sorted(sent + [e]) && Distinct(sent + [e])
  {
    var r := sent + [e];
    forall j, k | 0 <= j < k < |r|
      ensures r[j].deadline <= r[k].deadline && r[j] != r[k]
    {
      assert r[j] == sent[j] && sent[j] in sent;
    }
  }

  lemma PopOne(all: seq<Entry>, now: int, sent: seq<Entry>, rest: seq<Entry>, i: nat)
    requires PartlyPopped(all, now, sent, rest) && i < |rest| && rest[i].deadline <= now
    requires forall e :: e in rest ==> rest[i].deadline <= e.deadline
    ensures PartlyPopped(all, now, sent + [rest[i]], Remove(rest, i))
  {
    var (e, rest') := (rest[i], Remove(rest, i));
    assert e in rest;
    RemoveDue(rest, i, now);
    RemoveMembers(rest, i);
    SortedWith(sent, e);
    assert forall f :: f in sent + [e] <==> f in sent || f == e;
    assert forall f :: f in rest' ==> f in rest && f != e;
  }

  lemma PopDone(all: seq<Entry>, now: int, sent: seq<Entry>, rest: seq<Entry>)
    requires PartlyPopped(all, now, sent, rest) && forall e :: e in rest ==> e.deadline > now
    ensures Popped(all, now, sent) && rest == Later(all, now)
  {
    NothingDue(rest, now);
    FilterMembers(all, now);
  }

  class QueryQueue {
    var cells: map<Id, Cell>
    var timeSeries: seq<Entry>
    var frameSeries: seq<Entry>
    var repeatQueue: seq<Id>
    var now: int
    var frame: int
    var woken: seq<Wake>
    ghost var held: set<Id>
    ghost var fired: seq<Entry>
    ghost var firedFrames: seq<Entry>
    ghost var registered: map<Id, Waker>

    ghost function Value(): World
      reads this
    {
      World(cells, timeSeries, frameSeries, repeatQueue, now, frame, held, woken, fired, firedFrames, registered)
    }

    constructor ()
      ensures Value() == EMPTY && Inv(Value())
    {
      cells, timeSeries, frameSeries, repeatQueue, now, frame, woken := map[], [], [], [], 0, 0, [];
      held, fired, firedFrames, registered := {}, [], [], map[];
      new;
      EmptyInv();
    }

    /** `timed`: the sender goes into the heap of times, due when the given time has passed. */
    method Timed(duration: nat, id: Id)
      requires Inv(Value()) && id !in cells
      modifies this`cells, this`timeSeries, this`held
      ensures Value() == Next(old(Value()), SleepQueues.Step.Timed(duration, id))
    {
      cells, held := cells[id := NEW_CELL], held + {id};
      timeSeries := timeSeries + [Entry(now + duration, id)];
    }

    /** `timed_frames`. */
    method TimedFrames(duration: nat, id: Id)
      requires Inv(Value()) && id !in cells
      modifies this`cells, this`frameSeries, this`held
      ensures Value() == Next(old(Value()), SleepQueues.Step.TimedFrames(duration, id))
    {
      cells, held := cells[id := NEW_CELL], held + {id};
      frameSeries := frameSeries + [Entry(frame + duration, id)];
    }

    /** `repeat`: the callback goes behind all others. */
    method Repeat(id: Id)
      requires Inv(Value()) && id !in cells
      modifies this`cells, this`repeatQueue, this`held
      ensures Value() == Next(old(Value()), SleepQueues.Step.Repeat(id))
    {
      cells, held := cells[id := NEW_CELL], held + {id};
      repeatQueue := repeatQueue + [id];
    }

    /** `send` on a sender that the queue owned, which drops it as well. */
    method SendTo(id: Id, v: int)
      requires id in cells
      modifies this`cells, this`woken
      ensures Value() == Complete(old(Value()), id, Some(v))
    {
      woken := woken + Wakes(id, cells[id].recvWaker);
      cells := cells[id := Sent(cells[id], v)];
    }

    /** Pops and sends while the top of the heap is due. */
    method RunSeries(series: seq<Entry>, limit: int) returns (sent: seq<Entry>, rest: seq<Entry>)
      requires Distinct(Ids(series)) && forall id :: id in Ids(series) ==> id in cells
      modifies this`cells, this`woken
      ensures Popped(series, limit, sent) && rest == Later(series, limit)
      ensures forall id :: id in Ids(sent) ==> id in old(cells)
      ensures Value() == CompleteAll(old(Value()), Ids(sent))
    {
      sent, rest := [], series;
      ghost var w := Value();
      while rest != []
        invariant PartlyPopped(series, limit, sent, rest)
        invariant forall id :: id in Ids(sent) + Ids(rest) ==> id in w.cells
        invariant cells.Keys == w.cells.Keys && Value() == CompleteAll(w, Ids(sent))
        decreases |rest|
      {
        var i := Peek(rest);
        if rest[i].deadline > limit {
          break;
        }
        var e := rest[i];
        PopOne(series, limit, sent, rest, i);
        IdIn(rest, e);
        assert Ids(sent + [e]) == Ids(sent) + [e.id];
        forall id | id in Ids(Remove(rest, i)) ensures id in Ids(rest) {
          var f := EntryOf(Remove(rest, i), id);
          RemoveMembers(rest, i);
          IdIn(rest, f);
        }
        CompleteOneMore(w, Ids(sent), e.id);
        sent, rest := sent + [e], Remove(rest, i);
        SendTo(e.id, 0);
      }
      PopDone(series, limit, sent, rest);
    }

    /** The heap of times. */
    method RunTimes(elapsed: int) returns (sent: seq<Entry>)
      requires Distinct(Ids(timeSeries)) && forall id :: id in Ids(timeSeries) ==> id in cells
      modifies this`now, this`cells, this`woken, this`timeSeries, this`fired
      ensures Popped(old(timeSeries), elapsed, sent) && forall id :: id in Ids(sent) ==> id in old(cells)
      ensures Value() == CompleteAll(old(Value()).(now := elapsed), Ids(sent)).(
                           times := Later(old(timeSeries), elapsed), fired := old(fired) + sent)
      ensures cells.Keys == old(cells).Keys
    {
      ghost var w := Value();
      now := elapsed;
      sent, timeSeries := RunSeries(timeSeries, now);
      CompleteAllFrame(w.(now := now), w, Ids(sent));
      fired := fired + sent;
    }

    /** The heap of frames. */
    method RunFrames(frames: int) returns (sent: seq<Entry>)
      requires Distinct(Ids(frameSeries)) && forall id :: id in Ids(frameSeries) ==> id in cells
      modifies this`frame, this`cells, this`woken, this`frameSeries, this`firedFrames
      ensures Popped(old(frameSeries), frames, sent) && forall id :: id in Ids(sent) ==> id in old(cells)
      ensures Value() == CompleteAll(old(Value()).(frame := frames), Ids(sent)).(
                           frames := Later(old(frameSeries), frames), firedFrames := old(firedFrames) + sent)
    {
      ghost var w := Value();
      frame := frames;
      sent, frameSeries := RunSeries(frameSeries, frame);
      CompleteAllFrame(w.(frame := frame), w, Ids(sent));
      firedFrames := firedFrames + sent;
    }

    /** Both heaps, one after the other. */
    method RunBothSeries(elapsed: int, frames: int) returns (sent: seq<Entry>, sentFrames: seq<Entry>)
      requires Distinct(Ids(timeSeries)) && Distinct(Ids(frameSeries))
      requires forall id :: id in Ids(timeSeries) || id in Ids(frameSeries) ==> id in cells
      modifies this
      ensures Popped(old(timeSeries), elapsed, sent) && Popped(old(frameSeries), frames, sentFrames)
      ensures forall id :: id in Ids(sent) + Ids(sentFrames) ==> id in old(cells)
      ensures Value() == Fire(old(Value()), elapsed, frames, sent, sentFrames)
    {
      ghost var w := Value();
      sent := RunTimes(elapsed);
      ghost var w2 := Value().(frame := frames);
      sentFrames := RunFrames(frames);
      FireInTwo(w, elapsed, frames, sent, sentFrames, w2);
    }

    /** `run_time_series`. */
    method RunTimeSeries(elapsed: int, frames: int) returns (sent: seq<Entry>, sentFrames: seq<Entry>)
      requires Inv(Value()) && now <= elapsed && frame <= frames
      modifies this
      ensures Allowed(old(Value()), SleepQueues.Step.RunTimeSeries(elapsed, frames, sent, sentFrames))
      ensures Value() == Next(old(Value()), SleepQueues.Step.RunTimeSeries(elapsed, frames, sent, sentFrames))
    {
      assert forall id :: id in Ids(timeSeries) || id in Ids(frameSeries) ==> Owned(Value(), id);
      sent, sentFrames := RunBothSeries(elapsed, frames);
    }

    /** The pass over the callbacks. */
    method RetainCallbacks(answers: map<Id, int>)
      requires forall id :: id in repeatQueue ==> id in cells
      modifies this`cells, this`woken, this`repeatQueue
      ensures Value() == WatchAll(old(Value()).(watches := []), old(repeatQueue), answers)
    {
      ghost var w := Value().(watches := []);
      var ids := repeatQueue;
      repeatQueue := [];
      var k := 0;
      while k < |ids|
        invariant 0 <= k <= |ids| && cells.Keys == w.cells.Keys
        invariant Value() == WatchAll(w, ids[..k], answers)
      {
        var id := ids[k];
        assert ids[..k + 1] == ids[..k] + [id];
        WatchOneMore(w, ids[..k], id, answers);
        if cells[id].complete {
          woken := woken + Wakes(id, cells[id].recvWaker);
          cells := cells[id := SenderDropped(cells[id])];
        } else if id in answers {
          SendTo(id, answers[id]);
        } else {
          repeatQueue := repeatQueue + [id];
        }
        k := k + 1;
      }
      assert ids[..k] == ids;
    }

    /** `run_watch_queries`: callbacks whose receiver is gone are dropped, those whose query answers
        send the answer, and the others are kept in order. */
    method RunWatchQueries(answers: map<Id, int>)
      requires Inv(Value())
      modifies this
      ensures Value() == Next(old(Value()), SleepQueues.Step.RunWatchQueries(answers))
    {
      assert forall id :: id in repeatQueue ==> Owned(Value(), id);
      RetainCallbacks(answers);
    }
  }
}
