/** The query queue: deadline heaps and watch callbacks that own the senders of one-shot cells. */
module SleepQueues {
  import opened Options
  import opened Lists
  import opened OneShots

  type Id = nat

  datatype Entry = Entry(deadline: int, id: Id)

  /** The waker registered with a cell has been woken. */
  datatype Wake = Wake(id: Id, waker: Waker)

  /** `held` are the receivers that have neither resolved nor been dropped. `woken`, `fired`,
      `firedFrames` and `registered` are history: the wakers woken and for which cell, the sleepers
      of either heap sent to, and the waker registered by the first pending poll of each receiver. */
  datatype World = World(
    cells: map<Id, Cell>, times: seq<Entry>, frames: seq<Entry>, watches: seq<Id>, now: int, frame: int,
    held: set<Id>, woken: seq<Wake>, fired: seq<Entry>, firedFrames: seq<Entry>, registered: map<Id, Waker>)

  const EMPTY: World := World(map[], [], [], [], 0, 0, {}, [], [], [], map[])

  // ---- Senders ----

  function Ids(es: seq<Entry>): seq<Id> {
    seq(|es|, i requires 0 <= i < |es| => es[i].id)
  }

  /** The cells whose sender is in the queue. */
  predicate Owned(w: World, id: Id) {
    id in Ids(w.times) || id in Ids(w.frames) || id in w.watches
  }

  function Wakes(id: Id, x: Option<Waker>): seq<Wake> {
    if x.Some? then [Wake(id, x.value)] else []
  }

  /** The sender of `id` is used up: it sends `v`, or is merely dropped. */
  function Complete(w: World, id: Id, v: Option<int>): World
    requires id in w.cells
  {
    var x := w.cells[id];
    w.(cells := w.cells[id := if v.Some? then Sent(x, v.value) else SenderDropped(x)],
       woken := w.woken + Wakes(id, x.recvWaker))
  }

  function CompleteAll(w: World, ids: seq<Id>): World
    requires forall id :: id in ids ==> id in w.cells
    decreases |ids|
  {
    if ids == [] then w else CompleteAll(Complete(w, ids[0], Some(0)), ids[1..])
  }

  // ---- The heaps ----

  function Due(es: seq<Entry>, now: int): seq<Entry> {
    if es == [] then [] else (if es[0].deadline <= now then [es[0]] else []) + Due(es[1..], now)
  }

  function Later(es: seq<Entry>, now: int): seq<Entry> {
    if es == [] then [] else (if es[0].deadline > now then [es[0]] else []) + Later(es[1..], now)
  }

  predicate Sorted(es: seq<Entry>) {
    forall i, j :: 0 <= i < j < |es| ==> es[i].deadline <= es[j].deadline
  }

  /** The heap gives up the due entries, earliest deadline first; the order of ties is its own. */
  ghost predicate Popped(es: seq<Entry>, now: int, sent: seq<Entry>) {
    && Sorted(sent) && Distinct(sent) && |sent| == |Due(es, now)|
    && forall e :: e in sent <==> e in Due(es, now)
  }

  // ---- Steps ----

  datatype Step =
    | Timed(duration: nat, id: Id)
    | TimedFrames(duration: nat, id: Id)
    | Repeat(id: Id)
    | PollReceiver(id: Id, waker: Waker)
    | DropReceiver(id: Id)
    | RunTimeSeries(now: int, frame: int, sent: seq<Entry>, sentFrames: seq<Entry>)
    | RunWatchQueries(answers: map<Id, int>)

  ghost predicate Allowed(w: World, a: Step) {
    match a
    case Timed(_, id) => id !in w.cells
    case TimedFrames(_, id) => id !in w.cells
    case Repeat(id) => id !in w.cells
    case PollReceiver(id, _) => id in w.held
    case DropReceiver(id) => id in w.held
    case RunTimeSeries(now, frame, sent, sentFrames) =>
      w.now <= now && w.frame <= frame && Popped(w.times, now, sent) && Popped(w.frames, frame, sentFrames)
    case RunWatchQueries(_) => true
  }

  function NewReceiver(w: World, id: Id): World {
    w.(cells := w.cells[id := NEW_CELL], held := w.held + {id})
  }

  /** A receiver that resolves is dropped by the future that holds it. */
  function PollCell(w: World, id: Id, k: Waker): World
    requires id in w.cells
  {
    var (x, p) := Polled(w.cells[id], k);
    if p == Pending then
      w.(cells := w.cells[id := x], registered := if id in w.registered then w.registered else w.registered[id := k])
    else w.(cells := w.cells[id := Closed(x)], held := w.held - {id})
  }

  /** One callback: it is dropped if the receiver is gone, and sends and ends if its query answers. */
  function WatchOne(w: World, id: Id, answers: map<Id, int>): World
    requires id in w.cells
  {
    if w.cells[id].complete then Complete(w, id, None)
    else if id in answers then Complete(w, id, Some(answers[id]))
    else w.(watches := w.watches + [id])
  }

  function WatchAll(w: World, ids: seq<Id>, answers: map<Id, int>): World
    requires forall id :: id in ids ==> id in w.cells
    decreases |ids|
  {
    if ids == [] then w else WatchAll(WatchOne(w, ids[0], answers), ids[1..], answers)
  }

  function Fire(w: World, now: int, frame: int, sent: seq<Entry>, sentFrames: seq<Entry>): World
    requires forall id :: id in Ids(sent) + Ids(sentFrames) ==> id in w.cells
  {
    CompleteAll(w.(now := now, frame := frame, times := Later(w.times, now), frames := Later(w.frames, frame),
                   fired := w.fired + sent, firedFrames := w.firedFrames + sentFrames), Ids(sent) + Ids(sentFrames))
  }

  // ---- Lemmas about filters ----

  lemma {:induction false} FilterMembers(es: seq<Entry>, now: int)
    ensures forall e :: e in Due(es, now) <==> e in es && e.deadline <= now
    ensures forall e :: e in Later(es, now) <==> e in es && e.deadline > now
  {
    if es != [] { FilterMembers(es[1..], now); }
  }

  lemma IdIn(es: seq<Entry>, e: Entry)
    ensures e in es ==> e.id in Ids(es)
  {
    if e in es {
      var i :| 0 <= i < |es| && es[i] == e;
      assert Ids(es)[i] == e.id;
    }
  }

  lemma EntryOf(es: seq<Entry>, id: Id) returns (e: Entry)
    requires id in Ids(es)
    ensures e in es && e.id == id
  {
    var i :| 0 <= i < |Ids(es)| && Ids(es)[i] == id;
    e := es[i];
  }

  lemma {:induction false} LaterDistinct(es: seq<Entry>, now: int)
    requires Distinct(Ids(es))
    ensures Distinct(Ids(Later(es, now))) && forall id :: id in Ids(Later(es, now)) ==> id in Ids(es)
  {
    if es != [] {
      var rest := es[1..];
      DistinctTail(Ids(es));
      assert Ids(es)[1..] == Ids(rest);
      LaterDistinct(rest, now);
      var tail := Later(rest, now);
      if es[0].deadline > now {
        assert Ids(Later(es, now)) == [es[0].id] + Ids(tail);
      } else {
        assert Later(es, now) == tail;
      }
    }
  }

  // ---- Completing many ----

  /** `w'` is `w` with the senders of `ids` used up: the other cells and the queue are untouched, and
      every waker registered with one of them has been woken. */
  ghost predicate Completed(w: World, ids: seq<Id>, w': World) {
    && w'.cells.Keys == w.cells.Keys && w'.(cells := w.cells, woken := w.woken) == w
    && w.woken <= w'.woken && (forall e :: e in w'.woken ==> e in w.woken || e.id in ids)
    && (forall id :: id in w.cells && id !in ids ==> w'.cells[id] == w.cells[id])
    && (forall id :: id in w.cells && id in ids ==> DoneCell(w.cells[id], w'.cells[id]))
    && (forall id :: id in w.cells && id in ids ==> HasWoken(w.cells[id], id, w'.woken))
  }

  /** The waker registered with the cell, if any, has been woken for it. */
  predicate HasWoken(x: Cell, id: Id, woken: seq<Wake>) {
    x.recvWaker.Some? ==> Wake(id, x.recvWaker.value) in woken
  }

  /** The cell is complete, and if it was open it has its value. */
  predicate DoneCell(x: Cell, x': Cell) {
    && x'.complete && x'.recvWaker.None? && (!x.complete && x.data.None? ==> x'.data == Some(0))
    && (x.complete ==> x'.data == x.data)
  }

  lemma {:induction false} CompleteAllEffect(w: World, ids: seq<Id>)
    requires Distinct(ids) && forall id :: id in ids ==> id in w.cells
    ensures Completed(w, ids, CompleteAll(w, ids))
    decreases |ids|
  {
    if ids != [] {
      var (first, rest) := (ids[0], ids[1..]);
      var w1 := Complete(w, first, Some(0));
      DistinctTail(ids);
      CompleteAllEffect(w1, rest);
      var w' := CompleteAll(w1, rest);
      assert forall id :: id in ids <==> id == first || id in rest;
      forall id | id in w.cells && id in ids
        ensures DoneCell(w.cells[id], w'.cells[id])
        ensures HasWoken(w.cells[id], id, w'.woken)
      {
        if id == first {
          assert w'.cells[first] == w1.cells[first];
          if w.cells[first].recvWaker.Some? {
            assert w'.woken[|w.woken|] == w1.woken[|w.woken|] == Wake(first, w.cells[first].recvWaker.value);
          }
        } else {
          assert w1.cells[id] == w.cells[id];
        }
      }
    }
  }

  // ---- The invariant ----

  /** Every sender is in the queue once, its cell is empty, and a cell whose sender is in the queue
      is complete only if its receiver has gone. */
  ghost predicate SendersOk(w: World) {
    && Distinct(Ids(w.times)) && Distinct(Ids(w.frames)) && Distinct(w.watches)
    && (forall id :: id in Ids(w.times) ==> id !in Ids(w.frames) && id !in w.watches)
    && (forall id :: id in Ids(w.frames) ==> id !in w.watches)
    && (forall id :: Owned(w, id) ==> id in w.cells && EmptyCell(w.cells[id], id in w.held))
  }

  predicate EmptyCell(x: Cell, held: bool) {
    x.data.None? && (x.complete ==> !held)
  }

  /** A held, unresolved receiver has its sender in the queue, or its value in the cell. */
  ghost predicate ReceiversOk(w: World) {
    forall id :: id in w.held ==> id in w.cells && (Owned(w, id) || (w.cells[id].complete && w.cells[id].data.Some?))
  }

  /** A registered waker is still registered, or has been woken for that cell; and no cell whose
      sender is in the queue has woken anybody yet. */
  ghost predicate WakersOk(w: World) {
    && (forall id :: id in w.registered ==> id in w.cells)
    && (forall id :: id in w.registered && Owned(w, id) ==> w.cells[id].recvWaker == Some(w.registered[id]))
    && (forall id :: id in w.registered && !Owned(w, id) ==> Wake(id, w.registered[id]) in w.woken)
    && (forall id :: id in w.cells && w.cells[id].recvWaker.Some? && Owned(w, id) ==> id in w.registered)
    && (forall e :: e in w.woken ==> e.id in w.cells && !Owned(w, e.id))
  }

  /** The sleepers of one heap are sent to in the order of their deadlines, once each and never
      early. */
  ghost predicate SeriesOk(es: seq<Entry>, fired: seq<Entry>, now: int, known: set<Id>) {
    && (forall e :: e in es ==> e.deadline >= now)
    && (forall e :: e in fired ==> e.deadline <= now && e.id in known && e.id !in Ids(es))
    && Sorted(fired) && Distinct(Ids(fired))
  }

  ghost predicate ClockOk(w: World) {
    && SeriesOk(w.times, w.fired, w.now, w.cells.Keys)
    && SeriesOk(w.frames, w.firedFrames, w.frame, w.cells.Keys)
  }

  ghost predicate Inv(w: World) {
    SendersOk(w) && ReceiversOk(w) && WakersOk(w) && ClockOk(w)
  }

  lemma EmptyInv()
    ensures Inv(EMPTY)
  {}
}
