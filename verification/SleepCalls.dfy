/** What the calls of the query queue promise their callers, from the call to the moment the receiver
    resolves. */
module SleepCalls {
  import opened Options
  import opened Lists
  import opened OneShots
  import opened SleepQueues
  import opened SleepSteps
  import opened SleepTheorems

  // ---- Runs as chains of steps ----

  ghost predicate StepOk(w: World, a: Step, w': World) {
    Inv(w) && Allowed(w, a) && w' == Next(w, a)
  }

  ghost predicate Chain(run: seq<World>, log: seq<Step>) {
    |run| == |log| + 1 && forall k :: 0 <= k < |log| ==> StepOk(run[k], log[k], run[k + 1])
  }

  lemma RunIsChain(run: seq<World>, log: seq<Step>)
    requires IsRun(run, log)
    ensures Chain(run, log) && forall k :: 0 <= k < |run| ==> Inv(run[k])
  {
    forall k | 0 <= k < |log| ensures StepOk(run[k], log[k], run[k + 1]) { StepAt(run, log, k); }
    forall k | 0 <= k < |run| ensures Inv(run[k]) { RunKeepsInv(run, log, k); }
  }

  lemma StepOf(run: seq<World>, log: seq<Step>, k: nat)
    requires Chain(run, log) && k < |log|
    ensures StepOk(run[k], log[k], run[k + 1]) && Inv(run[k + 1])
  {}

  // ---- Receivers and clocks ----

  /** `id` is known, its sender is in the queue, and its receiver is held exactly if `held`. */
  ghost predicate Waiting(w: World, id: Id, held: bool) {
    id in w.cells && Owned(w, id) && (id in w.held <==> held)
  }

  /** A receiver whose sender is in the queue stops being held only by being dropped. */
  lemma HeldStep(w: World, a: Step, w': World, id: Id)
    requires Inv(w) && Allowed(w, a) && w' == Next(w, a) && id in w.cells && Owned(w, id)
    ensures id in w'.cells && (id in w'.held <==> id in w.held && a != DropReceiver(id))
  {
    if a.RunTimeSeries? {
      FireLeaves(w, a);
    } else if a.RunWatchQueries? {
      WatchLeaves(w, a.answers);
    } else if a.PollReceiver? && a.id == id {
      PollNeverCanceled(w, id, a.waker);
    }
  }

  /** No step from `i` on, up to `j`, drops the receiver. */
  predicate Kept(log: seq<Step>, i: nat, j: nat, id: Id)
    requires j <= |log|
  {
    forall k :: i <= k < j ==> log[k] != DropReceiver(id)
  }

  /** If the sender of `id` is in the queue, the receiver is held after the step exactly if it was
      and is not dropped. */
  ghost predicate HeldOn(w: World, a: Step, w': World, id: Id) {
    id in w.cells && Owned(w, id) ==> id in w'.cells && (id in w'.held <==> id in w.held && a != DropReceiver(id))
  }

  lemma HeldAt(run: seq<World>, log: seq<Step>, k: nat, id: Id)
    requires Chain(run, log) && k < |log|
    ensures HeldOn(run[k], log[k], run[k + 1], id)
  {
    StepOf(run, log, k);
    if id in run[k].cells && Owned(run[k], id) { HeldStep(run[k], log[k], run[k + 1], id); }
  }

  lemma {:induction false} HeldThrough(run: seq<World>, log: seq<Step>, i: nat, j: nat, id: Id)
    requires |run| == |log| + 1 && i <= j < |run| && Waiting(run[i], id, true)
    requires forall k :: i <= k <= j ==> Owned(run[k], id)
    requires forall k :: i <= k < j ==> HeldOn(run[k], log[k], run[k + 1], id)
    ensures Waiting(run[j], id, Kept(log, i, j, id))
    decreases j
  {
    if i < j {
      HeldThrough(run, log, i, j - 1, id);
      assert HeldOn(run[j - 1], log[j - 1], run[j - 1 + 1], id);
      assert Kept(log, i, j, id) <==> Kept(log, i, j - 1, id) && log[j - 1] != DropReceiver(id);
    }
  }

  /** While its sender is in the queue, a receiver is held until it is dropped. */
  lemma HeldWhileOwned(run: seq<World>, log: seq<Step>, i: nat, j: nat, id: Id)
    requires Chain(run, log) && i <= j < |run| && Waiting(run[i], id, true)
    requires forall k :: i <= k <= j ==> Owned(run[k], id)
    ensures Waiting(run[j], id, Kept(log, i, j, id))
  {
    forall k | i <= k < j ensures HeldOn(run[k], log[k], run[k + 1], id) { HeldAt(run, log, k, id); }
    HeldThrough(run, log, i, j, id);
  }

  /** The clocks of the queue are those of the latest pass. */
  lemma ClocksFollowPasses(run: seq<World>, log: seq<Step>, k: nat)
    requires IsRun(run, log) && k < |log|
    ensures run[k + 1].now == if log[k].RunTimeSeries? then log[k].now else run[k].now
    ensures run[k + 1].frame == if log[k].RunTimeSeries? then log[k].frame else run[k].frame
  {
    StepAt(run, log, k);
    if log[k].RunTimeSeries? {
      FireLeaves(run[k], log[k]);
    } else if log[k].RunWatchQueries? {
      WatchLeaves(run[k], log[k].answers);
    }
  }

  // ---- Sleeping for a time ----

  /** No pass from `i` on, up to `j`, has reached the time. */
  predicate Earlier(log: seq<Step>, i: nat, j: nat, deadline: int)
    requires j <= |log|
  {
    forall k :: i <= k < j && log[k].RunTimeSeries? ==> log[k].now < deadline
  }

  lemma TimedRegistered(w: World, a: Step, w': World)
    requires Inv(w) && Allowed(w, a) && a.Timed? && w' == Next(w, a)
    ensures Entry(w.now + a.duration, a.id) in w'.times && Waiting(w', a.id, true)
  {
    var e := Entry(w.now + a.duration, a.id);
    assert w'.times[|w.times|] == e;
    IdIn(w'.times, e);
  }

  lemma TimedQueued(run: seq<World>, log: seq<Step>, k: nat, j: nat, duration: nat, id: Id)
    requires Chain(run, log) && k < j < |run| && log[k] == Timed(duration, id)
    requires Earlier(log, k + 1, j, run[k].now + duration)
    ensures Entry(run[k].now + duration, id) in run[j].times && Waiting(run[k + 1], id, true)
  {
    var e := Entry(run[k].now + duration, id);
    StepOf(run, log, k);
    TimedRegistered(run[k], log[k], run[k + 1]);
    forall i | k + 1 <= i < j && e in run[i].times ensures e in run[i + 1].times {
      StepOf(run, log, i);
      SleeperStep(run[i], log[i], e);
    }
    StaysInTimes(run, k + 1, j, e);
  }

  lemma TimedWaits(run: seq<World>, log: seq<Step>, k: nat, j: nat, duration: nat, id: Id)
    requires Chain(run, log) && k < j < |run| && log[k] == Timed(duration, id)
    requires Earlier(log, k + 1, j, run[k].now + duration)
    ensures Waiting(run[j], id, Kept(log, k + 1, j, id))
  {
    var e := Entry(run[k].now + duration, id);
    forall i | k + 1 <= i <= j ensures Owned(run[i], id) {
      TimedQueued(run, log, k, i, duration, id);
      IdIn(run[i].times, e);
    }
    TimedQueued(run, log, k, k + 1, duration, id);
    HeldWhileOwned(run, log, k + 1, j, id);
  }

  /** A call of `timed`: until a pass reaches the time of the call plus the duration, the receiver is
      held unless it is dropped, and polling it is pending. The first pass that reaches it sends to
      it, and from then on polling it gives the value. */
  lemma TimedCall(run: seq<World>, log: seq<Step>, k: nat, j: nat, duration: nat, id: Id, waker: Waker)
    requires IsRun(run, log) && k < j < |run| && log[k] == Timed(duration, id)
    requires Earlier(log, k + 1, j, run[k].now + duration)
    ensures id in run[j].cells && (id in run[j].held <==> Kept(log, k + 1, j, id))
    ensures id in run[j].held ==> Polled(run[j].cells[id], waker).1 == Pending
    ensures j < |log| && log[j].RunTimeSeries? && log[j].now >= run[k].now + duration ==>
              Resolves(run[j], run[j + 1], Ids(log[j].sent), id, waker)
  {
    var e := Entry(run[k].now + duration, id);
    RunIsChain(run, log);
    TimedWaits(run, log, k, j, duration, id);
    if id in run[j].held { PollNeverCanceled(run[j], id, waker); }
    if j < |log| && log[j].RunTimeSeries? && log[j].now >= run[k].now + duration {
      TimedQueued(run, log, k, j, duration, id);
      assert StepOk(run[j], log[j], run[j + 1]);
      SleeperStep(run[j], log[j], e);
      IdIn(log[j].sent, e);
      SentResolves(run[j], log[j], run[j + 1], id, waker);
    }
  }

  /** The pass has sent to `id`: its sender has left the queue, and a held receiver has its value. */
  ghost predicate Resolves(w: World, w': World, sent: seq<Id>, id: Id, waker: Waker) {
    && id in sent && !Owned(w', id) && id in w'.cells && (id in w'.held <==> id in w.held)
    && (id in w'.held ==> Polled(w'.cells[id], waker).1.Ready?)
  }

  lemma SentResolves(w: World, a: Step, w': World, id: Id, waker: Waker)
    requires StepOk(w, a, w') && a.RunTimeSeries? && id in w.cells && Owned(w, id)
    requires id in Ids(a.sent) || id in Ids(a.sentFrames)
    ensures !Owned(w', id) && id in w'.cells && (id in w'.held <==> id in w.held)
    ensures id in w'.held ==> Polled(w'.cells[id], waker).1.Ready?
  {
    FireLeaves(w, a);
    assert id in Ids(a.sent) + Ids(a.sentFrames);
    if id in w'.held { PollNeverCanceled(w', id, waker); }
  }

  // ---- Sleeping for a number of frames ----

  predicate EarlierFrame(log: seq<Step>, i: nat, j: nat, deadline: int)
    requires j <= |log|
  {
    forall k :: i <= k < j && log[k].RunTimeSeries? ==> log[k].frame < deadline
  }

  lemma FramesRegistered(w: World, a: Step, w': World)
    requires Inv(w) && Allowed(w, a) && a.TimedFrames? && w' == Next(w, a)
    ensures Entry(w.frame + a.duration, a.id) in w'.frames && Waiting(w', a.id, true)
  {
    var e := Entry(w.frame + a.duration, a.id);
    assert w'.frames[|w.frames|] == e;
    IdIn(w'.frames, e);
  }

  lemma FramesQueued(run: seq<World>, log: seq<Step>, k: nat, j: nat, duration: nat, id: Id)
    requires Chain(run, log) && k < j < |run| && log[k] == TimedFrames(duration, id)
    requires EarlierFrame(log, k + 1, j, run[k].frame + duration)
    ensures Entry(run[k].frame + duration, id) in run[j].frames && Waiting(run[k + 1], id, true)
  {
    var e := Entry(run[k].frame + duration, id);
    StepOf(run, log, k);
    FramesRegistered(run[k], log[k], run[k + 1]);
    forall i | k + 1 <= i < j && e in run[i].frames ensures e in run[i + 1].frames {
      StepOf(run, log, i);
      FrameSleeperStep(run[i], log[i], e);
    }
    StaysInFrames(run, k + 1, j, e);
  }

  lemma FramesWait(run: seq<World>, log: seq<Step>, k: nat, j: nat, duration: nat, id: Id)
    requires Chain(run, log) && k < j < |run| && log[k] == TimedFrames(duration, id)
    requires EarlierFrame(log, k + 1, j, run[k].frame + duration)
    ensures Waiting(run[j], id, Kept(log, k + 1, j, id))
  {
    var e := Entry(run[k].frame + duration, id);
    forall i | k + 1 <= i <= j ensures Owned(run[i], id) {
      FramesQueued(run, log, k, i, duration, id);
      IdIn(run[i].frames, e);
    }
    FramesQueued(run, log, k, k + 1, duration, id);
    HeldWhileOwned(run, log, k + 1, j, id);
  }

  /** A call of `timed_frames`: the same, counted in frames. */
  lemma TimedFramesCall(run: seq<World>, log: seq<Step>, k: nat, j: nat, duration: nat, id: Id, waker: Waker)
    requires IsRun(run, log) && k < j < |run| && log[k] == TimedFrames(duration, id)
    requires EarlierFrame(log, k + 1, j, run[k].frame + duration)
    ensures id in run[j].cells && (id in run[j].held <==> Kept(log, k + 1, j, id))
    ensures id in run[j].held ==> Polled(run[j].cells[id], waker).1 == Pending
    ensures j < |log| && log[j].RunTimeSeries? && log[j].frame >= run[k].frame + duration ==>
              Resolves(run[j], run[j + 1], Ids(log[j].sentFrames), id, waker)
  {
    var e := Entry(run[k].frame + duration, id);
    RunIsChain(run, log);
    FramesWait(run, log, k, j, duration, id);
    if id in run[j].held { PollNeverCanceled(run[j], id, waker); }
    if j < |log| && log[j].RunTimeSeries? && log[j].frame >= run[k].frame + duration {
      FramesQueued(run, log, k, j, duration, id);
      assert StepOk(run[j], log[j], run[j + 1]);
      FrameSleeperStep(run[j], log[j], e);
      IdIn(log[j].sentFrames, e);
      SentResolves(run[j], log[j], run[j + 1], id, waker);
    }
  }

  // ---- Watching ----

  function RetainedOne(cells: map<Id, Cell>, id: Id, answers: map<Id, int>): seq<Id> {
    if id in cells && Stays(cells[id], id, answers) then [id] else []
  }

  /** The callbacks that stay through a pass, in their order. */
  function Retained(cells: map<Id, Cell>, ids: seq<Id>, answers: map<Id, int>): seq<Id> {
    if ids == [] then []
    else Retained(cells, ids[..|ids| - 1], answers) + RetainedOne(cells, ids[|ids| - 1], answers)
  }

  lemma {:induction false} RetainedFront(cells: map<Id, Cell>, first: Id, rest: seq<Id>, answers: map<Id, int>)
    ensures Retained(cells, [first] + rest, answers)
         == RetainedOne(cells, first, answers) + Retained(cells, rest, answers)
    decreases |rest|
  {
    var ids := [first] + rest;
    if rest == [] {
      assert ids[..0] == [] && Retained(cells, ids[..0], answers) == [];
    } else {
      var n := |rest| - 1;
      RetainedFront(cells, first, rest[..n], answers);
      assert ids[..|ids| - 1] == [first] + rest[..n];
    }
  }

  lemma {:induction false} RetainedFrame(
      cells: map<Id, Cell>, cells': map<Id, Cell>, ids: seq<Id>, answers: map<Id, int>)
    requires forall id :: id in ids ==> id in cells && id in cells' && cells[id] == cells'[id]
    ensures Retained(cells, ids, answers) == Retained(cells', ids, answers)
    decreases |ids|
  {
    if ids != [] { RetainedFrame(cells, cells', ids[..|ids| - 1], answers); }
  }

  lemma WatchOneRetains(w: World, id: Id, answers: map<Id, int>)
    requires id in w.cells
    ensures var w' := WatchOne(w, id, answers);
            && w'.watches == w.watches + RetainedOne(w.cells, id, answers)
            && (forall k :: k in w.cells ==> k in w'.cells && (k != id ==> w'.cells[k] == w.cells[k]))
  {}

  lemma {:induction false} WatchAllRetains(w: World, ids: seq<Id>, answers: map<Id, int>)
    requires Distinct(ids) && forall id :: id in ids ==> id in w.cells
    ensures WatchAll(w, ids, answers).watches == w.watches + Retained(w.cells, ids, answers)
    decreases |ids|
  {
    if ids != [] {
      var (first, rest) := (ids[0], ids[1..]);
      DistinctTail(ids);
      WatchOneRetains(w, first, answers);
      var w1 := WatchOne(w, first, answers);
      assert WatchAll(w, ids, answers).watches == w1.watches + Retained(w.cells, rest, answers) by {
        WatchAllRetains(w1, rest, answers);
        RetainedFrame(w.cells, w1.cells, rest, answers);
      }
      assert Retained(w.cells, ids, answers)
          == RetainedOne(w.cells, first, answers) + Retained(w.cells, rest, answers) by {
        RetainedFront(w.cells, first, rest, answers);
        assert ids == [first] + rest;
      }
    }
  }

  /** A pass over the callbacks keeps those that stay in the order in which they were registered, and
      a new callback is registered behind all others. */
  lemma CallbacksInOrder(w: World, a: Step)
    requires Inv(w) && Allowed(w, a)
    ensures var w' := Next(w, a);
            w'.watches == if a.RunWatchQueries? then Retained(w.cells, w.watches, a.answers)
                          else if a.Repeat? then w.watches + [a.id] else w.watches
  {
    if a.RunWatchQueries? {
      WatchLeaves(w, a.answers);
      WatchAllRetains(w.(watches := []), w.watches, a.answers);
    } else if a.RunTimeSeries? {
      WatchesUntouched(w, a);
    }
  }

  lemma WatchesUntouched(w: World, a: Step)
    requires Inv(w) && Allowed(w, a) && a.RunTimeSeries?
    ensures Next(w, a).watches == w.watches
  {
    FireLeaves(w, a);
    FiredIds(w, a);
    CompleteAllEffect(Rewound(w, a), Ids(a.sent) + Ids(a.sentFrames));
  }

  /** What a step does to one callback: it sends the answer, or ends, or stays. */
  ghost predicate WatchMoves(w: World, a: Step, w': World, id: Id) {
    id in w.watches && id in w.cells ==>
      && id in w'.cells && (id in w'.watches <==> !a.RunWatchQueries? || Stays(w.cells[id], id, a.answers))
      && (a.RunWatchQueries? && !w.cells[id].complete && id in a.answers ==>
            w'.cells[id].complete && w'.cells[id].data == Some(a.answers[id]))
      && (w.cells[id].complete ==> w'.cells[id].complete && w'.cells[id].data.None?)
      && (a == DropReceiver(id) ==> w'.cells[id].complete)
  }

  lemma WatchStep(w: World, a: Step, w': World, id: Id)
    requires StepOk(w, a, w')
    ensures WatchMoves(w, a, w', id)
  {
    if id in w.watches && id in w.cells {
      assert Owned(w, id) && EmptyCell(w.cells[id], id in w.held);
      if a.RunWatchQueries? {
        WatchPass(w, a, w', id);
      } else if a.RunTimeSeries? {
        WatchesUntouched(w, a);
        FireLeaves(w, a);
        assert Owned(w', id);
      }
    }
  }

  lemma WatchPass(w: World, a: Step, w': World, id: Id)
    requires StepOk(w, a, w') && a.RunWatchQueries? && id in w.watches && id in w.cells && w.cells[id].data.None?
    ensures WatchMoves(w, a, w', id)
  {
    assert forall k :: k in w.watches ==> Owned(w, k);
    WatchAllEffect(w.(watches := []), w.watches, a.answers);
  }

  lemma WatchAt(run: seq<World>, log: seq<Step>, k: nat, id: Id)
    requires Chain(run, log) && k < |log|
    ensures WatchMoves(run[k], log[k], run[k + 1], id)
  {
    StepOf(run, log, k);
    WatchStep(run[k], log[k], run[k + 1], id);
  }

  /** No pass from `i` on, up to `j`, has an answer for the callback. */
  predicate Unanswered(log: seq<Step>, i: nat, j: nat, id: Id)
    requires j <= |log|
  {
    forall k :: i <= k < j && log[k].RunWatchQueries? ==> id !in log[k].answers
  }

  /** The callback is registered, and its receiver is held and open. */
  ghost predicate Watching(w: World, id: Id) {
    id in w.watches && Waiting(w, id, true) && !w.cells[id].complete
  }

  ghost predicate WatchesOn(w: World, a: Step, w': World, id: Id) {
    Watching(w, id) && a != DropReceiver(id) && (a.RunWatchQueries? ==> id !in a.answers) ==> Watching(w', id)
  }

  lemma WatchesOnAt(run: seq<World>, log: seq<Step>, k: nat, id: Id)
    requires Chain(run, log) && k < |log|
    ensures WatchesOn(run[k], log[k], run[k + 1], id)
  {
    if Watching(run[k], id) && log[k] != DropReceiver(id) && (log[k].RunWatchQueries? ==> id !in log[k].answers) {
      StepOf(run, log, k);
      WatchAt(run, log, k, id);
      HeldAt(run, log, k, id);
      HeldIsOpen(run[k + 1], id);
    }
  }

  lemma HeldIsOpen(w: World, id: Id)
    requires SendersOk(w) && id in w.watches && id in w.held
    ensures id in w.cells && Owned(w, id) && !w.cells[id].complete
  {
    assert Owned(w, id) && EmptyCell(w.cells[id], true);
  }

  lemma {:induction false} WatchesThrough(run: seq<World>, log: seq<Step>, i: nat, j: nat, id: Id)
    requires |run| == |log| + 1 && i <= j < |run| && Watching(run[i], id)
    requires Unanswered(log, i, j, id) && Kept(log, i, j, id)
    requires forall k :: i <= k < j ==> WatchesOn(run[k], log[k], run[k + 1], id)
    ensures Watching(run[j], id)
    decreases j
  {
    if i < j {
      WatchesThrough(run, log, i, j - 1, id);
      assert WatchesOn(run[j - 1], log[j - 1], run[j - 1 + 1], id);
    }
  }

  lemma RepeatRegistered(run: seq<World>, log: seq<Step>, k: nat, id: Id)
    requires Chain(run, log) && k < |log| && log[k] == Repeat(id)
    ensures Watching(run[k + 1], id)
  {
    StepOf(run, log, k);
    assert run[k + 1].watches[|run[k].watches|] == id;
    assert Owned(run[k + 1], id);
  }

  lemma RepeatWaits(run: seq<World>, log: seq<Step>, k: nat, j: nat, id: Id)
    requires Chain(run, log) && k < j < |run| && log[k] == Repeat(id)
    requires Unanswered(log, k + 1, j, id) && Kept(log, k + 1, j, id)
    ensures Watching(run[j], id)
  {
    RepeatRegistered(run, log, k, id);
    forall i | k + 1 <= i < j ensures WatchesOn(run[i], log[i], run[i + 1], id) { WatchesOnAt(run, log, i, id); }
    WatchesThrough(run, log, k + 1, j, id);
  }

  /** A call of `repeat`: until a pass has an answer, a receiver that is not dropped is pending; the
      first pass with an answer sends it, the callback is gone, and the receiver gets that answer. */
  lemma RepeatCall(run: seq<World>, log: seq<Step>, k: nat, j: nat, id: Id, waker: Waker)
    requires IsRun(run, log) && k < j < |run| && log[k] == Repeat(id)
    requires Unanswered(log, k + 1, j, id) && Kept(log, k + 1, j, id)
    ensures id in run[j].watches && id in run[j].held && id in run[j].cells
    ensures Polled(run[j].cells[id], waker).1 == Pending
    ensures j < |log| && log[j].RunWatchQueries? && id in log[j].answers ==>
              && id !in run[j + 1].watches && id in run[j + 1].held && id in run[j + 1].cells
              && Polled(run[j + 1].cells[id], waker).1 == Ready(log[j].answers[id])
  {
    RunIsChain(run, log);
    RepeatWaits(run, log, k, j, id);
    if j < |log| && log[j].RunWatchQueries? && id in log[j].answers {
      WatchAt(run, log, j, id);
      HeldAt(run, log, j, id);
    }
  }

  /** The callback is registered, and its cell is complete although nothing has been sent. */
  predicate Abandoned(w: World, id: Id) {
    id in w.watches && id in w.cells && w.cells[id].complete
  }

  predicate StaysAbandoned(w: World, a: Step, w': World, id: Id) {
    Abandoned(w, id) && !a.RunWatchQueries? ==> Abandoned(w', id)
  }

  lemma {:induction false} AbandonedThrough(run: seq<World>, log: seq<Step>, i: nat, j: nat, id: Id)
    requires |run| == |log| + 1 && i <= j < |run| && Abandoned(run[i], id)
    requires forall k :: i <= k < j ==> !log[k].RunWatchQueries? && StaysAbandoned(run[k], log[k], run[k + 1], id)
    ensures Abandoned(run[j], id)
    decreases j
  {
    if i < j {
      AbandonedThrough(run, log, i, j - 1, id);
      assert StaysAbandoned(run[j - 1], log[j - 1], run[j - 1 + 1], id);
    }
  }

  lemma DroppedStays(run: seq<World>, log: seq<Step>, i: nat, j: nat, id: Id)
    requires Chain(run, log) && i < j < |run| && log[i] == DropReceiver(id) && id in run[i].watches
    requires forall k :: i < k < j ==> !log[k].RunWatchQueries?
    ensures Abandoned(run[j], id)
  {
    assert StepOk(run[i], log[i], run[i + 1]);
    assert Owned(run[i], id);
    WatchAt(run, log, i, id);
    forall k | i + 1 <= k < j ensures StaysAbandoned(run[k], log[k], run[k + 1], id) {
      if Abandoned(run[k], id) { WatchAt(run, log, k, id); }
    }
    AbandonedThrough(run, log, i + 1, j, id);
  }

  /** A receiver dropped before its answer came: the next pass ends the callback whether or not its
      query would answer, and nothing is stored. */
  lemma DroppedCallbackEnds(run: seq<World>, log: seq<Step>, i: nat, j: nat, id: Id)
    requires IsRun(run, log) && i < j < |log| && log[i] == DropReceiver(id) && id in run[i].watches
    requires (forall k :: i < k < j ==> !log[k].RunWatchQueries?) && log[j].RunWatchQueries?
    ensures id in run[j].watches && id !in run[j + 1].watches && id !in run[i + 1].held
    ensures id in run[j + 1].cells && run[j + 1].cells[id].data.None?
  {
    RunIsChain(run, log);
    DroppedStays(run, log, i, j, id);
    WatchAt(run, log, j, id);
    assert Inv(run[i]) && Owned(run[i], id);
    HeldAt(run, log, i, id);
  }
}
