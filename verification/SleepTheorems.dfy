/** What holds in every run of the query queue, and the loops that implement its two passes. */
module SleepTheorems {
  import opened Lists
  import opened OneShots
  import opened SleepQueues
  import opened SleepSteps

  /** One step keeps the invariant. */
  function Next(w: World, a: Step): (w': World)
    requires Inv(w) && Allowed(w, a)
    ensures Inv(w')
  {
    match a
    case Timed(duration, id) => TimedKeeps(w, duration, id); WithTimed(w, duration, id)
    case TimedFrames(duration, id) => FramesKeeps(w, duration, id); WithFrames(w, duration, id)
    case Repeat(id) => RepeatKeeps(w, id); WithWatch(w, id)
    case PollReceiver(id, k) => PollKeeps(w, id, k); PollCell(w, id, k)
    case DropReceiver(id) => DropKeeps(w, id); w.(cells := w.cells[id := Closed(w.cells[id])], held := w.held - {id})
    case RunTimeSeries(now, frame, sent, sentFrames) => FireKeeps(w, a); Fire(w, now, frame, sent, sentFrames)
    case RunWatchQueries(answers) => WatchKeeps(w, answers); WatchAll(w.(watches := []), w.watches, answers)
  }

  ghost predicate IsRun(run: seq<World>, log: seq<Step>)
    decreases |run|
  {
    && |run| == |log| + 1
    && (if log == [] then run[0] == EMPTY
        else
          && IsRun(run[..|run| - 1], log[..|log| - 1])
          && var (w, a) := (run[|run| - 2], log[|log| - 1]);
             Inv(w) && Allowed(w, a) && run[|run| - 1] == Next(w, a))
  }

  lemma {:induction false} StepAt(run: seq<World>, log: seq<Step>, k: nat)
    requires IsRun(run, log) && k < |log|
    ensures Inv(run[k]) && Allowed(run[k], log[k]) && run[k + 1] == Next(run[k], log[k])
    decreases |run|
  {
    if k < |log| - 1 { StepAt(run[..|run| - 1], log[..|log| - 1], k); }
  }

  lemma {:induction false} RunKeepsInv(run: seq<World>, log: seq<Step>, n: nat)
    requires IsRun(run, log) && n < |run|
    ensures Inv(run[n])
    decreases |run|
  {
    if log == [] {
      EmptyInv();
    } else if n < |run| - 1 {
      RunKeepsInv(run[..|run| - 1], log[..|log| - 1], n);
    }
  }

  /** In every state a held receiver that has not resolved has its one sender in the queue or its
      value at hand, so that polling it never reports cancellation. */
  lemma ReceiversNeverCanceled(run: seq<World>, log: seq<Step>, n: nat, id: Id, k: Waker)
    requires IsRun(run, log) && n < |run| && id in run[n].held
    ensures id in run[n].cells && Polled(run[n].cells[id], k).1 != Canceled
    ensures Polled(run[n].cells[id], k).1 == Pending <==> Owned(run[n], id)
  {
    RunKeepsInv(run, log, n);
    PollNeverCanceled(run[n], id, k);
  }

  /** The waker that a receiver registered has been woken for that receiver once its sender is gone,
      and not before. */
  lemma RegisteredWakerFires(run: seq<World>, log: seq<Step>, n: nat, id: Id)
    requires IsRun(run, log) && n < |run| && id in run[n].registered
    ensures Wake(id, run[n].registered[id]) in run[n].woken <==> !Owned(run[n], id)
  {
    RunKeepsInv(run, log, n);
  }

  lemma WokenGrows(w: World, a: Step, w': World)
    requires Inv(w) && Allowed(w, a) && w' == Next(w, a)
    ensures w.woken <= w'.woken
    ensures forall id :: id in w.registered ==> id in w'.registered && w'.registered[id] == w.registered[id]
  {
    if a.RunTimeSeries? {
      FireLeaves(w, a);
    } else if a.RunWatchQueries? {
      WatchLeaves(w, a.answers);
    }
  }

  /** The step that uses up the sender of a receiver wakes the waker this receiver registered: among
      the wakes that the step adds is that one. */
  lemma CompletionWakes(run: seq<World>, log: seq<Step>, k: nat, id: Id)
    requires IsRun(run, log) && k < |log| && id in run[k].registered && Owned(run[k], id) && !Owned(run[k + 1], id)
    ensures run[k].woken <= run[k + 1].woken
    ensures Wake(id, run[k].registered[id]) in run[k + 1].woken[|run[k].woken|..]
  {
    var (w, w') := (run[k], run[k + 1]);
    StepAt(run, log, k);
    WokenGrows(w, log[k], w');
    RunKeepsInv(run, log, k + 1);
    NewlyWoken(w, w', Wake(id, w.registered[id]));
  }

  lemma NewlyWoken(w: World, w': World, e: Wake)
    requires WakersOk(w) && w.woken <= w'.woken && Owned(w, e.id) && e in w'.woken
    ensures e in w'.woken[|w.woken|..]
  {
    assert e !in w.woken;
    var i :| 0 <= i < |w'.woken| && w'.woken[i] == e;
    assert forall k :: 0 <= k < |w.woken| ==> w'.woken[k] == w.woken[k] && w.woken[k] != e;
    assert w'.woken[|w.woken|..][i - |w.woken|] == e;
  }

  /** Over the whole run the sleepers of each heap are sent to in the order of their deadlines, once
      each and never early. */
  lemma SleepersFireInOrder(run: seq<World>, log: seq<Step>, n: nat)
    requires IsRun(run, log) && n < |run|
    ensures var w := run[n];
            && Sorted(w.fired) && Distinct(Ids(w.fired))
            && (forall e :: e in w.fired ==> e.deadline <= w.now && e.id !in Ids(w.times))
            && Sorted(w.firedFrames) && Distinct(Ids(w.firedFrames))
            && (forall e :: e in w.firedFrames ==> e.deadline <= w.frame && e.id !in Ids(w.frames))
  {
    RunKeepsInv(run, log, n);
  }

  /** One step: a sleeper stays queued unless this is a run that reaches its deadline, and then it
      is sent to. */
  lemma SleeperStep(w: World, a: Step, e: Entry)
    requires Inv(w) && Allowed(w, a) && e in w.times
    ensures var w' := Next(w, a);
            if a.RunTimeSeries? && e.deadline <= a.now
            then e in a.sent && e in w'.fired && e !in w'.times else e in w'.times
  {
    if a.RunTimeSeries? {
      FilterMembers(w.times, a.now);
      FireLeaves(w, a);
    } else if a.RunWatchQueries? {
      WatchLeaves(w, a.answers);
    }
  }

  lemma FrameSleeperStep(w: World, a: Step, e: Entry)
    requires Inv(w) && Allowed(w, a) && e in w.frames
    ensures var w' := Next(w, a);
            if a.RunTimeSeries? && e.deadline <= a.frame
            then e in a.sentFrames && e in w'.firedFrames && e !in w'.frames else e in w'.frames
  {
    if a.RunTimeSeries? {
      FilterMembers(w.frames, a.frame);
      FireLeaves(w, a);
    } else if a.RunWatchQueries? {
      WatchLeaves(w, a.answers);
    }
  }

  lemma SleeperAt(run: seq<World>, log: seq<Step>, k: nat, e: Entry)
    requires IsRun(run, log) && k < |log| && e in run[k].times
    ensures if log[k].RunTimeSeries? && e.deadline <= log[k].now
            then e in log[k].sent && e in run[k + 1].fired && e !in run[k + 1].times
            else e in run[k + 1].times
  {
    StepAt(run, log, k);
    SleeperStep(run[k], log[k], e);
  }

  lemma FrameSleeperAt(run: seq<World>, log: seq<Step>, k: nat, e: Entry)
    requires IsRun(run, log) && k < |log| && e in run[k].frames
    ensures if log[k].RunTimeSeries? && e.deadline <= log[k].frame
            then e in log[k].sentFrames && e in run[k + 1].firedFrames && e !in run[k + 1].frames
            else e in run[k + 1].frames
  {
    StepAt(run, log, k);
    FrameSleeperStep(run[k], log[k], e);
  }

  lemma {:induction false} StaysInTimes(run: seq<World>, i: nat, j: nat, e: Entry)
    requires i <= j < |run| && e in run[i].times
    requires forall k :: i <= k < j && e in run[k].times ==> e in run[k + 1].times
    ensures e in run[j].times
    decreases j
  {
    if i < j {
      StaysInTimes(run, i, j - 1, e);
      assert e in run[j - 1 + 1].times;
    }
  }

  lemma {:induction false} StaysInFrames(run: seq<World>, i: nat, j: nat, e: Entry)
    requires i <= j < |run| && e in run[i].frames
    requires forall k :: i <= k < j && e in run[k].frames ==> e in run[k + 1].frames
    ensures e in run[j].frames
    decreases j
  {
    if i < j {
      StaysInFrames(run, i, j - 1, e);
      assert e in run[j - 1 + 1].frames;
    }
  }

  /** A sleeper fires at the first run whose time reaches its deadline, and not before. */
  lemma FiresAtFirstReach(run: seq<World>, log: seq<Step>, i: nat, j: nat, e: Entry)
    requires IsRun(run, log) && i <= j < |log| && e in run[i].times
    requires forall k :: i <= k < j && log[k].RunTimeSeries? ==> log[k].now < e.deadline
    ensures e in run[j].times
    ensures log[j].RunTimeSeries? && log[j].now >= e.deadline ==>
              e in log[j].sent && e in run[j + 1].fired && e !in run[j + 1].times
  {
    forall k | i <= k < j && e in run[k].times ensures e in run[k + 1].times { SleeperAt(run, log, k, e); }
    StaysInTimes(run, i, j, e);
    SleeperAt(run, log, j, e);
  }

  /** The same for sleepers that count frames. */
  lemma FrameFiresAtFirstReach(run: seq<World>, log: seq<Step>, i: nat, j: nat, e: Entry)
    requires IsRun(run, log) && i <= j < |log| && e in run[i].frames
    requires forall k :: i <= k < j && log[k].RunTimeSeries? ==> log[k].frame < e.deadline
    ensures e in run[j].frames
    ensures log[j].RunTimeSeries? && log[j].frame >= e.deadline ==>
              e in log[j].sentFrames && e in run[j + 1].firedFrames && e !in run[j + 1].frames
  {
    forall k | i <= k < j && e in run[k].frames ensures e in run[k + 1].frames { FrameSleeperAt(run, log, k, e); }
    StaysInFrames(run, i, j, e);
    FrameSleeperAt(run, log, j, e);
  }
}
