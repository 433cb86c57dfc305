/** What each scheduler call promises its caller: the whole new state, and what follows from it until
    the next call that concerns the same tasklet. */
module SchedulerCalls {
  import opened Options
  import opened Flags
  import opened Lists
  import opened Scheduler
  import opened SchedulerInvariant
  import opened SchedulerSteps
  import opened SchedulerEffects
  import opened SchedulerPlacement
  import opened SchedulerOrder
  import opened SchedulerTheorems
  import opened TaskletSteps

  // ---- Creating, inserting and removing ----

  /** A new tasklet is alive, has not run, and is nowhere; a spawned one is at the end of the run
      queue. Nothing else changes. */
  lemma CreateAndSpawn(s: State, t: Tid)
    requires Placed(s) && Allowed(s, DoSpawn(t))
    ensures var x := Tasklet(true, false, None, Neither, false, None, Stay, false, false, false, false, Idle);
            && Act(s, DoCreate(t)) == s.(tasklets := s.tasklets[t := x])
            && Act(s, DoSpawn(t)) == s.(tasklets := s.tasklets[t := x.(scheduled := true)], queue := s.queue + [t])
  {
    InsertEffect(Create(s, t), t);
    PutTwice(s.tasklets, t, FRESH, FRESH.(scheduled := true));
  }

  /** `insert` appends a live tasklet that is not blocked, and does nothing to any other. */
  lemma InsertAppends(s: State, t: Tid)
    requires Placed(s) && Allowed(s, DoInsert(t))
    ensures var (x, s') := (s.tasklets[t], Act(s, DoInsert(t)));
            if x.alive && x.blockedOn.None?
            then s' == s.(tasklets := s.tasklets[t := x.(scheduled := true)], queue := s.queue + [t])
            else s' == s
  {
    if Runnable(s.tasklets[t]) { InsertEffect(s, t); }
  }

  /** `remove` takes a queued tasklet out of the queue and leaves everybody else in order; the tasklet
      keeps its life, its call, its slot and its pending exception. Nothing else changes. */
  lemma RemoveTakesOut(s: State, t: Tid, a: seq<Tid>, b: seq<Tid>)
    requires Placed(s) && Allowed(s, DoRemove(t))
    ensures var (x, s') := (s.tasklets[t], Act(s, DoRemove(t)));
            && (t !in s.queue ==> s' == s)
            && (s.queue == a + [t] + b ==>
                  s' == s.(tasklets := s.tasklets[t := x.(scheduled := false)], queue := a + b))
  {
    if s.queue == a + [t] + b {
      assert s.queue[|a|] == t;
      WithoutMiddle(a, t, b);
    }
  }

  // ---- Giving up control ----

  lemma AfterTurnSplit(a: seq<Tid>, t: Tid, b: seq<Tid>)
    requires Distinct(a + [t] + b)
    ensures AfterTurn(a + [t] + b, t, Stay) == a + b && AfterTurn(a + [t] + b, t, Back) == a + b + [t]
  {
    WithoutMiddle(a, t, b);
  }

  /** `schedule` sends its caller to the back of the queue, alive and unchanged otherwise, and control
      goes to the main tasklet. */
  lemma ScheduleGoesToBack(s: State, a: seq<Tid>, b: seq<Tid>)
    requires Placed(s) && Allowed(s, DoSchedule) && s.current != MAIN && s.queue == a + [s.current] + b
    ensures Act(s, DoSchedule)
         == s.(tasklets := s.tasklets[s.current := s.tasklets[s.current].(at := InYield)],
               queue := a + b + [s.current], current := MAIN)
  {
    PlacedIsShaped(s);
    CurrentReady(s);
    assert Act(s, DoSchedule) == Schedule(s, false);
    ScheduleChanges(s, a, b);
  }

  lemma ScheduleChanges(s: State, a: seq<Tid>, b: seq<Tid>)
    requires Shaped(s) && Ready(s.tasklets[s.current], false) && s.current != MAIN
    requires Distinct(s.queue) && s.queue == a + [s.current] + b
    ensures var x := s.tasklets[s.current];
            && Schedule(s, false) == s.(tasklets := s.tasklets[s.current := x.(at := InYield)],
                                        queue := a + b + [s.current], current := MAIN)
            && Schedule(s, true) == s.(tasklets := s.tasklets[s.current := x.(scheduled := false, at := InYield)],
                                       queue := a + b, current := MAIN)
  {
    ScheduleEffect(s, false);
    ScheduleEffect(s, true);
    AfterTurnSplit(a, s.current, b);
    ScheduledRecords(s.tasklets[s.current]);
  }

  lemma ScheduledRecords(x: Tasklet)
    requires Ready(x, false)
    ensures YieldRecord(x.(reschedule := Back), false, InYield) == x.(at := InYield)
    ensures YieldRecord(x.(tagged := true), false, InYield) == x.(scheduled := false, at := InYield)
  {}

  /** Called by the main tasklet it changes no queue: the main tasklet stays at the head and runs the
      others. */
  lemma MainSchedules(s: State)
    requires Placed(s) && Allowed(s, DoSchedule) && s.current == MAIN
    ensures Act(s, DoSchedule)
         == s.(tasklets := s.tasklets[MAIN := s.tasklets[MAIN].(reschedule := Back, at := InYield)])
  {
    PlacedIsShaped(s);
    ScheduleEffect(s, false);
  }

  /** `schedule_remove` takes its caller out of the queue, alive, not blocked and unchanged otherwise,
      and control goes to the main tasklet. */
  lemma ScheduleRemoveSetsAside(s: State, a: seq<Tid>, b: seq<Tid>)
    requires Placed(s) && Allowed(s, DoScheduleRemove) && s.queue == a + [s.current] + b
    ensures var x := s.tasklets[s.current];
            && x.alive && x.blockedOn.None?
            && Act(s, DoScheduleRemove)
               == s.(tasklets := s.tasklets[s.current := x.(scheduled := false, at := InYield)],
                     queue := a + b, current := MAIN)
  {
    PlacedIsShaped(s);
    CurrentReady(s);
    assert Act(s, DoScheduleRemove) == Schedule(s, true);
    ScheduleChanges(s, a, b);
  }

  /** A tasklet whose callable returns leaves the queue; it is dead unless its transfer mark is set. */
  lemma FinishLeaves(s: State, a: seq<Tid>, b: seq<Tid>)
    requires Placed(s) && Allowed(s, DoFinish) && s.queue == a + [s.current] + b
    ensures var x := s.tasklets[s.current];
            Act(s, DoFinish)
            == s.(tasklets := s.tasklets[s.current :=
                                x.(alive := x.transferring, scheduled := false, at := Finished)],
                  queue := a + b, current := MAIN)
  {
    var x := s.tasklets[s.current];
    assert TaskletOk(x, false, true) && s.current in s.queue;
    FinishEffect(s);
    AfterTurnSplit(a, s.current, b);
    assert EndRecord(x.(at := Finished)) == x.(alive := x.transferring, scheduled := false, at := Finished);
  }

  /** A send that blocks: its caller leaves the run queue, unless it is main, and joins the end of the
      senders with its message in its slot. */
  lemma SendJoins(s: State, c: Cid, m: Message, a: seq<Tid>, b: seq<Tid>)
    requires Placed(s) && Allowed(s, DoSend(c, m)) && Waits(s, DoSend(c, m)) && s.queue == a + [s.current] + b
    ensures var (me, x, ch) := (s.current, s.tasklets[s.current], s.channels[c]);
            Act(s, DoSend(c, m)) == s.(
              tasklets := s.tasklets[me := x.(at := InSend(c, s.nextCall), transferring := true, direction := Sender,
                                              blockedOn := Some(c), slot := Some(m), scheduled := me == MAIN)],
              channels := s.channels[c := ch.(senders := ch.senders + [me], balance := |ch.senders| + 1,
                                              sends := ch.sends + [SendCall(s.nextCall, m)])],
              queue := if me == MAIN then s.queue else a + b, current := MAIN, nextCall := s.nextCall + 1)
  {
    CurrentReady(s);
    assert ChannelOk(s.channels[c]);
    assert Act(s, DoSend(c, m)) == SendBlocks(s, c, m);
    SendBlocksJoins(s, c, m, a, b);
  }

  lemma SendBlocksJoins(s: State, c: Cid, m: Message, a: seq<Tid>, b: seq<Tid>)
    requires s.current in s.tasklets && Ready(s.tasklets[s.current], s.current == MAIN) && c in s.channels
    requires Distinct(s.queue) && s.queue == a + [s.current] + b && s.channels[c].balance == |s.channels[c].senders|
    ensures var (me, x, ch) := (s.current, s.tasklets[s.current], s.channels[c]);
            SendBlocks(s, c, m) == s.(
              tasklets := s.tasklets[me := x.(at := InSend(c, s.nextCall), transferring := true, direction := Sender,
                                              blockedOn := Some(c), slot := Some(m), scheduled := me == MAIN)],
              channels := s.channels[c := ch.(senders := ch.senders + [me], balance := |ch.senders| + 1,
                                              sends := ch.sends + [SendCall(s.nextCall, m)])],
              queue := if me == MAIN then s.queue else a + b, current := MAIN, nextCall := s.nextCall + 1)
  {
    SendBlocksEffect(s, c, m);
    AfterTurnSplit(a, s.current, b);
    SendParkedRecord(s.tasklets[s.current], s.current == MAIN, c, m, s.nextCall);
  }

  lemma SendParkedRecord(x: Tasklet, isMain: bool, c: Cid, m: Message, call: Call)
    requires Ready(x, isMain)
    ensures YieldRecord(ParkedRecord(x, c, Sender, Some(m)), isMain, InSend(c, call))
         == x.(at := InSend(c, call), transferring := true, direction := Sender, blockedOn := Some(c), slot := Some(m),
               scheduled := isMain)
  {}

  /** A receive that blocks joins the end of the receivers. */
  lemma ReceiveJoins(s: State, c: Cid, a: seq<Tid>, b: seq<Tid>)
    requires Placed(s) && Allowed(s, DoReceive(c)) && Waits(s, DoReceive(c)) && s.queue == a + [s.current] + b
    ensures var (me, x, ch) := (s.current, s.tasklets[s.current], s.channels[c]);
            Act(s, DoReceive(c)) == s.(
              tasklets := s.tasklets[me := x.(at := InReceive(c, s.nextCall), transferring := true,
                                              direction := Receiver, blockedOn := Some(c), scheduled := me == MAIN)],
              channels := s.channels[c := ch.(receivers := ch.receivers + [me], balance := -|ch.receivers| - 1,
                                              receives := ch.receives + [s.nextCall])],
              queue := if me == MAIN then s.queue else a + b, current := MAIN, nextCall := s.nextCall + 1)
  {
    CurrentReady(s);
    assert ChannelOk(s.channels[c]);
    assert Act(s, DoReceive(c)) == ReceiveBlocks(s, c);
    ReceiveBlocksJoins(s, c, a, b);
  }

  lemma ReceiveBlocksJoins(s: State, c: Cid, a: seq<Tid>, b: seq<Tid>)
    requires s.current in s.tasklets && Ready(s.tasklets[s.current], s.current == MAIN) && c in s.channels
    requires Distinct(s.queue) && s.queue == a + [s.current] + b && s.channels[c].balance == -|s.channels[c].receivers|
    ensures var (me, x, ch) := (s.current, s.tasklets[s.current], s.channels[c]);
            ReceiveBlocks(s, c) == s.(
              tasklets := s.tasklets[me := x.(at := InReceive(c, s.nextCall), transferring := true,
                                              direction := Receiver, blockedOn := Some(c), scheduled := me == MAIN)],
              channels := s.channels[c := ch.(receivers := ch.receivers + [me], balance := -|ch.receivers| - 1,
                                              receives := ch.receives + [s.nextCall])],
              queue := if me == MAIN then s.queue else a + b, current := MAIN, nextCall := s.nextCall + 1)
  {
    ReceiveBlocksEffect(s, c);
    AfterTurnSplit(a, s.current, b);
    ReceiveParkedRecord(s.tasklets[s.current], s.current == MAIN, c, s.nextCall);
  }

  lemma ReceiveParkedRecord(x: Tasklet, isMain: bool, c: Cid, call: Call)
    requires Ready(x, isMain)
    ensures YieldRecord(ParkedRecord(x, c, Receiver, x.slot), isMain, InReceive(c, call))
         == x.(at := InReceive(c, call), transferring := true, direction := Receiver, blockedOn := Some(c),
               scheduled := isMain)
  {}

  // ---- Killing ----

  /** A pending kill of a tasklet that is not blocked leaves an exception for it to resume with, and
      queues it if it is not queued. Nothing else changes; nor does anything when the tasklet is dead or
      has been killed before. */
  lemma KillOfUnblocked(s: State, t: Tid)
    requires Placed(s) && Allowed(s, DoKill(t)) && s.tasklets[t].blockedOn.None?
    ensures var (x, s') := (s.tasklets[t], Act(s, DoKill(t)));
            if x.alive && !x.killPending
            then s' == s.(tasklets := s.tasklets[t := x.(scheduled := true, exception := true, killPending := true)],
                          queue := if t in s.queue then s.queue else s.queue + [t])
            else s' == s
  {
    var x := s.tasklets[t];
    assert TaskletOk(x, false, false);
    if x.alive && !x.killPending { KillUnblockedEffect(s, t); }
  }

  /** The kill of a blocked tasklet takes it off its list as well, which keeps its order; the channel
      forgets the call, moves its balance towards zero, and neither opens nor closes. */
  lemma KillOfBlocked(s: State, t: Tid, c: Cid, a: seq<Tid>, b: seq<Tid>)
    requires Placed(s) && Allowed(s, DoKill(t)) && s.tasklets[t].blockedOn == Some(c)
    requires s.tasklets[t].alive && !s.tasklets[t].killPending
    ensures c in s.channels
    ensures var (x, ch, s') := (s.tasklets[t], s.channels[c], Act(s, DoKill(t)));
            && s'.tasklets == s.tasklets[t := x.(blockedOn := None, direction := Neither, scheduled := true,
                                                 exception := true, killPending := true)]
            && s'.queue == s.queue + [t] && s'.current == s.current
            && s'.outcomes == s.outcomes && s'.nextCall == s.nextCall
            && s'.channels == s.channels[c := s'.channels[c]] && c in s'.channels
            && TakenOff(ch, s'.channels[c], t, a, b)
  {
    var x := s.tasklets[t];
    assert Directed(s, t) && Listed(s, c, t) && TaskletOk(x, false, false) && ChannelOk(s.channels[c]);
    KillBlockedEffect(s, t, c);
    assert Act(s, DoKill(t)) == KillPending(s, t);
    OffListsSplit(s.channels[c], x, t, a, b);
  }

  predicate TakenOff(ch: Channel, ch': Channel, t: Tid, a: seq<Tid>, b: seq<Tid>) {
    && (ch.senders == a + [t] + b ==>
          ch'.senders == a + b && ch'.receivers == [] && ch'.balance == ch.balance - 1 && ch'.receives == ch.receives)
    && (ch.receivers == a + [t] + b ==>
          ch'.receivers == a + b && ch'.senders == [] && ch'.balance == ch.balance + 1 && ch'.sends == ch.sends)
    && ch'.closing == ch.closing && ch'.closed == ch.closed && ch'.preference == ch.preference
  }

  lemma OffListsSplit(ch: Channel, x: Tasklet, t: Tid, a: seq<Tid>, b: seq<Tid>)
    requires ChannelOk(ch) && (t in ch.senders <==> x.direction == Sender) && (x.at.InSend? <==> x.direction == Sender)
    requires (t in ch.receivers <==> x.direction == Receiver) && (x.at.InReceive? <==> x.direction == Receiver)
    ensures TakenOff(ch, OffLists(CancelCall(ch, x.at), t, x.direction), t, a, b)
  {
    if ch.senders == a + [t] + b {
      assert ch.senders[|a|] == t;
      WithoutMiddle(a, t, b);
    }
    if ch.receivers == a + [t] + b {
      assert ch.receivers[|a|] == t;
      WithoutMiddle(a, t, b);
    }
  }

  // ---- Switching ----

  /** A switch gives control to the tasklet without touching the queue; a tasklet killed before its first
      run dies instead and leaves the queue. A receive that resumes with its message returns it, and one
      that resumes with an exception never does. */
  lemma SwitchResumes(s: State, t: Tid, a: seq<Tid>, b: seq<Tid>)
    requires Placed(s) && Allowed(s, DoSwitch(t)) && s.queue == a + [t] + b
    ensures t in s.tasklets
    ensures var (x, s') := (s.tasklets[t], Act(s, DoSwitch(t)));
            && (if x.exception && !x.started then s'.current == MAIN && s'.queue == a + b && s'.channels == s.channels
                else s'.current == t && s'.queue == s.queue)
            && s'.nextCall == s.nextCall && s'.outcomes == Returns(s.outcomes, x)
  {
    Switchable(s, t);
    var x := s.tasklets[t];
    assert s.queue[|a|] == t;
    assert TaskletOk(x, false, false);
    if x.exception && !x.started {
      StillbornEffect(s, t);
      AfterTurnSplit(a, t, b);
    } else {
      SwitchEffect(s, t);
    }
  }

  /** What the receives have returned once `x` has resumed. */
  function Returns(outcomes: map<Call, Outcome>, x: Tasklet): map<Call, Outcome> {
    if (x.at.InReceive? || x.at.InReceiveHandoff?) && x.slot.Some?
    then outcomes[x.at.call := if x.exception then Lost else Got(x.slot.value)] else outcomes
  }

  // ---- Whole runs ----

  lemma StepFollows(run: seq<State>, log: seq<Action>, k: nat, t: Tid)
    requires IsRun(run, log) && k < |log| && t in run[k].tasklets
    ensures Follows(run[k], log[k], t, run[k + 1])
  {
    StepAt(run, log, k);
    ActFollows(run[k], log[k], t, run[k + 1]);
  }

  /** In every run a live tasklet dies in a step if and only if it finishes there without a transfer mark,
      or is switched to for the first time with a kill pending; and the dead stay dead. No yield, block,
      handoff, removal or kill makes a tasklet dead. */
  lemma WhoDies(run: seq<State>, log: seq<Action>, k: nat, t: Tid)
    requires IsRun(run, log) && k < |log| && t in run[k].tasklets
    ensures var (s, x) := (run[k], run[k].tasklets[t]);
            && t in run[k + 1].tasklets
            && (run[k + 1].tasklets[t].alive <==>
                  && x.alive && !(log[k] == DoFinish && s.current == t && !x.transferring)
                  && !(log[k] == DoSwitch(t) && !x.started && x.exception))
  {
    StepFollows(run, log, k, t);
  }

  /** In every run a tasklet is in the run queue after a step if and only if it was there and does not part
      from it, or joins it. */
  lemma WhoIsQueued(run: seq<State>, log: seq<Action>, k: nat, t: Tid)
    requires IsRun(run, log) && k < |log| && t in run[k].tasklets
    ensures var (s, x) := (run[k], run[k].tasklets[t]);
            t in run[k + 1].queue <==>
              || (t in s.queue && !Parts(s, x, log[k], t))
              || Joins(s, x, log[k], t)
  {
    StepFollows(run, log, k, t);
    StepAt(run, log, k);
    RunPlacedThroughout(run, log, k + 1);
    QueuedIsScheduled(run[k], t);
    QueuedIsScheduled(run[k + 1], t);
  }

  lemma QueuedIsScheduled(s: State, t: Tid)
    requires Placed(s) && t in s.tasklets
    ensures t in s.queue <==> s.tasklets[t].scheduled
  {}

  /** `t` is out of the queue, and is alive, blocked and suspended as in `x`. */
  predicate OutAs(s: State, t: Tid, x: Tasklet) {
    && t in s.tasklets && t !in s.queue && t != s.current
    && s.tasklets[t].alive == x.alive && s.tasklets[t].blockedOn == x.blockedOn && s.tasklets[t].at == x.at
  }

  predicate StaysOut(s: State, a: Action, s': State, t: Tid, x: Tasklet) {
    OutAs(s, t, x) && !Joins(s, s.tasklets[t], a, t) ==> OutAs(s', t, x)
  }

  lemma StaysOutStep(s: State, a: Action, s': State, t: Tid, x: Tasklet)
    requires Placed(s) && Allowed(s, a) && s' == Act(s, a) && OutAs(s, t, x) && !Joins(s, s.tasklets[t], a, t)
    requires t != MAIN
    ensures OutAs(s', t, x)
  {
    QueuedIsScheduled(s, t);
    assert a != DoSwitch(t);
    ActFollows(s, a, t, s');
    OutsideStays(s, a, s', t);
    QueuedIsScheduled(s', t);
    assert s'.current in s'.queue;
  }

  /** A tasklet that is out of the queue, not current and does not join stays as it is. */
  lemma OutsideStays(s: State, a: Action, s': State, t: Tid)
    requires Follows(s, a, t, s') && !s.tasklets[t].scheduled && t != MAIN && t != s.current && a != DoSwitch(t)
    requires !Joins(s, s.tasklets[t], a, t)
    ensures var (x, x') := (s.tasklets[t], s'.tasklets[t]);
            !x'.scheduled && x'.alive == x.alive && x'.blockedOn == x.blockedOn && x'.at == x.at
  {}

  lemma StaysOutAt(run: seq<State>, log: seq<Action>, k: nat, t: Tid, x: Tasklet)
    requires IsRun(run, log) && k < |log| && t != MAIN
    ensures StaysOut(run[k], log[k], run[k + 1], t, x)
  {
    StepAt(run, log, k);
    if OutAs(run[k], t, x) && !Joins(run[k], run[k].tasklets[t], log[k], t) {
      StaysOutStep(run[k], log[k], run[k + 1], t, x);
    }
  }

  lemma {:induction false} OutThrough(run: seq<State>, log: seq<Action>, i: nat, j: nat, t: Tid, x: Tasklet)
    requires |run| == |log| + 1 && i <= j < |run| && OutAs(run[i], t, x)
    requires forall k :: i <= k < j ==> StaysOut(run[k], log[k], run[k + 1], t, x)
    requires forall k :: i <= k < j && t in run[k].tasklets ==> !Joins(run[k], run[k].tasklets[t], log[k], t)
    ensures OutAs(run[j], t, x)
    decreases j
  {
    if i < j {
      OutThrough(run, log, i, j - 1, t, x);
      assert StaysOut(run[j - 1], log[j - 1], run[j - 1 + 1], t, x);
    }
  }

  /** The steps from `i` on, up to `j`, neither insert, run nor kill `t`, nor meet it on a channel. */
  ghost predicate LeftAlone(run: seq<State>, log: seq<Action>, i: nat, j: nat, t: Tid) {
    && j <= |log| && |log| < |run|
    && forall k :: i <= k < j ==>
         log[k] != DoInsert(t) && log[k] != DoRun(t) && log[k] != DoKill(t) && !MetBy(run[k], log[k], t)
  }

  lemma OutWhileAlone(run: seq<State>, log: seq<Action>, i: nat, j: nat, t: Tid)
    requires IsRun(run, log) && i <= j < |run| && LeftAlone(run, log, i, j, t)
    requires t != MAIN && t in run[i].tasklets && OutAs(run[i], t, run[i].tasklets[t])
    ensures OutAs(run[j], t, run[i].tasklets[t])
  {
    var x := run[i].tasklets[t];
    forall k | i <= k < j ensures StaysOut(run[k], log[k], run[k + 1], t, x) { StaysOutAt(run, log, k, t, x); }
    OutThrough(run, log, i, j, t, x);
  }

  lemma RemovedIsOut(s: State, t: Tid, s': State)
    requires Placed(s) && Allowed(s, DoRemove(t)) && s' == Act(s, DoRemove(t))
    ensures t in s.tasklets && OutAs(s', t, s.tasklets[t])
  {
    ActFollows(s, DoRemove(t), t, s');
    QueuedIsScheduled(s', t);
    assert s'.current in s'.queue;
  }

  /** A removed tasklet gets no turn until it is inserted, run, killed or met again: it is out of the queue,
      as alive and in the same call as before. */
  lemma RemovedGetsNoTurn(run: seq<State>, log: seq<Action>, i: nat, j: nat, t: Tid)
    requires IsRun(run, log) && i < j < |run| && log[i] == DoRemove(t) && LeftAlone(run, log, i + 1, j, t)
    ensures t in run[i].tasklets && OutAs(run[j], t, run[i].tasklets[t])
    ensures j < |log| ==> log[j] != DoSwitch(t)
  {
    RemovedAt(run, log, i, t);
    OutWhileAlone(run, log, i + 1, j, t);
    if j < |log| { SwitchAt(run, log, j, t); }
  }

  lemma RemovedAt(run: seq<State>, log: seq<Action>, k: nat, t: Tid)
    requires IsRun(run, log) && k < |log| && log[k] == DoRemove(t)
    ensures t != MAIN && t in run[k].tasklets && OutAs(run[k + 1], t, run[k].tasklets[t])
  {
    StepAt(run, log, k);
    RemovedIsOut(run[k], t, run[k + 1]);
  }

  lemma SwitchAt(run: seq<State>, log: seq<Action>, k: nat, t: Tid)
    requires IsRun(run, log) && k < |log|
    ensures log[k] == DoSwitch(t) ==> t in run[k].queue
  {
    StepAt(run, log, k);
  }

  lemma SetAsideIsOut(s: State, s': State)
    requires Placed(s) && Allowed(s, DoScheduleRemove) && s' == Act(s, DoScheduleRemove)
    ensures s.current in s'.tasklets && OutAs(s', s.current, s'.tasklets[s.current])
    ensures var x := s'.tasklets[s.current]; x.alive && x.blockedOn.None? && x.at == InYield
  {
    CurrentReady(s);
    ActFollows(s, DoScheduleRemove, s.current, s');
    QueuedIsScheduled(s', s.current);
    assert s'.current in s'.queue;
  }

  /** A tasklet that has called `schedule_remove` stays alive, out of the queue, unblocked and suspended in
      that call until somebody inserts, runs or kills it; an `insert` then appends it to the queue. */
  lemma SetAsideThenInserted(run: seq<State>, log: seq<Action>, i: nat, j: nat, t: Tid)
    requires IsRun(run, log) && i < j < |run| && log[i] == DoScheduleRemove && t == run[i].current
    requires LeftAlone(run, log, i + 1, j, t)
    ensures t in run[j].tasklets && t !in run[j].queue
    ensures var x := run[j].tasklets[t]; x.alive && x.blockedOn.None? && x.at == InYield
    ensures j < |log| && log[j] == DoInsert(t) ==>
              && t in run[j + 1].tasklets && run[j + 1].queue == run[j].queue + [t]
              && run[j + 1].tasklets == run[j].tasklets[t := run[j].tasklets[t].(scheduled := true)]
  {
    SetAsideAt(run, log, i, t);
    OutWhileAlone(run, log, i + 1, j, t);
    if j < |log| && log[j] == DoInsert(t) { InsertedAt(run, log, j, t); }
  }

  lemma SetAsideAt(run: seq<State>, log: seq<Action>, k: nat, t: Tid)
    requires IsRun(run, log) && k < |log| && log[k] == DoScheduleRemove && t == run[k].current
    ensures t != MAIN && t in run[k + 1].tasklets && OutAs(run[k + 1], t, run[k + 1].tasklets[t])
    ensures var x := run[k + 1].tasklets[t]; x.alive && x.blockedOn.None? && x.at == InYield
  {
    StepAt(run, log, k);
    SetAsideIsOut(run[k], run[k + 1]);
  }

  lemma InsertedAt(run: seq<State>, log: seq<Action>, k: nat, t: Tid)
    requires IsRun(run, log) && k < |log| && log[k] == DoInsert(t) && t in run[k].tasklets
    requires run[k].tasklets[t].alive && run[k].tasklets[t].blockedOn.None?
    ensures run[k + 1].queue == run[k].queue + [t]
    ensures run[k + 1].tasklets == run[k].tasklets[t := run[k].tasklets[t].(scheduled := true)]
  {
    StepAt(run, log, k);
    InsertAppends(run[k], t);
  }

  /** A pending kill reaches its victim: until the loop switches to it the exception waits, and the switch
      raises it, or ends a tasklet that has never run. */
  lemma KillReaches(run: seq<State>, log: seq<Action>, i: nat, j: nat, t: Tid)
    requires IsRun(run, log) && i < j < |log| && log[i] == DoKill(t) && log[j] == DoSwitch(t)
    requires t in run[i].tasklets && run[i].tasklets[t].alive && !run[i].tasklets[t].killPending
    requires forall k :: i < k < j ==> log[k] != DoSwitch(t)
    ensures t in run[j].tasklets && run[j].tasklets[t].exception && t in run[j + 1].tasklets
    ensures run[j].tasklets[t].started ==> !run[j + 1].tasklets[t].exception && run[j + 1].current == t
    ensures !run[j].tasklets[t].started ==>
              && !run[j + 1].tasklets[t].alive && run[j + 1].tasklets[t].at == Finished
              && t !in run[j + 1].queue && run[j + 1].current == MAIN
  {
    StepFollows(run, log, i, t);
    forall k | i + 1 <= k < j ensures Carries(run[k], log[k], run[k + 1], t) { CarriesAt(run, log, k, t); }
    CarriedThrough(run, log, i + 1, j, t);
    StepFollows(run, log, j, t);
    StepAt(run, log, j);
    SwitchedTo(run[j], t, run[j + 1]);
  }

  lemma SwitchedTo(s: State, t: Tid, s': State)
    requires Placed(s) && Allowed(s, DoSwitch(t)) && s' == Act(s, DoSwitch(t)) && t in s.tasklets
    ensures if s.tasklets[t].exception && !s.tasklets[t].started then s'.current == MAIN && t !in s'.queue
            else s'.current == t
  {
    var a, b := SplitAt(s.queue, t);
    SwitchResumes(s, t, a, b);
    assert t !in a + b;
  }

  lemma SplitAt(q: seq<Tid>, t: Tid) returns (a: seq<Tid>, b: seq<Tid>)
    requires Distinct(q) && t in q
    ensures q == a + [t] + b && t !in a + b
  {
    var i := IndexOf(q, t);
    a, b := q[..i], q[i + 1..];
  }

  /** A pending exception stays until the switch. */
  predicate Carries(s: State, a: Action, s': State, t: Tid) {
    t in s.tasklets && s.tasklets[t].exception && a != DoSwitch(t) ==> t in s'.tasklets && s'.tasklets[t].exception
  }

  lemma CarriesAt(run: seq<State>, log: seq<Action>, k: nat, t: Tid)
    requires IsRun(run, log) && k < |log|
    ensures Carries(run[k], log[k], run[k + 1], t)
  {
    if t in run[k].tasklets { StepFollows(run, log, k, t); }
  }

  lemma {:induction false} CarriedThrough(run: seq<State>, log: seq<Action>, i: nat, j: nat, t: Tid)
    requires |run| == |log| + 1 && i <= j < |run| && t in run[i].tasklets && run[i].tasklets[t].exception
    requires forall k :: i <= k < j ==> Carries(run[k], log[k], run[k + 1], t) && log[k] != DoSwitch(t)
    ensures t in run[j].tasklets && run[j].tasklets[t].exception
    decreases j
  {
    if i < j {
      CarriedThrough(run, log, i, j - 1, t);
      assert Carries(run[j - 1], log[j - 1], run[j - 1 + 1], t);
    }
  }
}
