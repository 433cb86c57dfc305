/** A concrete run in which a message is put into a transfer slot that is still full. */
module LeakExample {
  import opened Options
  import opened Flags
  import opened Lists
  import opened Scheduler
  import opened SchedulerInvariant
  import opened SchedulerEffects
  import opened SchedulerPlacement
  import opened SchedulerExample
  import opened SchedulerTheorems

  const PREFERS: Channel := NEW_CHANNEL.(preference := Sender)
  const WAITING: Channel := PREFERS.(senders := [1], balance := 1, sends := [SendCall(0, Data(7))])
  const DRAINED: Channel := PREFERS.(sends := [SendCall(0, Data(7))], receives := [1])

  const YIELDED_MAIN: Tasklet := IDLE_MAIN.(reschedule := Back, at := InYield)
  const STARTED: Tasklet := WORKER.(started := true)
  const BLOCKED: Tasklet :=
    STARTED.(scheduled := false, transferring := true, blockedOn := Some(0), direction := Sender,
             slot := Some(Data(7)), at := InSend(0, 0))
  const RELEASED: Tasklet := STARTED.(at := InSend(0, 0))
  const HANDED: Tasklet := STARTED.(transferring := true, slot := Some(Data(7)), at := InReceiveHandoff(0, 1))
  const KILLED: Tasklet := HANDED.(exception := true, killPending := true)
  const LEAKED: Tasklet := HANDED.(killPending := true, at := Idle)
  const DEAD: Tasklet := STARTED.(alive := false, scheduled := false, at := Finished)

  function Three(main: Tasklet, one: Tasklet, two: Tasklet): map<Tid, Tasklet> {
    map[MAIN := main, 1 := one, 2 := two]
  }

  const L1: State := INITIAL.(channels := map[0 := NEW_CHANNEL])
  const L2: State := INITIAL.(channels := map[0 := PREFERS])
  const L3: State := L2.(tasklets := map[MAIN := IDLE_MAIN, 1 := WORKER], queue := [MAIN, 1])
  const L4: State := L2.(tasklets := Three(IDLE_MAIN, WORKER, WORKER), queue := [MAIN, 1, 2])
  const L5: State := L4.(tasklets := Three(YIELDED_MAIN, WORKER, WORKER))
  const L6: State := L5.(tasklets := Three(YIELDED_MAIN, STARTED, WORKER), current := 1)
  const L7: State := L5.(tasklets := Three(YIELDED_MAIN, BLOCKED, WORKER), queue := [MAIN, 2],
                         channels := map[0 := WAITING], nextCall := 1)
  const L8: State := L7.(tasklets := Three(YIELDED_MAIN, BLOCKED, STARTED), current := 2)
  const L9: State := L7.(tasklets := Three(YIELDED_MAIN, RELEASED, HANDED), queue := [MAIN, 1, 2],
                         channels := map[0 := DRAINED], nextCall := 2)
  const L10: State := L9.(tasklets := Three(YIELDED_MAIN, STARTED, HANDED), current := 1)
  const L11: State := L9.(tasklets := Three(YIELDED_MAIN, STARTED, KILLED), current := 1)
  const L12: State := L9.(tasklets := Three(YIELDED_MAIN, DEAD, KILLED), queue := [MAIN, 2])
  const L13: State := L12.(tasklets := Three(YIELDED_MAIN, DEAD, LEAKED), current := 2, outcomes := map[1 := Lost])

  lemma Opened()
    requires Placed(INITIAL)
    ensures Allowed(INITIAL, DoNewChannel(0)) && Act(INITIAL, DoNewChannel(0)) == L1
    ensures Placed(L1) && Allowed(L1, DoPrefer(0, Sender)) && Act(L1, DoPrefer(0, Sender)) == L2
  {
    assert NewChannel(INITIAL, 0) == L1;
    assert Prefer(L1, 0, Sender) == L2;
  }

  lemma Spawned()
    requires Placed(L2)
    ensures Allowed(L2, DoSpawn(1)) && Act(L2, DoSpawn(1)) == L3
    ensures Placed(L3) && Allowed(L3, DoSpawn(2)) && Act(L3, DoSpawn(2)) == L4
  {
    assert Spawn(L2, 1) == L3;
    assert Spawn(L3, 2) == L4;
  }

  lemma MainYields()
    requires Placed(L4)
    ensures Allowed(L4, DoSchedule) && Act(L4, DoSchedule) == L5
  {
    PlacedIsShaped(L4);
    ScheduleEffect(L4, false);
    assert L4.tasklets[MAIN := YIELDED_MAIN] == L5.tasklets;
  }

  lemma SenderStarts()
    requires Placed(L5)
    ensures Allowed(L5, DoSwitch(1)) && Act(L5, DoSwitch(1)) == L6
  {
    SwitchEffect(L5, 1);
    assert L5.tasklets[1 := STARTED] == L6.tasklets;
  }

  lemma SenderBlocks()
    requires Placed(L6)
    ensures Allowed(L6, DoSend(0, Data(7))) && Act(L6, DoSend(0, Data(7))) == L7
  {
    PlacedIsShaped(L6);
    assert Send(L6, 0, Data(7)) == L7 by { SendIsL7(); }
  }

  lemma SendIsL7()
    requires Shaped(L6)
    ensures Send(L6, 0, Data(7)) == L7
  {
    SendBlocksEffect(L6, 0, Data(7));
    BlockedRecord();
    assert L6.tasklets[1 := BLOCKED] == L7.tasklets;
    assert L6.channels[0 := WAITING] == L7.channels;
  }

  lemma BlockedRecord()
    ensures YieldRecord(ParkedRecord(STARTED, 0, Sender, Some(Data(7))), false, InSend(0, 0)) == BLOCKED
    ensures WithSender(PREFERS, 1, 0, Data(7)) == WAITING
    ensures YieldQueue([MAIN, 1, 2], 1, Stay) == [MAIN, 2]
  {
    WithoutAt([MAIN, 1, 2], 1);
  }

  lemma ReceiverStarts()
    requires Placed(L7)
    ensures Allowed(L7, DoSwitch(2)) && Act(L7, DoSwitch(2)) == L8
  {
    SwitchEffect(L7, 2);
    assert L7.tasklets[2 := STARTED] == L8.tasklets;
  }

  lemma HandedRecord()
    ensures YieldRecord(STARTED.(transferring := true, slot := Some(Data(7)), reschedule := Back), false,
                        InReceiveHandoff(0, 1))
         == HANDED
    ensures SenderRecord(BLOCKED) == RELEASED
  {}

  lemma HandedQueue()
    ensures 2 in [MAIN, 2] && YieldQueue(NextQueue([MAIN, 2], 2, 1, false), 2, Back) == [MAIN, 1, 2]
    ensures MatchedChannel(LoggedReceive(WAITING, 1), 1, Sender) == DRAINED
  {
    IndexUnique([MAIN, 2], 1);
    assert InsertAfter([MAIN, 2], 2, 1) == [MAIN, 2, 1];
    WithoutAt([MAIN, 2, 1], 1);
    WithoutAt([1], 0);
  }

  lemma ReceiverHandsOff()
    requires Placed(L8)
    ensures Allowed(L8, DoReceive(0)) && Act(L8, DoReceive(0)) == L9
  {
    PlacedIsShaped(L8);
    assert Receive(L8, 0) == L9 by { ReceiveIsL9(); }
  }

  lemma ReceiveIsL9()
    requires Shaped(L8)
    ensures Receive(L8, 0) == L9
  {
    ReceiveHandsOffEffect(L8, 0);
    HandedRecord();
    HandedQueue();
    assert L8.tasklets[1 := RELEASED][2 := HANDED] == L9.tasklets;
    assert L8.channels[0 := DRAINED] == L9.channels;
  }

  lemma SenderResumes()
    requires Placed(L9)
    ensures Allowed(L9, DoSwitch(1)) && Act(L9, DoSwitch(1)) == L10
  {
    SwitchEffect(L9, 1);
    assert L9.tasklets[1 := STARTED] == L10.tasklets;
    assert L9.channels[0 := DRAINED] == L10.channels;
  }

  lemma SenderKills()
    requires Placed(L10)
    ensures Allowed(L10, DoKill(2)) && Act(L10, DoKill(2)) == L11
  {
    KillUnblockedEffect(L10, 2);
    assert L10.tasklets[2 := KILLED] == L11.tasklets;
  }

  lemma SenderEnds()
    requires Placed(L11)
    ensures Allowed(L11, DoFinish) && Act(L11, DoFinish) == L12
  {
    assert Finish(L11) == L12 by { FinishIsL12(); }
  }

  lemma FinishIsL12()
    ensures Finish(L11) == L12
  {
    FinishEffect(L11);
    WithoutAt([MAIN, 1, 2], 1);
    assert AfterTurn([MAIN, 1, 2], 1, Stay) == [MAIN, 2];
    assert EndRecord(STARTED.(at := Finished)) == DEAD;
    assert L11.tasklets[1 := DEAD] == L12.tasklets;
  }

  lemma ReceiverComesBack()
    requires Placed(L12)
    ensures Allowed(L12, DoSwitch(2)) && Act(L12, DoSwitch(2)) == L13
  {
    SwitchEffect(L12, 2);
    var y := KILLED.(started := true, exception := false);
    assert ResumeRecord(y, false) == LEAKED;
    assert L12.tasklets[2 := LEAKED] == L13.tasklets;
    assert ResumeChannel(DRAINED, y, 2, false) == DRAINED && L12.channels[0 := DRAINED] == L13.channels;
  }

  lemma FirstHalf() returns (run: seq<State>, log: seq<Action>)
    ensures IsRun(run, log) && run[|run| - 1] == L7 && Placed(L7)
  {
    InitialPlaced();
    run, log := [INITIAL], [];
    Opened();
    ChainOne(run, log, INITIAL, DoNewChannel(0), L1);
    run, log := run + [L1], log + [DoNewChannel(0)];
    ChainOne(run, log, L1, DoPrefer(0, Sender), L2);
    run, log := run + [L2], log + [DoPrefer(0, Sender)];
    run, log := Blocking(run, log);
  }

  lemma Blocking(run: seq<State>, log: seq<Action>) returns (run': seq<State>, log': seq<Action>)
    requires IsRun(run, log) && run[|run| - 1] == L2 && Placed(L2)
    ensures IsRun(run', log') && run'[|run'| - 1] == L7 && Placed(L7)
  {
    Spawned();
    ChainOne(run, log, L2, DoSpawn(1), L3);
    run', log' := run + [L3], log + [DoSpawn(1)];
    ChainOne(run', log', L3, DoSpawn(2), L4);
    run', log' := run' + [L4], log' + [DoSpawn(2)];
    MainYields();
    ChainOne(run', log', L4, DoSchedule, L5);
    run', log' := run' + [L5], log' + [DoSchedule];
    SenderStarts();
    ChainOne(run', log', L5, DoSwitch(1), L6);
    run', log' := run' + [L6], log' + [DoSwitch(1)];
    SenderBlocks();
    ChainOne(run', log', L6, DoSend(0, Data(7)), L7);
    run', log' := run' + [L7], log' + [DoSend(0, Data(7))];
  }

  lemma SecondHalf(run: seq<State>, log: seq<Action>) returns (run': seq<State>, log': seq<Action>)
    requires IsRun(run, log) && run[|run| - 1] == L7 && Placed(L7)
    ensures IsRun(run', log') && run'[|run'| - 1] == L11 && Placed(L11)
  {
    ReceiverStarts();
    ChainOne(run, log, L7, DoSwitch(2), L8);
    run', log' := run + [L8], log + [DoSwitch(2)];
    ReceiverHandsOff();
    ChainOne(run', log', L8, DoReceive(0), L9);
    run', log' := run' + [L9], log' + [DoReceive(0)];
    SenderResumes();
    ChainOne(run', log', L9, DoSwitch(1), L10);
    run', log' := run' + [L10], log' + [DoSwitch(1)];
    SenderKills();
    ChainOne(run', log', L10, DoKill(2), L11);
    run', log' := run' + [L11], log' + [DoKill(2)];
  }

  lemma ThirdPart(run: seq<State>, log: seq<Action>) returns (run': seq<State>, log': seq<Action>)
    requires IsRun(run, log) && run[|run| - 1] == L11 && Placed(L11)
    ensures IsRun(run', log') && run'[|run'| - 1] == L13 && Placed(L13)
  {
    SenderEnds();
    ChainOne(run, log, L11, DoFinish, L12);
    run', log' := run + [L12], log + [DoFinish];
    ReceiverComesBack();
    ChainOne(run', log', L12, DoSwitch(2), L13);
    run', log' := run' + [L13], log' + [DoSwitch(2)];
  }

  lemma ReceiverSends()
    ensures L13.current == 2 && L13.tasklets[2].slot == Some(Data(7)) && Running(L13) && 0 in L13.channels
    ensures SlotFilledBy(L13, DoSend(0, Data(8))) == Some(2)
  {}

  /** There is a run in which a receiver is matched under sender preference, is killed before it
      resumes, comes back, and then sends: the message goes into a slot that still holds another. */
  lemma FullSlotIsFilled() returns (run: seq<State>, log: seq<Action>, k: nat)
    ensures IsRun(run, log) && k < |log|
    ensures SlotFilledBy(run[k], log[k]) == Some(2) && 2 in run[k].tasklets && run[k].tasklets[2].slot.Some?
  {
    run, log := FirstHalf();
    run, log := SecondHalf(run, log);
    run, log := ThirdPart(run, log);
    ReceiverSends();
    k := |log|;
    run, log := LastStep(run, log, L13, DoSend(0, Data(8)));
  }

  lemma LastStep(run: seq<State>, log: seq<Action>, s: State, a: Action) returns (run': seq<State>, log': seq<Action>)
    requires IsRun(run, log) && run[|run| - 1] == s && Placed(s) && Allowed(s, a)
    ensures IsRun(run', log') && |log'| == |log| + 1 && run'[|log|] == s && log'[|log|] == a
  {
    ChainOne(run, log, s, a, Act(s, a));
    run', log' := run + [Act(s, a)], log + [a];
  }
}
