/** A concrete run, as evidence that the theorems speak of something. */
module SchedulerExample {
  import opened Options
  import opened Flags
  import opened Lists
  import opened Scheduler
  import opened SchedulerInvariant
  import opened SchedulerEffects
  import opened SchedulerPlacement

  const WORKER: Tasklet := FRESH.(scheduled := true)
  const CHANNEL: Channel := NEW_CHANNEL.(receivers := [MAIN], balance := -1, receives := [0])
  const IDLE_MAIN: Tasklet := FRESH.(scheduled := true, started := true)
  const BLOCKED_MAIN: Tasklet :=
    IDLE_MAIN.(transferring := true, blockedOn := Some(0), direction := Receiver, at := InReceive(0, 0))
  const READY_MAIN: Tasklet := IDLE_MAIN.(transferring := true, slot := Some(Data(7)), reschedule := Back,
                                          at := InReceive(0, 0))
  const MET: Channel := NEW_CHANNEL.(receives := [0], sends := [SendCall(1, Data(7))])

  const S1: State := INITIAL.(channels := map[0 := NEW_CHANNEL])
  const S2: State := S1.(tasklets := map[MAIN := IDLE_MAIN, 1 := WORKER], queue := [MAIN, 1])
  const S3: State := S2.(tasklets := map[MAIN := BLOCKED_MAIN, 1 := WORKER], channels := map[0 := CHANNEL],
                         nextCall := 1)
  const S4: State := S3.(tasklets := map[MAIN := BLOCKED_MAIN, 1 := WORKER.(started := true)], current := 1)
  const S5: State := S4.(tasklets := map[MAIN := READY_MAIN,
                                         1 := WORKER.(started := true, transferring := true, at := InSendHandoff(0))],
                         channels := map[0 := MET], current := MAIN, nextCall := 2)
  const S6: State := S5.(tasklets := S5.tasklets[MAIN := IDLE_MAIN.(reschedule := Back)],
                         outcomes := map[0 := Got(Data(7))])

  lemma Prepared()
    ensures Placed(INITIAL) && Allowed(INITIAL, DoNewChannel(0)) && Act(INITIAL, DoNewChannel(0)) == S1
    ensures Placed(S1) && Allowed(S1, DoSpawn(1)) && Act(S1, DoSpawn(1)) == S2
  {
    InitialPlaced();
    assert NewChannel(INITIAL, 0) == S1;
    assert Spawn(S1, 1) == S2;
  }

  lemma MainBlocks()
    requires Placed(S2)
    ensures Allowed(S2, DoReceive(0)) && Act(S2, DoReceive(0)) == S3
  {
    PlacedIsShaped(S2);
    ReceiveBlocksEffect(S2, 0);
    assert YieldRecord(ParkedRecord(IDLE_MAIN, 0, Receiver, None), true, InReceive(0, 0)) == BLOCKED_MAIN;
    assert S2.tasklets[MAIN := BLOCKED_MAIN] == S3.tasklets;
    assert WithReceiver(NEW_CHANNEL, MAIN, 0) == CHANNEL;
    assert S2.channels[0 := CHANNEL] == S3.channels;
  }

  lemma WorkerStarts()
    requires Placed(S3)
    ensures Allowed(S3, DoSwitch(1)) && Act(S3, DoSwitch(1)) == S4
  {
    assert Switch(S3, 1) == S4;
  }

  lemma WorkerRecord()
    ensures YieldRecord(WORKER.(started := true, transferring := true, reschedule := Back), false, InSendHandoff(0))
         == WORKER.(started := true, transferring := true, at := InSendHandoff(0))
    ensures ReceiverRecord(BLOCKED_MAIN, Data(7)) == READY_MAIN
  {}

  lemma WorkerMeets()
    ensures MatchedChannel(LoggedSend(CHANNEL, 1, Data(7)), MAIN, Receiver) == MET
    ensures AfterTurn([MAIN, 1], 1, Back) == [MAIN, 1]
  {
    WithoutAt([MAIN], 0);
    WithoutAt([MAIN, 1], 1);
  }

  lemma WorkerSends()
    requires Placed(S4)
    ensures Allowed(S4, DoSend(0, Data(7))) && Act(S4, DoSend(0, Data(7))) == S5
  {
    PlacedIsShaped(S4);
    assert Send(S4, 0, Data(7)) == S5 by { SendIsS5(); }
  }

  lemma SendIsS5()
    requires Shaped(S4)
    ensures Send(S4, 0, Data(7)) == S5
  {
    SendHandsOffEffect(S4, 0, Data(7));
    WorkerRecord();
    WorkerMeets();
    var x := WORKER.(started := true, transferring := true, reschedule := Back);
    assert S4.tasklets[MAIN := READY_MAIN][1 := YieldRecord(x, false, InSendHandoff(0))] == S5.tasklets;
    assert S4.channels[0 := MET] == S5.channels;
  }

  lemma MainReceives()
    requires Placed(S5)
    ensures Allowed(S5, DoMainReturn(true)) && Act(S5, DoMainReturn(true)) == S6
  {
    ResumeEffect(S5, MAIN, true);
    assert S5.channels[0 := MET] == S5.channels;
    assert Resume(S5, MAIN, true) == S6;
  }

  lemma ChainOne(run: seq<State>, log: seq<Action>, s: State, a: Action, s': State)
    requires IsRun(run, log) && run[|run| - 1] == s && Placed(s) && Allowed(s, a) && s' == Act(s, a)
    ensures IsRun(run + [s'], log + [a])
  {
    assert (run + [s'])[..|run|] == run && (log + [a])[..|log|] == log;
  }

  /** There is a run in which the main tasklet blocks in a receive, a worker is switched to, sends,
      and the receive returns the message. */
  lemma MessageArrives() returns (run: seq<State>, log: seq<Action>)
    ensures IsRun(run, log) && run[|run| - 1].outcomes == map[0 := Got(Data(7))]
  {
    Prepared();
    run, log := [INITIAL], [];
    ChainOne(run, log, INITIAL, DoNewChannel(0), S1);
    run, log := run + [S1], log + [DoNewChannel(0)];
    ChainOne(run, log, S1, DoSpawn(1), S2);
    run, log := run + [S2], log + [DoSpawn(1)];
    run, log := Transfer(run, log);
  }

  lemma Transfer(run: seq<State>, log: seq<Action>) returns (run': seq<State>, log': seq<Action>)
    requires IsRun(run, log) && run[|run| - 1] == S2 && Placed(S2)
    ensures IsRun(run', log') && run'[|run'| - 1] == S6
  {
    MainBlocks();
    ChainOne(run, log, S2, DoReceive(0), S3);
    run', log' := run + [S3], log + [DoReceive(0)];
    WorkerStarts();
    ChainOne(run', log', S3, DoSwitch(1), S4);
    run', log' := run' + [S4], log' + [DoSwitch(1)];
    WorkerSends();
    ChainOne(run', log', S4, DoSend(0, Data(7)), S5);
    run', log' := run' + [S5], log' + [DoSend(0, Data(7))];
    MainReceives();
    ChainOne(run', log', S5, DoMainReturn(true), S6);
    run', log' := run' + [S6], log' + [DoMainReturn(true)];
  }
}
