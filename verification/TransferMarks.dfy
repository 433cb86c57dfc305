/** When the mark of a transfer in progress is left behind: a tasklet that keeps it is not recognised
    as dead when its callable returns. */
module TransferMarks {
  import opened Options
  import opened Flags
  import opened Scheduler
  import opened SchedulerInvariant
  import opened SchedulerSteps
  import opened SchedulerEffects
  import opened SchedulerPlacement
  import opened RendezvousSteps
  import opened ChannelSteps

  predicate InHandoff(at: Suspension) {
    at.InSendHandoff? || at.InReceiveHandoff?
  }

  /** Outside channel calls the mark is not set, a handoff has it set, and a tasklet whose callable
      has returned is dead. */
  predicate MarkRecord(x: Tasklet) {
    && (InHandoff(x.at) ==> x.transferring)
    && (!InChannelCall(x.at) ==> !x.transferring)
    && (x.at.Finished? ==> !x.alive)
  }

  ghost predicate Unmarked(s: State) {
    forall t :: t in s.tasklets ==> MarkRecord(s.tasklets[t])
  }

  /** A send that is refused, or a handoff that comes back with an exception. */
  predicate LeavesMark(s: State, a: Action) {
    match a
    case DoSend(c, _) => c in s.channels && Refused(s.channels[c], a)
    case DoSwitch(t) =>
      t in s.tasklets && InHandoff(s.tasklets[t].at) && s.tasklets[t].exception && s.tasklets[t].started
    case DoMainReturn(ok) => !ok && MAIN in s.tasklets && InHandoff(s.tasklets[MAIN].at)
    case _ => false
  }

  // ---- Frames ----

  lemma OneMark(s: State, s': State, t: Tid, x: Tasklet)
    requires Unmarked(s) && s'.tasklets == s.tasklets[t := x]
    ensures Unmarked(s') <==> MarkRecord(x)
  {
    assert s'.tasklets[t] == x;
  }

  lemma TwoMarks(s: State, s': State, t: Tid, x: Tasklet, u: Tid, y: Tasklet)
    requires Unmarked(s) && s'.tasklets == s.tasklets[u := y][t := x] && MarkRecord(x) && MarkRecord(y)
    ensures Unmarked(s')
  {}

  lemma SameMark(x: Tasklet, x': Tasklet)
    requires MarkRecord(x) && x'.at == x.at && x'.transferring == x.transferring && x'.alive == x.alive
    ensures MarkRecord(x')
  {}

  /** What a tasklet in a call looks like when control has been given up. */
  lemma YieldedMark(x: Tasklet, isMain: bool, at: Suspension)
    requires !at.Finished? && (if InChannelCall(at) then x.transferring else !x.transferring)
    ensures MarkRecord(YieldRecord(x, isMain, at))
  {
    assert YieldRecord(x, isMain, at).at == at && YieldRecord(x, isMain, at).transferring == x.transferring;
  }

  // ---- Queue calls ----

  lemma InsertMark(s: State, t: Tid)
    requires Unmarked(s) && t in s.tasklets
    ensures Unmarked(InsertCall(s, t)) && Unmarked(RemoveCall(s, t))
  {
    var x := s.tasklets[t];
    if x.blockedOn.None? && x.alive {
      InsertEffect(s, t);
      SameMark(x, QueuedRecord(x));
      OneMark(s, Insert(s, t), t, QueuedRecord(x));
    }
    if x.scheduled && t in s.queue {
      OneMark(s, Remove(s, t), t, x.(scheduled := false));
    }
  }

  lemma CreateMark(s: State, t: Tid)
    requires Unmarked(s) && t !in s.tasklets
    ensures Unmarked(Create(s, t)) && Unmarked(Spawn(s, t))
  {
    OneMark(s, Create(s, t), t, FRESH);
    InsertEffect(Create(s, t), t);
    OneMark(Create(s, t), Spawn(s, t), t, QueuedRecord(FRESH));
  }

  lemma RunMark(s: State, t: Tid)
    requires Placed(s) && Running(s) && Unmarked(s) && t in s.tasklets && t != MAIN && t != s.current
    ensures Shaped(s) && Unmarked(RunTasklet(s, t))
  {
    PlacedIsShaped(s);
    if s.tasklets[t].alive && s.tasklets[t].blockedOn.None? {
      RunnableMark(s, t);
    }
  }

  lemma RunnableMark(s: State, t: Tid)
    requires Shaped(s) && Running(s) && Unmarked(s) && t in s.tasklets && t != MAIN && t != s.current
    requires s.tasklets[t].alive && s.tasklets[t].blockedOn.None? && (s.tasklets[t].scheduled <==> t in s.queue)
    ensures Unmarked(RunTasklet(s, t))
  {
    var (me, x, y) := (s.current, s.tasklets[s.current], s.tasklets[t]);
    RunEffect(s, t);
    SameMark(y, y.(scheduled := true));
    YieldedMark(x.(reschedule := FrontPlusOne), me == MAIN, InYield);
    TwoMarks(s, RunTasklet(s, t), me, YieldRecord(x.(reschedule := FrontPlusOne), me == MAIN, InYield),
             t, y.(scheduled := true));
  }

  lemma KillMark(s: State, t: Tid)
    requires Placed(s) && Unmarked(s) && t in s.tasklets && t != MAIN
    ensures s.tasklets[t].blockedOn.Some? ==> s.tasklets[t].blockedOn.value in s.channels
    ensures Unmarked(KillPending(s, t))
  {
    var x := s.tasklets[t];
    assert Directed(s, t) && TaskletOk(x, false, t == s.current);
    if x.alive && !x.killPending {
      var x' := x.(scheduled := true, exception := true, reschedule := Stay, killPending := true);
      if x.blockedOn.Some? {
        KillBlockedEffect(s, t, x.blockedOn.value);
        OneMark(s, KillPending(s, t), t, x'.(blockedOn := None, direction := Neither));
      } else {
        KillUnblockedEffect(s, t);
        OneMark(s, KillPending(s, t), t, x');
      }
    }
  }

  lemma QueueMark(s: State, a: Action)
    requires Placed(s) && Allowed(s, a) && IsQueueCall(a) && Unmarked(s)
    ensures Unmarked(QueueAct(s, a))
  {
    match a
    case DoCreate(t) => CreateMark(s, t);
    case DoSpawn(t) => CreateMark(s, t);
    case DoInsert(t) => InsertMark(s, t);
    case DoRemove(t) => InsertMark(s, t);
    case DoRun(t) => RunMark(s, t);
    case DoKill(t) => KillMark(s, t);
  }

  // ---- Transfers ----

  lemma PartnerMarks(y: Tasklet, m: Message)
    requires y.at.InSend? || y.at.InReceive?
    ensures MarkRecord(ReceiverRecord(y, m)) && MarkRecord(SenderRecord(y))
  {
    PartnerFacts(y, m);
  }

  lemma RefusedMark(s: State, c: Cid)
    requires Placed(s) && Running(s) && Unmarked(s) && c in s.channels
    ensures !Unmarked(BeginCall(s)) && Unmarked(ReceiveRefused(s, c))
  {
    var (me, x) := (s.current, s.tasklets[s.current]);
    CurrentReady(s);
    ReceiveRefusedStruct(s, c);
    OneMark(s, BeginCall(s), me, x.(transferring := true));
    OneMark(s, ReceiveRefused(s, c), me, x.(transferring := false));
  }

  lemma SendBlocksMark(s: State, c: Cid, m: Message)
    requires Running(s) && Unmarked(s) && c in s.channels
    ensures Unmarked(SendBlocks(s, c, m))
  {
    var (me, x) := (s.current, s.tasklets[s.current]);
    SendBlocksEffect(s, c, m);
    YieldedMark(ParkedRecord(x, c, Sender, Some(m)), me == MAIN, InSend(c, s.nextCall));
    OneMark(s, SendBlocks(s, c, m), me,
            YieldRecord(ParkedRecord(x, c, Sender, Some(m)), me == MAIN, InSend(c, s.nextCall)));
  }

  lemma ReceiveBlocksMark(s: State, c: Cid)
    requires Running(s) && Unmarked(s) && c in s.channels
    ensures Unmarked(ReceiveBlocks(s, c))
  {
    var (me, x) := (s.current, s.tasklets[s.current]);
    ReceiveBlocksEffect(s, c);
    YieldedMark(ParkedRecord(x, c, Receiver, x.slot), me == MAIN, InReceive(c, s.nextCall));
    OneMark(s, ReceiveBlocks(s, c), me,
            YieldRecord(ParkedRecord(x, c, Receiver, x.slot), me == MAIN, InReceive(c, s.nextCall)));
  }

  lemma SendMatchedMark(s: State, c: Cid, m: Message)
    requires Placed(s) && Running(s) && Unmarked(s) && c in s.channels && s.channels[c].receivers != []
    requires Shaped(s) && s.channels[c].receivers[0] in s.tasklets
    ensures Unmarked(Send(s, c, m))
  {
    WaitingReceiver(s, c);
    var (me, r) := (s.current, s.channels[c].receivers[0]);
    var (x, y) := (s.tasklets[me], s.tasklets[r]);
    PartnerMarks(y, m);
    if s.channels[c].preference == Receiver {
      SendHandsOffEffect(s, c, m);
      var x1 := x.(transferring := true, reschedule := Back);
      YieldedMark(x1, me == MAIN, InSendHandoff(c));
      TwoMarks(s, Send(s, c, m), me, YieldRecord(x1, me == MAIN, InSendHandoff(c)), r, ReceiverRecord(y, m));
    } else {
      SendGoesOnEffect(s, c, m);
      TwoMarks(s, Send(s, c, m), me, x.(transferring := false), r, ReceiverRecord(y, m));
    }
  }

  lemma ReceiveMatchedMark(s: State, c: Cid)
    requires Placed(s) && Running(s) && Unmarked(s) && c in s.channels && s.channels[c].senders != []
    requires Shaped(s) && s.channels[c].senders[0] in s.tasklets
    ensures Unmarked(Receive(s, c))
  {
    WaitingSender(s, c);
    var (me, p) := (s.current, s.channels[c].senders[0]);
    var (x, y) := (s.tasklets[me], s.tasklets[p]);
    PartnerMarks(y, Data(0));
    if s.channels[c].preference == Sender {
      ReceiveHandsOffEffect(s, c);
      var x1 := x.(transferring := true, slot := y.slot, reschedule := Back);
      YieldedMark(x1, me == MAIN, InReceiveHandoff(c, s.nextCall));
      TwoMarks(s, Receive(s, c), me, YieldRecord(x1, me == MAIN, InReceiveHandoff(c, s.nextCall)), p, SenderRecord(y));
    } else {
      ReceiveGoesOnEffect(s, c);
      TwoMarks(s, Receive(s, c), me, x.(transferring := false, slot := None, at := Idle), p, SenderRecord(y));
    }
  }

  lemma TransferMark(s: State, a: Action)
    requires Placed(s) && Allowed(s, a) && IsTransfer(a) && Unmarked(s)
    ensures Unmarked(TransferAct(s, a)) <==> !LeavesMark(s, a)
  {
    PlacedIsShaped(s);
    var ch := s.channels[a.c];
    if a.DoSend? {
      if ch.receivers != [] { SendMatchedMark(s, a.c, a.m); }
      else if ch.closed || ch.closing { RefusedMark(s, a.c); }
      else { SendBlocksMark(s, a.c, a.m); }
    } else {
      if ch.senders != [] { ReceiveMatchedMark(s, a.c); }
      else if ch.closed || ch.closing { RefusedMark(s, a.c); }
      else { ReceiveBlocksMark(s, a.c); }
    }
  }

  // ---- Turns ----

  lemma ScheduleMark(s: State, remove: bool)
    requires Shaped(s) && Running(s) && Unmarked(s)
    ensures Unmarked(Schedule(s, remove))
  {
    var (me, x) := (s.current, s.tasklets[s.current]);
    var x' := if remove then x.(tagged := true) else x.(reschedule := Back);
    ScheduleEffect(s, remove);
    YieldedMark(x', me == MAIN, InYield);
    OneMark(s, Schedule(s, remove), me, YieldRecord(x', me == MAIN, InYield));
  }

  /** A tasklet with no mark, no request to come back and nowhere to wait is dead when it ends. */
  lemma EndedMark(x: Tasklet)
    requires MarkRecord(x) && !InChannelCall(x.at) && x.blockedOn.None? && x.reschedule == Stay && !x.tagged
    ensures MarkRecord(EndRecord(x.(at := Finished)))
  {}

  lemma FinishMark(s: State)
    requires Placed(s) && s.current != MAIN && Unmarked(s)
    ensures Unmarked(Finish(s))
  {
    var (me, x) := (s.current, s.tasklets[s.current]);
    assert TaskletOk(x, false, true);
    EndedMark(x);
    FinishEffect(s);
    OneMark(s, Finish(s), me, EndRecord(x.(at := Finished)));
  }

  /** After a call the mark is cleared, unless the call was a handoff that failed. */
  lemma ResumedMark(x: Tasklet, y: Tasklet, ok: bool)
    requires MarkRecord(x) && y.at == x.at && y.transferring == x.transferring && y.alive == x.alive
    ensures MarkRecord(ResumeRecord(y, ok)) <==> !(InHandoff(x.at) && !ok)
  {
    match y.at
    case InSend(_, _) =>
    case InReceive(_, _) =>
    case InSendHandoff(_) =>
    case InReceiveHandoff(_, _) =>
    case _ =>
  }

  lemma StillbornMark(s: State, t: Tid)
    requires t in s.tasklets && !s.tasklets[t].started && s.tasklets[t].exception && Unmarked(s)
    requires !InChannelCall(s.tasklets[t].at)
    ensures Unmarked(Switch(s, t))
  {
    var x := s.tasklets[t].(alive := false, at := Finished);
    StillbornEffect(s, t);
    assert EndRecord(x).at == Finished && !EndRecord(x).alive && EndRecord(x).transferring == x.transferring;
    OneMark(s, Switch(s, t), t, EndRecord(x));
  }

  lemma SwitchMark(s: State, t: Tid)
    requires Placed(s) && t in s.queue && t != MAIN && s.current == MAIN && Unmarked(s)
    ensures t in s.tasklets && (InChannelCall(s.tasklets[t].at) ==> s.tasklets[t].at.c in s.channels)
    ensures Unmarked(Switch(s, t)) <==> !LeavesMark(s, DoSwitch(t))
  {
    Switchable(s, t);
    var x := s.tasklets[t];
    if !x.started && x.exception {
      StillbornMark(s, t);
    } else {
      var y := x.(started := true, exception := false);
      SwitchEffect(s, t);
      ResumedMark(x, y, !x.exception);
      OneMark(s, Switch(s, t), t, ResumeRecord(y, !x.exception));
    }
  }

  lemma MainReturnMark(s: State, ok: bool)
    requires Placed(s) && s.current == MAIN && (ok ==> s.tasklets[MAIN].blockedOn.None?) && Unmarked(s)
    ensures InChannelCall(s.tasklets[MAIN].at) ==> s.tasklets[MAIN].at.c in s.channels
    ensures Unmarked(Resume(s, MAIN, ok)) <==> !LeavesMark(s, DoMainReturn(ok))
  {
    ResumeEffect(s, MAIN, ok);
    ResumedMark(s.tasklets[MAIN], s.tasklets[MAIN], ok);
    OneMark(s, Resume(s, MAIN, ok), MAIN, ResumeRecord(s.tasklets[MAIN], ok));
  }

  lemma LoopMark(s: State, a: Action)
    requires Placed(s) && Allowed(s, a) && !IsQueueCall(a) && !IsTransfer(a) && !IsChannelCall(a) && Unmarked(s)
    ensures Unmarked(LoopAct(s, a)) <==> !LeavesMark(s, a)
  {
    PlacedIsShaped(s);
    match a
    case DoSchedule => ScheduleMark(s, false);
    case DoScheduleRemove => ScheduleMark(s, true);
    case DoFinish => FinishMark(s);
    case DoSwitch(t) => SwitchMark(s, t);
    case DoMainReturn(ok) => MainReturnMark(s, ok);
  }

  /** A step leaves no stray mark exactly when it is neither a refused send nor a handoff that comes
      back with an exception. */
  lemma MarksClearUnless(s: State, a: Action)
    requires Placed(s) && Allowed(s, a) && Unmarked(s)
    ensures Unmarked(Act(s, a)) <==> !LeavesMark(s, a)
  {
    if IsQueueCall(a) { QueueMark(s, a); }
    else if IsTransfer(a) { TransferMark(s, a); }
    else if IsChannelCall(a) { assert Act(s, a).tasklets == s.tasklets; }
    else { LoopMark(s, a); }
  }

  // ---- What a stray mark does ----

  lemma RefusedSendMarks(s: State, c: Cid, m: Message)
    requires Placed(s) && Running(s) && c in s.channels && Refused(s.channels[c], DoSend(c, m))
    ensures var s' := Act(s, DoSend(c, m));
            s'.current == s.current && Running(s') && s'.tasklets[s.current].transferring
  {}

  lemma FailedHandoffMarks(s: State, t: Tid)
    requires Placed(s) && Unmarked(s) && Allowed(s, DoSwitch(t)) && LeavesMark(s, DoSwitch(t))
    ensures var s' := Act(s, DoSwitch(t));
            s'.current == t && Running(s') && s'.tasklets[t].transferring
  {
    Switchable(s, t);
    SwitchEffect(s, t);
  }

  /** A tasklet that finishes with its mark set stays alive. */
  lemma MarkedSurvives(s: State)
    requires Placed(s) && Running(s) && s.current != MAIN && s.tasklets[s.current].transferring
    ensures Allowed(s, DoFinish)
    ensures var x := Act(s, DoFinish).tasklets[s.current]; x.at == Finished && x.alive
  {
    CurrentReady(s);
    FinishEffect(s);
  }

  /** A refused send, or a handoff that comes back with an exception, and then the end of the
      callable: the tasklet has finished and is still alive. */
  lemma FinishedButAlive(s: State, a: Action)
    requires Placed(s) && Unmarked(s) && Allowed(s, a) && LeavesMark(s, a)
    requires a.DoSwitch? || (a.DoSend? && s.current != MAIN)
    ensures var s' := Act(s, a);
            && Allowed(s', DoFinish)
            && var x := Act(s', DoFinish).tasklets[s'.current]; x.at == Finished && x.alive
  {
    if a.DoSend? { RefusedSendMarks(s, a.c, a.m); } else { FailedHandoffMarks(s, a.t); }
    MarkedSurvives(Act(s, a));
  }
}
