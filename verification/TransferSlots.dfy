/** The transfer slot is empty whenever a message is put into it, except after one kind of
    interruption, and no receive loses a message unless it is interrupted after its arrival. */
module TransferSlots {
  import opened Options
  import opened Flags
  import opened Scheduler
  import opened SchedulerInvariant
  import opened SchedulerSteps
  import opened SchedulerEffects
  import opened SchedulerPlacement
  import opened Rendezvous
  import opened RendezvousSteps

  /** The slot holds a message only for a sender that is blocked, or was killed while blocked, and
      for a receiver whose message has arrived. */
  predicate CleanSlot(x: Tasklet) {
    match x.at
    case InSend(_, _) => x.slot.Some? && x.blockedOn.None? ==> x.exception
    case InReceive(_, _) => x.blockedOn.Some? ==> x.slot.None?
    case InReceiveHandoff(_, _) => true
    case _ => x.slot.None?
  }

  /** With `gentle`, no receiver is killed between the arrival of its message and its return. */
  predicate TidyRecord(x: Tasklet, gentle: bool) {
    CleanSlot(x) && (gentle && Arrived(x) ==> !x.exception)
  }

  ghost predicate Tidy(s: State, gentle: bool) {
    && (forall t :: t in s.tasklets ==> TidyRecord(s.tasklets[t], gentle))
    && (gentle ==> forall k :: k in s.outcomes ==> s.outcomes[k] != Lost)
  }

  /** A receive that was matched under sender preference comes back with an exception. */
  predicate Leaks(s: State, a: Action) {
    match a
    case DoSwitch(t) =>
      t in s.tasklets && s.tasklets[t].at.InReceiveHandoff? && s.tasklets[t].exception && s.tasklets[t].started
    case DoMainReturn(ok) => !ok && MAIN in s.tasklets && s.tasklets[MAIN].at.InReceiveHandoff?
    case _ => false
  }

  /** Interruptions hit only tasklets whose message has not arrived. */
  predicate Gentle(s: State, a: Action) {
    match a
    case DoKill(t) => t in s.tasklets ==> !Arrived(s.tasklets[t])
    case DoMainReturn(ok) => !ok && MAIN in s.tasklets ==> !Arrived(s.tasklets[MAIN])
    case _ => true
  }

  // ---- Frames ----

  lemma OneTidy(s: State, s': State, t: Tid, x': Tasklet, g: bool)
    requires Tidy(s, g) && s'.tasklets == s.tasklets[t := x'] && s'.outcomes == s.outcomes && TidyRecord(x', g)
    ensures Tidy(s', g)
  {}

  lemma TwoTidy(s: State, s': State, t: Tid, x': Tasklet, u: Tid, y': Tasklet, g: bool)
    requires Tidy(s, g) && s'.tasklets == s.tasklets[u := y'][t := x'] && s'.outcomes == s.outcomes
    requires TidyRecord(x', g) && TidyRecord(y', g)
    ensures Tidy(s', g)
  {}

  /** A tasklet that is in no call and holds nothing. */
  lemma PlainTidy(x: Tasklet, g: bool)
    requires !HasCall(x.at) && x.slot.None?
    ensures TidyRecord(x, g)
  {}

  lemma PlainSlot(x: Tasklet)
    requires CleanSlot(x) && !HasCall(x.at)
    ensures x.slot.None?
  {}

  // ---- Queue calls ----

  /** The same call, the same slot, and no new exception. */
  lemma KeptTidy(x: Tasklet, x': Tasklet, g: bool)
    requires TidyRecord(x, g) && x'.at == x.at && x'.slot == x.slot && x'.blockedOn == x.blockedOn
    requires x'.exception == x.exception
    ensures TidyRecord(x', g)
  {}

  lemma CreateTidy(s: State, t: Tid, g: bool)
    requires Tidy(s, g) && t !in s.tasklets
    ensures Tidy(Create(s, t), g) && Tidy(Spawn(s, t), g)
  {
    OneTidy(s, Create(s, t), t, FRESH, g);
    InsertEffect(Create(s, t), t);
    OneTidy(Create(s, t), Spawn(s, t), t, QueuedRecord(FRESH), g);
  }

  lemma InsertTidy(s: State, t: Tid, g: bool)
    requires Tidy(s, g) && t in s.tasklets
    ensures Tidy(InsertCall(s, t), g)
  {
    var x := s.tasklets[t];
    if x.blockedOn.None? && x.alive {
      InsertEffect(s, t);
      KeptTidy(x, QueuedRecord(x), g);
      OneTidy(s, Insert(s, t), t, QueuedRecord(x), g);
    }
  }

  lemma RemoveTidy(s: State, t: Tid, g: bool)
    requires Tidy(s, g) && t in s.tasklets
    ensures Tidy(RemoveCall(s, t), g)
  {
    var x := s.tasklets[t];
    if x.scheduled && t in s.queue {
      KeptTidy(x, x.(scheduled := false), g);
      OneTidy(s, Remove(s, t), t, x.(scheduled := false), g);
    }
  }

  lemma YieldTidy(x: Tasklet, x': Tasklet, isMain: bool, g: bool)
    requires CleanSlot(x) && x.at == Idle && x'.slot == x.slot
    ensures TidyRecord(YieldRecord(x', isMain, InYield), g)
  {
    PlainSlot(x);
    YieldedFacts(x', isMain, InYield);
    PlainTidy(YieldRecord(x', isMain, InYield), g);
  }

  lemma RunTidy(s: State, t: Tid, g: bool)
    requires Placed(s) && Running(s) && Tidy(s, g) && t in s.tasklets && t != MAIN && t != s.current
    ensures Shaped(s) && Tidy(RunTasklet(s, t), g)
  {
    PlacedIsShaped(s);
    var (me, x, y) := (s.current, s.tasklets[s.current], s.tasklets[t]);
    if y.alive && y.blockedOn.None? {
      RunEffect(s, t);
      KeptTidy(y, y.(scheduled := true), g);
      YieldTidy(x, x.(reschedule := FrontPlusOne), me == MAIN, g);
      TwoTidy(s, RunTasklet(s, t), me, YieldRecord(x.(reschedule := FrontPlusOne), me == MAIN, InYield), t,
              y.(scheduled := true), g);
    }
  }

  lemma KilledTidy(x: Tasklet, x': Tasklet, g: bool)
    requires TidyRecord(x, g) && (g ==> !Arrived(x)) && SlotOk(x)
    requires x'.at == x.at && x'.slot == x.slot && x'.blockedOn.None? && x'.exception
    ensures TidyRecord(x', g)
  {}

  lemma KillTidy(s: State, t: Tid, g: bool)
    requires Placed(s) && Tidy(s, g) && t in s.tasklets && t != MAIN && (g ==> !Arrived(s.tasklets[t]))
    ensures s.tasklets[t].blockedOn.Some? ==> s.tasklets[t].blockedOn.value in s.channels
    ensures Tidy(KillPending(s, t), g)
  {
    var x := s.tasklets[t];
    assert Directed(s, t) && TaskletOk(x, false, t == s.current);
    if x.alive && !x.killPending {
      if x.blockedOn.Some? {
        var x' := x.(blockedOn := None, scheduled := true, direction := Neither, exception := true,
                     reschedule := Stay, killPending := true);
        KillBlockedEffect(s, t, x.blockedOn.value);
        KilledTidy(x, x', g);
        OneTidy(s, KillPending(s, t), t, x', g);
      } else {
        var x' := x.(scheduled := true, exception := true, reschedule := Stay, killPending := true);
        KillUnblockedEffect(s, t);
        KilledTidy(x, x', g);
        OneTidy(s, KillPending(s, t), t, x', g);
      }
    }
  }

  lemma QueueTidy(s: State, a: Action, g: bool)
    requires Placed(s) && Allowed(s, a) && IsQueueCall(a) && Tidy(s, g) && (g ==> Gentle(s, a))
    ensures Tidy(QueueAct(s, a), g)
  {
    match a
    case DoCreate(t) => CreateTidy(s, t, g);
    case DoSpawn(t) => CreateTidy(s, t, g);
    case DoInsert(t) => InsertTidy(s, t, g);
    case DoRemove(t) => RemoveTidy(s, t, g);
    case DoRun(t) => RunTidy(s, t, g);
    case DoKill(t) => KillTidy(s, t, g);
  }

  // ---- Transfers ----

  lemma RefusedTidy(s: State, c: Cid, g: bool)
    requires Placed(s) && Running(s) && Tidy(s, g) && c in s.channels
    ensures Tidy(BeginCall(s), g) && Tidy(ReceiveRefused(s, c), g)
  {
    var (me, x) := (s.current, s.tasklets[s.current]);
    CurrentReady(s);
    ReceiveRefusedStruct(s, c);
    KeptTidy(x, x.(transferring := true), g);
    KeptTidy(x, x.(transferring := false), g);
    OneTidy(s, BeginCall(s), me, x.(transferring := true), g);
    OneTidy(s, ReceiveRefused(s, c), me, x.(transferring := false), g);
  }

  lemma ParkedTidy(x: Tasklet, isMain: bool, c: Cid, call: Call, m: Message, g: bool)
    requires x.slot.None? && !x.exception && (!isMain ==> x.reschedule == Stay)
    ensures TidyRecord(YieldRecord(ParkedRecord(x, c, Sender, Some(m)), isMain, InSend(c, call)), g)
    ensures TidyRecord(YieldRecord(ParkedRecord(x, c, Receiver, x.slot), isMain, InReceive(c, call)), g)
  {}

  lemma BlocksTidy(s: State, c: Cid, m: Message, g: bool)
    requires Placed(s) && Running(s) && Tidy(s, g) && c in s.channels
    ensures Tidy(SendBlocks(s, c, m), g) && Tidy(ReceiveBlocks(s, c), g)
  {
    var (me, x) := (s.current, s.tasklets[s.current]);
    CurrentReady(s);
    PlainSlot(x);
    ParkedTidy(x, me == MAIN, c, s.nextCall, m, g);
    SendBlocksEffect(s, c, m);
    OneTidy(s, SendBlocks(s, c, m), me,
            YieldRecord(ParkedRecord(x, c, Sender, Some(m)), me == MAIN, InSend(c, s.nextCall)), g);
    ReceiveBlocksEffect(s, c);
    OneTidy(s, ReceiveBlocks(s, c), me,
            YieldRecord(ParkedRecord(x, c, Receiver, x.slot), me == MAIN, InReceive(c, s.nextCall)), g);
  }

  lemma PartnersTidy(y: Tasklet, m: Message, g: bool)
    requires !y.exception
    ensures y.at.InReceive? ==> TidyRecord(ReceiverRecord(y, m), g)
    ensures y.at.InSend? ==> TidyRecord(SenderRecord(y), g)
  {}

  lemma CallersTidy(x: Tasklet, isMain: bool, c: Cid, call: Call, slot: Option<Message>, g: bool)
    requires x.slot.None? && !x.exception && !HasCall(x.at)
    ensures TidyRecord(x.(transferring := false), g)
    ensures TidyRecord(x.(transferring := false, slot := None, at := Idle), g)
    ensures TidyRecord(YieldRecord(x.(transferring := true, reschedule := Back), isMain, InSendHandoff(c)), g)
    ensures TidyRecord(YieldRecord(x.(transferring := true, slot := slot, reschedule := Back), isMain,
                                   InReceiveHandoff(c, call)), g)
  {}

  lemma SendMatchedTidy(s: State, c: Cid, m: Message, g: bool)
    requires Placed(s) && Running(s) && Tidy(s, g) && c in s.channels && s.channels[c].receivers != []
    requires Shaped(s) && s.channels[c].receivers[0] in s.tasklets
    ensures Tidy(Send(s, c, m), g)
  {
    CurrentReady(s);
    WaitingReceiver(s, c);
    var (me, r) := (s.current, s.channels[c].receivers[0]);
    var (x, y) := (s.tasklets[me], s.tasklets[r]);
    assert TaskletOk(y, r == MAIN, false);
    PlainSlot(x);
    PartnersTidy(y, m, g);
    CallersTidy(x, me == MAIN, c, s.nextCall, None, g);
    if s.channels[c].preference == Receiver {
      SendHandsOffEffect(s, c, m);
      TwoTidy(s, Send(s, c, m), me,
              YieldRecord(x.(transferring := true, reschedule := Back), me == MAIN, InSendHandoff(c)),
              r, ReceiverRecord(y, m), g);
    } else {
      SendGoesOnEffect(s, c, m);
      TwoTidy(s, Send(s, c, m), me, x.(transferring := false), r, ReceiverRecord(y, m), g);
    }
  }

  lemma ReceiveHandoffTidy(s: State, c: Cid, g: bool)
    requires Shaped(s) && Tidy(s, g) && c in s.channels && s.channels[c].senders != []
    requires s.channels[c].preference == Sender
    requires s.channels[c].senders[0] in s.tasklets && s.channels[c].senders[0] != s.current
    requires var x := s.tasklets[s.current]; x.slot.None? && !x.exception && !HasCall(x.at)
    requires var y := s.tasklets[s.channels[c].senders[0]]; !y.exception && y.at.InSend?
    ensures Tidy(Receive(s, c), g)
  {
    var (me, p) := (s.current, s.channels[c].senders[0]);
    var (x, y) := (s.tasklets[me], s.tasklets[p]);
    PartnersTidy(y, Data(0), g);
    CallersTidy(x, me == MAIN, c, s.nextCall, y.slot, g);
    ReceiveHandsOffEffect(s, c);
    TwoTidy(s, Receive(s, c), me,
            YieldRecord(x.(transferring := true, slot := y.slot, reschedule := Back), me == MAIN,
                        InReceiveHandoff(c, s.nextCall)),
            p, SenderRecord(y), g);
  }

  lemma ReceiveOnwardTidy(s: State, c: Cid, g: bool)
    requires Shaped(s) && Tidy(s, g) && c in s.channels && s.channels[c].senders != []
    requires s.channels[c].preference != Sender
    requires s.channels[c].senders[0] in s.tasklets && s.channels[c].senders[0] != s.current
    requires var x := s.tasklets[s.current]; x.slot.None? && !x.exception && !HasCall(x.at)
    requires var y := s.tasklets[s.channels[c].senders[0]]; !y.exception && y.at.InSend? && y.slot.Some?
    ensures Tidy(Receive(s, c), g)
  {
    var (me, p) := (s.current, s.channels[c].senders[0]);
    var (x, y) := (s.tasklets[me], s.tasklets[p]);
    PartnersTidy(y, Data(0), g);
    CallersTidy(x, me == MAIN, c, s.nextCall, y.slot, g);
    ReceiveGoesOnEffect(s, c);
    TwoTidy(s, Receive(s, c).(outcomes := s.outcomes), me, x.(transferring := false, slot := None, at := Idle), p,
            SenderRecord(y), g);
  }

  lemma ReceiveMatchedTidy(s: State, c: Cid, g: bool)
    requires Placed(s) && Running(s) && Tidy(s, g) && c in s.channels && s.channels[c].senders != []
    requires Shaped(s) && s.channels[c].senders[0] in s.tasklets
    ensures Tidy(Receive(s, c), g)
  {
    CurrentReady(s);
    WaitingSender(s, c);
    var p := s.channels[c].senders[0];
    assert TaskletOk(s.tasklets[p], p == MAIN, false);
    PlainSlot(s.tasklets[s.current]);
    if s.channels[c].preference == Sender { ReceiveHandoffTidy(s, c, g); } else { ReceiveOnwardTidy(s, c, g); }
  }

  lemma TransferTidy(s: State, a: Action, g: bool)
    requires Placed(s) && Allowed(s, a) && IsTransfer(a) && Tidy(s, g)
    ensures Tidy(TransferAct(s, a), g)
  {
    PlacedIsShaped(s);
    var ch := s.channels[a.c];
    if a.DoSend? {
      if ch.receivers != [] { SendMatchedTidy(s, a.c, a.m, g); }
      else if ch.closed || ch.closing { RefusedTidy(s, a.c, g); }
      else { BlocksTidy(s, a.c, a.m, g); }
    } else {
      if ch.senders != [] { ReceiveMatchedTidy(s, a.c, g); }
      else if ch.closed || ch.closing { RefusedTidy(s, a.c, g); }
      else { BlocksTidy(s, a.c, Data(0), g); }
    }
  }

  // ---- Turns ----

  lemma ScheduleTidy(s: State, remove: bool, g: bool)
    requires Placed(s) && Running(s) && Tidy(s, g)
    ensures Shaped(s) && Tidy(Schedule(s, remove), g)
  {
    PlacedIsShaped(s);
    var (me, x) := (s.current, s.tasklets[s.current]);
    var x' := if remove then x.(tagged := true) else x.(reschedule := Back);
    ScheduleEffect(s, remove);
    YieldTidy(x, x', me == MAIN, g);
    OneTidy(s, Schedule(s, remove), me, YieldRecord(x', me == MAIN, InYield), g);
  }

  lemma FinishTidy(s: State, g: bool)
    requires Placed(s) && s.current != MAIN && Tidy(s, g)
    ensures Tidy(Finish(s), g)
  {
    var (me, x) := (s.current, s.tasklets[s.current]);
    assert TaskletOk(x, false, true);
    PlainSlot(x);
    FinishEffect(s);
    PlainTidy(EndRecord(x.(at := Finished)), g);
    OneTidy(s, Finish(s), me, EndRecord(x.(at := Finished)), g);
  }

  lemma ResumedSlot(y: Tasklet, ok: bool)
    ensures ResumeRecord(y, ok).slot
         == if !HasCall(y.at) || (y.at.InSend? && ok) || (y.at.InReceiveHandoff? && !ok) then y.slot else None
  {
    match y.at
    case InSend(_, _) =>
    case InReceive(_, _) =>
    case InSendHandoff(_) =>
    case InReceiveHandoff(_, _) =>
    case _ =>
  }

  /** After a call the slot is empty, unless the call was a matched receive that failed under
      sender preference. */
  lemma ResumeRecordTidy(x: Tasklet, y: Tasklet, ok: bool, g: bool)
    requires TidyRecord(x, g) && y.at == x.at && y.slot == x.slot && SlotOk(x)
    requires ok ==> x.blockedOn.None? && !x.exception
    ensures !HasCall(ResumeRecord(y, ok).at)
    ensures ResumeRecord(y, ok).slot.Some? <==> x.at.InReceiveHandoff? && !ok
  {
    CallOver(y, ok);
    ResumedSlot(y, ok);
  }

  lemma ResumedTidy(s: State, s': State, t: Tid, y: Tasklet, ok: bool, g: bool)
    requires Tidy(s, g) && Resumed(s, s', t, y, ok) && SlotOk(s.tasklets[t])
    requires ok ==> s.tasklets[t].blockedOn.None? && !s.tasklets[t].exception
    requires g ==> ok || !Arrived(s.tasklets[t])
    ensures if s.tasklets[t].at.InReceiveHandoff? && !ok then !Tidy(s', false) else Tidy(s', g)
  {
    var x := s.tasklets[t];
    ResumeRecordTidy(x, y, ok, g);
    if x.at.InReceiveHandoff? && !ok {
      assert s'.tasklets[t].slot.Some? && !HasCall(s'.tasklets[t].at);
      assert !TidyRecord(s'.tasklets[t], false);
    } else {
      PlainTidy(ResumeRecord(y, ok), g);
      OneTidy(s, s'.(outcomes := s.outcomes), t, ResumeRecord(y, ok), g);
    }
  }

  lemma StillbornTidy(s: State, t: Tid, g: bool)
    requires t in s.tasklets && !s.tasklets[t].started && s.tasklets[t].exception && Tidy(s, g)
    requires !HasCall(s.tasklets[t].at) && !InChannelCall(s.tasklets[t].at)
    ensures Tidy(Switch(s, t), g)
  {
    var x := s.tasklets[t];
    StillbornEffect(s, t);
    PlainSlot(x);
    PlainTidy(EndRecord(x.(alive := false, at := Finished)), g);
    OneTidy(s, Switch(s, t), t, EndRecord(x.(alive := false, at := Finished)), g);
  }

  lemma SwitchTidy(s: State, t: Tid, g: bool)
    requires Placed(s) && t in s.queue && t != MAIN && s.current == MAIN && Tidy(s, g)
    ensures t in s.tasklets && (InChannelCall(s.tasklets[t].at) ==> s.tasklets[t].at.c in s.channels)
    ensures if Leaks(s, DoSwitch(t)) then !Tidy(Switch(s, t), false) else Tidy(Switch(s, t), g)
  {
    Switchable(s, t);
    var x := s.tasklets[t];
    if !x.started && x.exception {
      StillbornTidy(s, t, g);
    } else {
      RestartTidy(s, t, g);
    }
  }

  lemma RestartTidy(s: State, t: Tid, g: bool)
    requires t in s.tasklets && (s.tasklets[t].started || !s.tasklets[t].exception) && Tidy(s, g)
    requires InChannelCall(s.tasklets[t].at) ==> s.tasklets[t].at.c in s.channels
    requires SlotOk(s.tasklets[t]) && s.tasklets[t].blockedOn.None?
    ensures var x := s.tasklets[t];
            if x.at.InReceiveHandoff? && x.exception then !Tidy(Switch(s, t), false) else Tidy(Switch(s, t), g)
  {
    var x := s.tasklets[t];
    SwitchEffect(s, t);
    assert TidyRecord(x, g);
    ResumedTidy(s, Switch(s, t), t, x.(started := true, exception := false), !x.exception, g);
  }

  lemma MainReturnTidy(s: State, ok: bool, g: bool)
    requires Placed(s) && s.current == MAIN && (ok ==> s.tasklets[MAIN].blockedOn.None?) && Tidy(s, g)
    requires g ==> Gentle(s, DoMainReturn(ok))
    ensures InChannelCall(s.tasklets[MAIN].at) ==> s.tasklets[MAIN].at.c in s.channels
    ensures if Leaks(s, DoMainReturn(ok)) then !Tidy(Resume(s, MAIN, ok), false) else Tidy(Resume(s, MAIN, ok), g)
  {
    assert TaskletOk(s.tasklets[MAIN], true, true);
    ResumeEffect(s, MAIN, ok);
    ResumedTidy(s, Resume(s, MAIN, ok), MAIN, s.tasklets[MAIN], ok, g);
  }

  lemma LoopTidy(s: State, a: Action, g: bool)
    requires Placed(s) && Allowed(s, a) && !IsQueueCall(a) && !IsTransfer(a) && !IsChannelCall(a)
    requires Tidy(s, g) && (g ==> Gentle(s, a))
    ensures if Leaks(s, a) then !Tidy(LoopAct(s, a), false) else Tidy(LoopAct(s, a), g)
  {
    match a
    case DoSchedule => ScheduleTidy(s, false, g);
    case DoScheduleRemove => ScheduleTidy(s, true, g);
    case DoFinish => FinishTidy(s, g);
    case DoSwitch(t) => SwitchTidy(s, t, g);
    case DoMainReturn(ok) => MainReturnTidy(s, ok, g);
  }

  lemma ActTidy(s: State, a: Action, g: bool)
    requires Placed(s) && Allowed(s, a) && Tidy(s, g) && (g ==> Gentle(s, a))
    ensures if Leaks(s, a) then !Tidy(Act(s, a), false) else Tidy(Act(s, a), g)
  {
    if IsQueueCall(a) { QueueTidy(s, a, g); }
    else if IsTransfer(a) { TransferTidy(s, a, g); }
    else if IsChannelCall(a) { assert Act(s, a).tasklets == s.tasklets; }
    else { LoopTidy(s, a, g); }
  }

  /** The slots stay clean through a step exactly when no receive matched under sender preference
      comes back with an exception in it. */
  lemma CleanUnlessLeak(s: State, a: Action)
    requires Placed(s) && Allowed(s, a) && Tidy(s, false)
    ensures Tidy(Act(s, a), false) <==> !Leaks(s, a)
  {
    ActTidy(s, a, false);
  }

  lemma GentleNeverLeaks(s: State, a: Action)
    requires Placed(s) && Allowed(s, a) && Tidy(s, true) && Gentle(s, a)
    ensures !Leaks(s, a)
  {
    match a
    case DoSwitch(t) =>
      Switchable(s, t);
      assert TidyRecord(s.tasklets[t], true);
    case DoMainReturn(ok) => assert TaskletOk(s.tasklets[MAIN], true, true);
    case _ =>
  }
}
