/** The placement theorem: over every run in scope, each tasklet is where its flags say it is. */
module SchedulerPlacement {
  import opened Options
  import opened Flags
  import opened Scheduler
  import opened SchedulerInvariant
  import opened SchedulerLists
  import opened SchedulerSteps
  import opened SchedulerEffects

  // ---- Records, step by step ----

  /** `s'` differs from `s` in the records of `t` and `u` only. */
  lemma TwoChanged(s: State, s': State, t: Tid, x: Tasklet, u: Tid, y: Tasklet)
    requires TaskletsOk(s) && s'.tasklets == s.tasklets[u := y][t := x]
    requires s.channels.Keys <= s'.channels.Keys
    requires s'.current == s.current || s'.current == t || s'.current == MAIN
    requires TaskletOk(x, t == MAIN, t == s'.current)
    requires u != t ==> TaskletOk(y, u == MAIN, u == s'.current)
    requires InChannelCall(x.at) ==> x.at.c in s'.channels
    requires u != t && InChannelCall(y.at) ==> y.at.c in s'.channels
    ensures TaskletsOk(s')
  {
    forall w | w in s'.tasklets
      ensures TaskletOk(s'.tasklets[w], w == MAIN, w == s'.current)
      ensures InChannelCall(s'.tasklets[w].at) ==> s'.tasklets[w].at.c in s'.channels
    {
      if w != t && w != u {
        assert TaskletOk(s.tasklets[w], w == MAIN, w == s.current);
      }
    }
  }

  lemma OneChanged(s: State, s': State, t: Tid, x: Tasklet)
    requires TaskletsOk(s) && s'.tasklets == s.tasklets[t := x]
    requires s.channels.Keys <= s'.channels.Keys
    requires s'.current == s.current || s'.current == t || s'.current == MAIN
    requires TaskletOk(x, t == MAIN, t == s'.current)
    requires InChannelCall(x.at) ==> x.at.c in s'.channels
    ensures TaskletsOk(s')
  {
    PutTwice(s.tasklets, t, x, x);
    TwoChanged(s, s', t, x, t, x);
  }

  /** The record of a tasklet that runs its own code, before it calls the scheduler. */
  predicate Ready(x: Tasklet, isMain: bool) {
    TaskletOk(x, isMain, true) && x.at == Idle && x.alive && x.scheduled
  }

  lemma CurrentReady(s: State)
    requires Placed(s) && Running(s)
    ensures Ready(s.tasklets[s.current], s.current == MAIN)
  {
    assert TaskletOk(s.tasklets[s.current], s.current == MAIN, true);
  }

  lemma BlockedRecordOk(x: Tasklet, isMain: bool, c: Cid, call: Call, m: Message)
    requires Ready(x, isMain)
    ensures TaskletOk(YieldRecord(ParkedRecord(x, c, Sender, Some(m)), isMain, InSend(c, call)), isMain, isMain)
    ensures TaskletOk(YieldRecord(ParkedRecord(x, c, Receiver, x.slot), isMain, InReceive(c, call)), isMain, isMain)
  {}

  lemma SendBlocksPlaced(s: State, c: Cid, m: Message)
    requires Placed(s) && Running(s) && c in s.channels && s.channels[c].receivers == [] && !s.channels[c].closed
    ensures Placed(SendBlocks(s, c, m))
  {
    CurrentReady(s);
    SendBlocksStruct(s, c, m);
    SendBlocksEffect(s, c, m);
    var x := s.tasklets[s.current];
    BlockedRecordOk(x, s.current == MAIN, c, s.nextCall, m);
    OneChanged(s, SendBlocks(s, c, m), s.current,
               YieldRecord(ParkedRecord(x, c, Sender, Some(m)), s.current == MAIN, InSend(c, s.nextCall)));
  }

  lemma ReceiveBlocksPlaced(s: State, c: Cid)
    requires Placed(s) && Running(s) && c in s.channels && s.channels[c].senders == [] && !s.channels[c].closed
    ensures Placed(ReceiveBlocks(s, c))
  {
    CurrentReady(s);
    ReceiveBlocksStruct(s, c);
    ReceiveBlocksEffect(s, c);
    var x := s.tasklets[s.current];
    BlockedRecordOk(x, s.current == MAIN, c, s.nextCall, Data(0));
    OneChanged(s, ReceiveBlocks(s, c), s.current,
               YieldRecord(ParkedRecord(x, c, Receiver, x.slot), s.current == MAIN, InReceive(c, s.nextCall)));
  }

  // ---- Send and Receive ----

  lemma WaitingReceiver(s: State, c: Cid)
    requires Placed(s) && Running(s) && c in s.channels && s.channels[c].receivers != []
    ensures var r := s.channels[c].receivers[0];
            && r in s.tasklets && r != s.current
            && s.tasklets[r].blockedOn == Some(c) && s.tasklets[r].direction == Receiver
            && s.tasklets[r].at.InReceive? && s.tasklets[r].at.c == c
            && (r != MAIN ==> !s.tasklets[r].scheduled && s.tasklets[r].alive)
  {
    var r := s.channels[c].receivers[0];
    assert Listed(s, c, r);
    assert TaskletOk(s.tasklets[r], r == MAIN, r == s.current);
    CurrentReady(s);
  }

  lemma WaitingSender(s: State, c: Cid)
    requires Placed(s) && Running(s) && c in s.channels && s.channels[c].senders != []
    ensures var p := s.channels[c].senders[0];
            && p in s.tasklets && p != s.current
            && s.tasklets[p].blockedOn == Some(c) && s.tasklets[p].direction == Sender
            && s.tasklets[p].at.InSend? && s.tasklets[p].at.c == c && s.tasklets[p].slot.Some?
            && (p != MAIN ==> !s.tasklets[p].scheduled && s.tasklets[p].alive)
  {
    var p := s.channels[c].senders[0];
    assert Listed(s, c, p);
    assert TaskletOk(s.tasklets[p], p == MAIN, p == s.current);
    CurrentReady(s);
  }

  lemma MatchRecordsOk(x: Tasklet, isMain: bool, y: Tasklet, partnerIsMain: bool, c: Cid, call: Call, m: Message)
    requires Ready(x, isMain) && TaskletOk(y, partnerIsMain, false) && y.blockedOn == Some(c)
    ensures y.at.InReceive? ==> TaskletOk(ReceiverRecord(y, m), partnerIsMain, false)
    ensures y.at.InSend? ==> TaskletOk(SenderRecord(y), partnerIsMain, false)
    ensures TaskletOk(YieldRecord(x.(transferring := true, reschedule := Back), isMain, InSendHandoff(c)), isMain,
                      isMain)
    ensures TaskletOk(YieldRecord(x.(transferring := true, slot := Some(m), reschedule := Back), isMain,
                                  InReceiveHandoff(c, call)),
                      isMain, isMain)
    ensures TaskletOk(x.(transferring := false, slot := None, at := Idle), isMain, true)
    ensures TaskletOk(x.(transferring := false), isMain, true)
    ensures TaskletOk(x.(transferring := true), isMain, true)
  {}

  lemma MainIsCurrentAsWell(x: Tasklet)
    requires TaskletOk(x, true, false)
    ensures TaskletOk(x, true, true)
  {}

  lemma SendMatchedStruct(s: State, c: Cid, m: Message)
    requires Placed(s) && Running(s) && c in s.channels && s.channels[c].receivers != [] && Shaped(s)
    requires s.channels[c].receivers[0] in s.tasklets
    ensures Struct(Send(s, c, m))
  {
    CurrentReady(s);
    WaitingReceiver(s, c);
    SendMatchesStruct(s, c, m);
    SendMatchesEffect(s, c, m);
    var r := s.channels[c].receivers[0];
    var s1 := SendMatches(s, c, m);
    if s.channels[c].preference == Receiver {
      HandOffStruct(s1, r, InSendHandoff(c));
    } else {
      InsertStruct(s1, r);
      InsertEffect(s1, r);
      SendContinuesStruct(Insert(s1, r), c);
    }
  }

  lemma SendMatchedPlaced(s: State, c: Cid, m: Message)
    requires Placed(s) && Running(s) && c in s.channels && s.channels[c].receivers != [] && Shaped(s)
    requires s.channels[c].receivers[0] in s.tasklets
    ensures Placed(Send(s, c, m))
  {
    SendMatchedStruct(s, c, m);
    CurrentReady(s);
    WaitingReceiver(s, c);
    var (me, r) := (s.current, s.channels[c].receivers[0]);
    var (x, y) := (s.tasklets[me], s.tasklets[r]);
    MatchRecordsOk(x, me == MAIN, y, r == MAIN, c, s.nextCall, m);
    if r == MAIN { MainIsCurrentAsWell(ReceiverRecord(y, m)); }
    if s.channels[c].preference == Receiver {
      SendHandsOffEffect(s, c, m);
      TwoChanged(s, Send(s, c, m), me,
                 YieldRecord(x.(transferring := true, reschedule := Back), me == MAIN, InSendHandoff(c)),
                 r, ReceiverRecord(y, m));
    } else {
      SendGoesOnEffect(s, c, m);
      TwoChanged(s, Send(s, c, m), me, x.(transferring := false), r, ReceiverRecord(y, m));
    }
  }

  lemma ReceiveMatchedStruct(s: State, c: Cid)
    requires Placed(s) && Running(s) && c in s.channels && s.channels[c].senders != [] && Shaped(s)
    requires s.channels[c].senders[0] in s.tasklets
    ensures Struct(Receive(s, c))
  {
    CurrentReady(s);
    WaitingSender(s, c);
    ReceiveMatchesStruct(s, c);
    ReceiveMatchesEffect(s, c);
    var p := s.channels[c].senders[0];
    var s1 := ReceiveMatches(s, c);
    if s.channels[c].preference == Sender {
      HandOffStruct(s1, p, InReceiveHandoff(c, s.nextCall));
    } else {
      InsertStruct(s1, p);
      InsertEffect(s1, p);
      DeliverStruct(Insert(s1, p), c, s.current, s.nextCall);
    }
  }

  lemma ReceiveMatchedPlaced(s: State, c: Cid)
    requires Placed(s) && Running(s) && c in s.channels && s.channels[c].senders != [] && Shaped(s)
    requires s.channels[c].senders[0] in s.tasklets
    ensures Placed(Receive(s, c))
  {
    ReceiveMatchedStruct(s, c);
    CurrentReady(s);
    WaitingSender(s, c);
    var (me, p) := (s.current, s.channels[c].senders[0]);
    var (x, y) := (s.tasklets[me], s.tasklets[p]);
    MatchRecordsOk(x, me == MAIN, y, p == MAIN, c, s.nextCall, y.slot.value);
    if p == MAIN { MainIsCurrentAsWell(SenderRecord(y)); }
    if s.channels[c].preference == Sender {
      ReceiveHandsOffEffect(s, c);
      TwoChanged(s, Receive(s, c), me,
                 YieldRecord(x.(transferring := true, slot := y.slot, reschedule := Back), me == MAIN,
                             InReceiveHandoff(c, s.nextCall)),
                 p, SenderRecord(y));
    } else {
      ReceiveGoesOnEffect(s, c);
      TwoChanged(s, Receive(s, c), me, x.(transferring := false, slot := None, at := Idle), p, SenderRecord(y));
    }
  }

  lemma PlacedIsShaped(s: State)
    requires Placed(s)
    ensures Shaped(s)
    ensures forall c, t :: c in s.channels && (t in s.channels[c].senders || t in s.channels[c].receivers) ==>
              t in s.tasklets
  {
    forall c, t | c in s.channels && (t in s.channels[c].senders || t in s.channels[c].receivers)
      ensures t in s.tasklets
    {
      assert Listed(s, c, t);
    }
  }

  lemma BeginCallPlaced(s: State)
    requires Placed(s) && Running(s)
    ensures Placed(BeginCall(s))
  {
    CurrentReady(s);
    BeginCallStruct(s);
    OneChanged(s, BeginCall(s), s.current, s.tasklets[s.current].(transferring := true));
  }

  lemma ReceiveRefusedPlaced(s: State, c: Cid)
    requires Placed(s) && Running(s) && c in s.channels
    ensures Placed(ReceiveRefused(s, c))
  {
    CurrentReady(s);
    ReceiveRefusedStruct(s, c);
    OneChanged(s, ReceiveRefused(s, c), s.current, s.tasklets[s.current].(transferring := false));
  }

  lemma SendPlaced(s: State, c: Cid, m: Message)
    requires Placed(s) && Running(s) && c in s.channels
    ensures Shaped(s) && (s.channels[c].receivers != [] ==> s.channels[c].receivers[0] in s.tasklets)
    ensures Placed(Send(s, c, m))
  {
    PlacedIsShaped(s);
    if s.channels[c].receivers != [] {
      SendMatchedPlaced(s, c, m);
    } else if s.channels[c].closed || s.channels[c].closing {
      BeginCallPlaced(s);
    } else {
      SendBlocksPlaced(s, c, m);
    }
  }

  lemma ReceivePlaced(s: State, c: Cid)
    requires Placed(s) && Running(s) && c in s.channels
    ensures Shaped(s) && (s.channels[c].senders != [] ==> s.channels[c].senders[0] in s.tasklets)
    ensures Placed(Receive(s, c))
  {
    PlacedIsShaped(s);
    if s.channels[c].senders != [] {
      ReceiveMatchedPlaced(s, c);
    } else if s.channels[c].closed || s.channels[c].closing {
      ReceiveRefusedPlaced(s, c);
    } else {
      ReceiveBlocksPlaced(s, c);
    }
  }

  // ---- Scheduling calls ----

  lemma YieldingRecordsOk(x: Tasklet, isMain: bool)
    requires Ready(x, isMain)
    ensures TaskletOk(YieldRecord(x.(reschedule := Back), isMain, InYield), isMain, isMain)
    ensures TaskletOk(YieldRecord(x.(reschedule := FrontPlusOne), isMain, InYield), isMain, isMain)
    ensures !isMain ==> TaskletOk(YieldRecord(x.(tagged := true), isMain, InYield), isMain, isMain)
    ensures forall x', at :: YieldRecord(x', isMain, at).at == at
  {}

  lemma ScheduleStruct(s: State, remove: bool)
    requires Struct(s) && Shaped(s) && s.tasklets[s.current].blockedOn.None?
    ensures Struct(Schedule(s, remove))
  {
    var x := s.tasklets[s.current];
    if remove { YieldWithStruct(s, x.(tagged := true)); } else { YieldWithStruct(s, x.(reschedule := Back)); }
  }

  lemma YieldWithStruct(s: State, x: Tasklet)
    requires Struct(s) && s.tasklets[s.current].blockedOn.None?
    requires x.scheduled == s.tasklets[s.current].scheduled && x.blockedOn.None?
    requires x.direction == s.tasklets[s.current].direction
    ensures Struct(Yield(Put(s, s.current, x), InYield))
  {
    PutStruct(s, s.current, x);
    YieldStruct(Put(s, s.current, x), InYield);
  }

  lemma SchedulePlaced(s: State, remove: bool)
    requires Placed(s) && Running(s) && (remove ==> s.current != MAIN)
    ensures Shaped(s) && Placed(Schedule(s, remove))
  {
    PlacedIsShaped(s);
    CurrentReady(s);
    ScheduleStruct(s, remove);
    ScheduleRecords(s, remove);
  }

  lemma ScheduleRecords(s: State, remove: bool)
    requires TaskletsOk(s) && Shaped(s) && Ready(s.tasklets[s.current], s.current == MAIN)
    requires remove ==> s.current != MAIN
    ensures TaskletsOk(Schedule(s, remove))
  {
    var (me, x) := (s.current, s.tasklets[s.current]);
    var x' := if remove then x.(tagged := true) else x.(reschedule := Back);
    ScheduleEffect(s, remove);
    YieldingRecordsOk(x, me == MAIN);
    OneChanged(s, Schedule(s, remove), me, YieldRecord(x', me == MAIN, InYield));
  }

  lemma RunnableRecordOk(s: State, t: Tid)
    requires TaskletsOk(s) && t in s.tasklets && t != MAIN && t != s.current
    requires s.tasklets[t].alive && s.tasklets[t].blockedOn.None?
    ensures TaskletOk(s.tasklets[t].(scheduled := true), false, false)
    ensures InChannelCall(s.tasklets[t].at) ==> s.tasklets[t].at.c in s.channels
  {
    assert TaskletOk(s.tasklets[t], false, false);
  }

  lemma RunPlaced(s: State, t: Tid)
    requires Placed(s) && Running(s) && t in s.tasklets && t != MAIN && t != s.current
    ensures Shaped(s) && Placed(RunTasklet(s, t))
  {
    PlacedIsShaped(s);
    CurrentReady(s);
    RunTaskletStruct(s, t);
    var (me, x, y) := (s.current, s.tasklets[s.current], s.tasklets[t]);
    if y.alive && y.blockedOn.None? {
      RunEffect(s, t);
      YieldingRecordsOk(x, me == MAIN);
      RunnableRecordOk(s, t);
      TwoChanged(s, RunTasklet(s, t), me, YieldRecord(x.(reschedule := FrontPlusOne), me == MAIN, InYield),
                 t, y.(scheduled := true));
    }
  }

  lemma InsertCallPlaced(s: State, t: Tid)
    requires Placed(s) && t in s.tasklets && !s.tasklets[t].scheduled
    ensures Placed(InsertCall(s, t))
  {
    var y := s.tasklets[t];
    assert TaskletOk(y, t == MAIN, t == s.current);
    if y.blockedOn.None? && y.alive {
      InsertStruct(s, t);
      InsertEffect(s, t);
      OneChanged(s, Insert(s, t), t, QueuedRecord(y));
    }
  }

  lemma RemoveCallPlaced(s: State, t: Tid)
    requires Placed(s) && t in s.tasklets && t != MAIN && t != s.current
    ensures Placed(RemoveCall(s, t))
  {
    var y := s.tasklets[t];
    assert TaskletOk(y, false, false);
    if y.scheduled {
      RemoveStruct(s, t);
      OneChanged(s, Remove(s, t), t, y.(scheduled := false));
    }
  }

  lemma KillPlaced(s: State, t: Tid)
    requires Placed(s) && t in s.tasklets && t != MAIN && t != s.current
    ensures s.tasklets[t].blockedOn.Some? ==> s.tasklets[t].blockedOn.value in s.channels
    ensures Placed(KillPending(s, t))
  {
    var x := s.tasklets[t];
    assert TaskletOk(x, false, false) && Directed(s, t);
    KillStruct(s, t);
    if x.alive && !x.killPending {
      if x.blockedOn.Some? {
        KillBlockedEffect(s, t, x.blockedOn.value);
        OneChanged(s, KillPending(s, t), t, x.(blockedOn := None, scheduled := true, direction := Neither,
                                               exception := true, reschedule := Stay, killPending := true));
      } else {
        KillUnblockedEffect(s, t);
        OneChanged(s, KillPending(s, t), t,
                   x.(scheduled := true, exception := true, reschedule := Stay, killPending := true));
      }
    }
  }

  lemma CreatePlaced(s: State, t: Tid)
    requires Placed(s) && t !in s.tasklets
    ensures Placed(Create(s, t)) && Placed(Spawn(s, t))
  {
    PutStruct(s, t, FRESH);
    OneChanged(s, Create(s, t), t, FRESH);
    InsertCallPlaced(Create(s, t), t);
  }

  lemma ChannelChanged(s: State, c: Cid, ch: Channel)
    requires Placed(s) && ChannelOk(ch)
    requires if c in s.channels then ch.senders == s.channels[c].senders && ch.receivers == s.channels[c].receivers
             else ch.senders == [] && ch.receivers == []
    ensures Placed(PutChannel(s, c, ch))
  {
    PutChannelStruct(s, c, ch);
    PutTwice(s.tasklets, MAIN, s.tasklets[MAIN], s.tasklets[MAIN]);
    assert TaskletOk(s.tasklets[MAIN], true, MAIN == s.current);
    assert s.tasklets[MAIN := s.tasklets[MAIN]] == s.tasklets;
    OneChanged(s, PutChannel(s, c, ch), MAIN, s.tasklets[MAIN]);
  }

  lemma NewChannelPlaced(s: State, c: Cid)
    requires Placed(s) && c !in s.channels
    ensures Placed(NewChannel(s, c))
  {
    ChannelChanged(s, c, NEW_CHANNEL);
  }

  lemma ClosePlaced(s: State, c: Cid)
    requires Placed(s) && c in s.channels
    ensures Placed(Close(s, c))
  {
    var ch := s.channels[c];
    assert ChannelOk(ch);
    ChannelChanged(s, c, ch.(closing := true));
    ChannelChanged(PutChannel(s, c, ch.(closing := true)), c, CloseIfDrained(ch.(closing := true)));
  }

  lemma OpenPlaced(s: State, c: Cid)
    requires Placed(s) && c in s.channels
    ensures Placed(Open(s, c))
  {
    assert ChannelOk(s.channels[c]);
    ChannelChanged(s, c, s.channels[c].(closing := false, closed := false));
  }

  lemma PreferPlaced(s: State, c: Cid, d: Direction)
    requires Placed(s) && c in s.channels
    ensures Placed(Prefer(s, c, d))
  {
    assert ChannelOk(s.channels[c]);
    ChannelChanged(s, c, s.channels[c].(preference := d));
  }

  lemma FinishPlaced(s: State)
    requires Placed(s) && s.current != MAIN
    ensures Placed(Finish(s))
  {
    var (me, x) := (s.current, s.tasklets[s.current]);
    assert TaskletOk(x, false, true);
    PutStruct(s, me, x.(at := Finished));
    EndTurnStruct(Put(s, me, x.(at := Finished)));
    FinishEffect(s);
    OneChanged(s, Finish(s), me, EndRecord(x.(at := Finished)));
  }

  // ---- The loop ----

  lemma CurrentStruct(s: State, t: Tid)
    requires Struct(s) && t in s.queue
    ensures Struct(s.(current := t))
  {
    var s' := s.(current := t);
    forall c, u | c in s'.channels ensures Listed(s', c, u) { assert Listed(s, c, u); }
    forall u | u in s'.tasklets ensures Directed(s', u) { assert Directed(s, u); }
  }

  /** A tasklet in the run queue is not blocked, so its call can go on. */
  lemma Switchable(s: State, t: Tid)
    requires Placed(s) && t in s.queue && t != MAIN
    ensures t in s.tasklets && s.tasklets[t].scheduled && s.tasklets[t].blockedOn.None?
    ensures s.tasklets[t].reschedule == Stay
    ensures s.tasklets[t].direction == Neither && s.tasklets[t].alive && TaskletOk(s.tasklets[t], false, t == s.current)
    ensures InChannelCall(s.tasklets[t].at) ==> s.tasklets[t].at.c in s.channels
  {
    assert t in s.tasklets;
    assert TaskletOk(s.tasklets[t], t == MAIN, t == s.current) && Directed(s, t);
  }

  lemma StillbornPlaced(s: State, t: Tid)
    requires Placed(s) && t in s.queue && t != MAIN && t in s.tasklets
    requires !s.tasklets[t].started && s.tasklets[t].exception
    ensures !InChannelCall(s.tasklets[t].at) && Placed(Switch(s, t))
  {
    Switchable(s, t);
    var x := s.tasklets[t].(alive := false, at := Finished);
    CurrentStruct(s, t);
    PutStruct(s.(current := t), t, x);
    EndTurnStruct(Put(s.(current := t), t, x));
    StillbornEffect(s, t);
    OneChanged(s, Switch(s, t), t, EndRecord(x));
  }

  lemma ResumedRecordOk(x: Tasklet)
    requires TaskletOk(x, false, false) && x.scheduled && (x.started || !x.exception)
    ensures TaskletOk(ResumeRecord(x.(started := true, exception := false), !x.exception), false, true)
    ensures !InChannelCall(ResumeRecord(x.(started := true, exception := false), !x.exception).at)
  {}

  lemma SwitchPlaced(s: State, t: Tid)
    requires Placed(s) && t in s.queue && t != MAIN && s.current == MAIN
    ensures t in s.tasklets && (InChannelCall(s.tasklets[t].at) ==> s.tasklets[t].at.c in s.channels)
    ensures Placed(Switch(s, t))
  {
    Switchable(s, t);
    var x := s.tasklets[t];
    if !x.started && x.exception {
      StillbornPlaced(s, t);
    } else {
      var y := x.(started := true, exception := false);
      CurrentStruct(s, t);
      PutStruct(s.(current := t), t, y);
      ResumeStruct(Put(s.(current := t), t, y), t, !x.exception);
      SwitchEffect(s, t);
      ResumedRecordOk(x);
      OneChanged(s, Switch(s, t), t, ResumeRecord(y, !x.exception));
    }
  }

  lemma MainRecordOk(x: Tasklet, ok: bool)
    requires TaskletOk(x, true, true) && (ok ==> x.blockedOn.None?)
    ensures TaskletOk(ResumeRecord(x, ok), true, true) && !InChannelCall(ResumeRecord(x, ok).at)
  {}

  lemma MainReturnPlaced(s: State, ok: bool)
    requires Placed(s) && s.current == MAIN && (ok ==> s.tasklets[MAIN].blockedOn.None?)
    ensures InChannelCall(s.tasklets[MAIN].at) ==> s.tasklets[MAIN].at.c in s.channels
    ensures Placed(Resume(s, MAIN, ok))
  {
    var x := s.tasklets[MAIN];
    assert TaskletOk(x, true, true);
    ResumeStruct(s, MAIN, ok);
    ResumeEffect(s, MAIN, ok);
    MainRecordOk(x, ok);
    OneChanged(s, Resume(s, MAIN, ok), MAIN, ResumeRecord(x, ok));
  }

  // ---- Every step ----

  lemma InitialPlaced()
    ensures Placed(INITIAL)
  {}

  predicate IsQueueCall(a: Action) {
    a.DoCreate? || a.DoSpawn? || a.DoInsert? || a.DoRemove? || a.DoRun? || a.DoKill?
  }

  predicate IsTransfer(a: Action) {
    a.DoSend? || a.DoReceive?
  }

  predicate IsChannelCall(a: Action) {
    a.DoNewChannel? || a.DoClose? || a.DoOpen? || a.DoPrefer?
  }

  function QueueAct(s: State, a: Action): (s': State)
    requires Placed(s) && Allowed(s, a) && IsQueueCall(a)
    ensures Placed(s')
  {
    match a
    case DoCreate(t) => CreatePlaced(s, t); Create(s, t)
    case DoSpawn(t) => CreatePlaced(s, t); Spawn(s, t)
    case DoInsert(t) => InsertCallPlaced(s, t); InsertCall(s, t)
    case DoRemove(t) => RemoveCallPlaced(s, t); RemoveCall(s, t)
    case DoRun(t) => RunPlaced(s, t); RunTasklet(s, t)
    case DoKill(t) => KillPlaced(s, t); KillPending(s, t)
  }

  function TransferAct(s: State, a: Action): (s': State)
    requires Placed(s) && Allowed(s, a) && IsTransfer(a)
    ensures Placed(s')
  {
    match a
    case DoSend(c, m) => SendPlaced(s, c, m); Send(s, c, m)
    case DoReceive(c) => ReceivePlaced(s, c); Receive(s, c)
  }

  function ChannelAct(s: State, a: Action): (s': State)
    requires Placed(s) && Allowed(s, a) && IsChannelCall(a)
    ensures Placed(s')
  {
    match a
    case DoNewChannel(c) => NewChannelPlaced(s, c); NewChannel(s, c)
    case DoClose(c) => ClosePlaced(s, c); Close(s, c)
    case DoOpen(c) => OpenPlaced(s, c); Open(s, c)
    case DoPrefer(c, d) => PreferPlaced(s, c, d); Prefer(s, c, d)
  }

  function LoopAct(s: State, a: Action): (s': State)
    requires Placed(s) && Allowed(s, a) && !IsQueueCall(a) && !IsTransfer(a) && !IsChannelCall(a)
    ensures Placed(s')
  {
    match a
    case DoSchedule => SchedulePlaced(s, false); Schedule(s, false)
    case DoScheduleRemove => SchedulePlaced(s, true); Schedule(s, true)
    case DoFinish => FinishPlaced(s); Finish(s)
    case DoSwitch(t) => SwitchPlaced(s, t); Switch(s, t)
    case DoMainReturn(ok) => MainReturnPlaced(s, ok); Resume(s, MAIN, ok)
  }

  /** One step, of any kind, keeps the invariant. */
  function Act(s: State, a: Action): (s': State)
    requires Placed(s) && Allowed(s, a)
    ensures Placed(s')
  {
    if IsQueueCall(a) then QueueAct(s, a)
    else if IsTransfer(a) then TransferAct(s, a)
    else if IsChannelCall(a) then ChannelAct(s, a)
    else LoopAct(s, a)
  }

  // ---- Runs ----

  /** The states of a run are chained by allowed actions; `log[i]` leads from `run[i]` to
      `run[i + 1]`. */
  ghost predicate IsRun(run: seq<State>, log: seq<Action>)
    decreases |run|
  {
    && |run| == |log| + 1
    && (if log == [] then run[0] == INITIAL
        else
          && IsRun(run[..|run| - 1], log[..|log| - 1])
          && var (s, a) := (run[|run| - 2], log[|log| - 1]);
             Placed(s) && Allowed(s, a) && run[|run| - 1] == Act(s, a))
  }

  lemma {:induction false} RunPlacedThroughout(run: seq<State>, log: seq<Action>, i: nat)
    requires IsRun(run, log) && i < |run|
    ensures Placed(run[i])
    decreases |run|
  {
    if log == [] {
      InitialPlaced();
    } else if i < |run| - 1 {
      RunPlacedThroughout(run[..|run| - 1], log[..|log| - 1], i);
    }
  }
}
