/** What a step does to a tasklet other than the one that takes it. */
module Bystanders {
  import opened Options
  import opened Flags
  import opened Scheduler
  import opened SchedulerInvariant
  import opened SchedulerSteps
  import opened SchedulerEffects
  import opened SchedulerPlacement
  import opened RendezvousSteps

  /** The step ends the wait of `u` on `c`: it is the matching call, or a pending kill of `u`. */
  predicate Releases(s: State, a: Action, u: Tid, c: Cid) {
    || (a.DoSend? && a.c == c && c in s.channels && s.channels[c].receivers != [] && s.channels[c].receivers[0] == u)
    || (a.DoReceive? && a.c == c && c in s.channels && s.channels[c].senders != [] && s.channels[c].senders[0] == u)
    || a == DoKill(u)
  }

  /** `u` stays in its call; if it was blocked it stays so unless the step releases it. */
  predicate Bystands(s: State, a: Action, u: Tid, s': State) {
    && u in s.tasklets && u in s'.tasklets
    && var (x, x') := (s.tasklets[u], s'.tasklets[u]);
    && x'.at == x.at
    && (x.blockedOn.None? ==> x'.blockedOn.None?)
    && (x.blockedOn.Some? ==>
          x'.blockedOn == x.blockedOn || (x'.blockedOn.None? && Releases(s, a, u, x.blockedOn.value)))
  }

  lemma Untouched(s: State, a: Action, u: Tid, s': State)
    requires u in s.tasklets && u in s'.tasklets && s'.tasklets[u] == s.tasklets[u]
    ensures Bystands(s, a, u, s')
  {}

  /** At most the records of `t` and of the caller change. */
  lemma PartnerBystands(s: State, a: Action, u: Tid, s': State, t: Tid, y: Tasklet, me: Tid, x: Tasklet)
    requires u in s.tasklets && u != me && s'.tasklets == s.tasklets[t := y][me := x]
    requires u == t ==> y.at == s.tasklets[t].at && y.blockedOn.None?
    requires u == t && s.tasklets[t].blockedOn.Some? ==> Releases(s, a, u, s.tasklets[t].blockedOn.value)
    ensures Bystands(s, a, u, s')
  {}

  lemma RunBystands(s: State, t: Tid, u: Tid)
    requires Placed(s) && t in s.tasklets && t != MAIN && t != s.current && u in s.tasklets && u != s.current
    ensures Shaped(s) && Bystands(s, DoRun(t), u, RunTasklet(s, t))
  {
    PlacedIsShaped(s);
    var (me, x, y) := (s.current, s.tasklets[s.current], s.tasklets[t]);
    if y.alive && y.blockedOn.None? {
      RunEffect(s, t);
      PartnerBystands(s, DoRun(t), u, RunTasklet(s, t), t, y.(scheduled := true),
                      me, YieldRecord(x.(reschedule := FrontPlusOne), me == MAIN, InYield));
    }
  }

  lemma InsertBystands(s: State, t: Tid, u: Tid)
    requires u in s.tasklets
    ensures t !in s.tasklets ==> Bystands(s, DoSpawn(t), u, Spawn(s, t)) && Bystands(s, DoCreate(t), u, Create(s, t))
    ensures t in s.tasklets ==>
              Bystands(s, DoInsert(t), u, InsertCall(s, t)) && Bystands(s, DoRemove(t), u, RemoveCall(s, t))
  {}

  lemma QueueBystands(s: State, a: Action, u: Tid)
    requires Placed(s) && Allowed(s, a) && IsQueueCall(a) && u in s.tasklets && u != s.current
    ensures Bystands(s, a, u, QueueAct(s, a))
  {
    match a
    case DoCreate(t) => InsertBystands(s, t, u);
    case DoSpawn(t) => InsertBystands(s, t, u);
    case DoInsert(t) => InsertBystands(s, t, u);
    case DoRemove(t) => InsertBystands(s, t, u);
    case DoRun(t) => RunBystands(s, t, u);
    case DoKill(t) => KillBystands(s, t, u);
  }

  lemma KillBystands(s: State, t: Tid, u: Tid)
    requires Placed(s) && t in s.tasklets && t != MAIN && u in s.tasklets
    ensures s.tasklets[t].blockedOn.Some? ==> s.tasklets[t].blockedOn.value in s.channels
    ensures Bystands(s, DoKill(t), u, KillPending(s, t))
  {
    var x := s.tasklets[t];
    assert Directed(s, t) && TaskletOk(x, false, t == s.current);
    if x.alive && !x.killPending {
      if x.blockedOn.Some? { KillBlockedEffect(s, t, x.blockedOn.value); } else { KillUnblockedEffect(s, t); }
    }
  }

  lemma SendMatchedBystands(s: State, c: Cid, m: Message, u: Tid)
    requires Placed(s) && Running(s) && c in s.channels && u in s.tasklets && u != s.current
    requires s.channels[c].receivers != []
    requires Shaped(s) && s.channels[c].receivers[0] in s.tasklets
    ensures Bystands(s, DoSend(c, m), u, Send(s, c, m))
  {
    WaitingReceiver(s, c);
    var (me, r) := (s.current, s.channels[c].receivers[0]);
    PartnerFacts(s.tasklets[r], m);
    var x1 := if s.channels[c].preference == Receiver
              then YieldRecord(s.tasklets[me].(transferring := true, reschedule := Back), me == MAIN, InSendHandoff(c))
              else s.tasklets[me].(transferring := false);
    if s.channels[c].preference == Receiver { SendHandsOffEffect(s, c, m); } else { SendGoesOnEffect(s, c, m); }
    PartnerBystands(s, DoSend(c, m), u, Send(s, c, m), r, ReceiverRecord(s.tasklets[r], m), me, x1);
  }

  lemma SendBystands(s: State, c: Cid, m: Message, u: Tid)
    requires Placed(s) && Running(s) && c in s.channels && u in s.tasklets && u != s.current
    ensures Shaped(s) && (s.channels[c].receivers != [] ==> s.channels[c].receivers[0] in s.tasklets)
    ensures Bystands(s, DoSend(c, m), u, Send(s, c, m))
  {
    PlacedIsShaped(s);
    var ch := s.channels[c];
    if ch.receivers != [] {
      SendMatchedBystands(s, c, m, u);
    } else {
      if !ch.closed && !ch.closing { SendBlocksEffect(s, c, m); }
      Untouched(s, DoSend(c, m), u, Send(s, c, m));
    }
  }

  lemma ReceiveMatchedBystands(s: State, c: Cid, u: Tid)
    requires Placed(s) && Running(s) && c in s.channels && u in s.tasklets && u != s.current
    requires s.channels[c].senders != []
    requires Shaped(s) && s.channels[c].senders[0] in s.tasklets
    ensures Bystands(s, DoReceive(c), u, Receive(s, c))
  {
    WaitingSender(s, c);
    var (me, p) := (s.current, s.channels[c].senders[0]);
    var (x, y) := (s.tasklets[me], s.tasklets[p]);
    assert SenderRecord(y).at == y.at && SenderRecord(y).blockedOn.None?;
    if s.channels[c].preference == Sender {
      ReceiveHandsOffEffect(s, c);
      var x1 := x.(transferring := true, slot := y.slot, reschedule := Back);
      PartnerBystands(s, DoReceive(c), u, Receive(s, c), p, SenderRecord(y),
                      me, YieldRecord(x1, me == MAIN, InReceiveHandoff(c, s.nextCall)));
    } else {
      ReceiveGoesOnEffect(s, c);
      PartnerBystands(s, DoReceive(c), u, Receive(s, c), p, SenderRecord(y), me,
                      x.(transferring := false, slot := None, at := Idle));
    }
  }

  lemma ReceiveBystands(s: State, c: Cid, u: Tid)
    requires Placed(s) && Running(s) && c in s.channels && u in s.tasklets && u != s.current
    ensures Shaped(s) && (s.channels[c].senders != [] ==> s.channels[c].senders[0] in s.tasklets)
    ensures Bystands(s, DoReceive(c), u, Receive(s, c))
  {
    PlacedIsShaped(s);
    var ch := s.channels[c];
    if ch.senders != [] {
      ReceiveMatchedBystands(s, c, u);
    } else {
      if ch.closed || ch.closing {
        CurrentReady(s);
        ReceiveRefusedStruct(s, c);
      } else {
        ReceiveBlocksEffect(s, c);
      }
      Untouched(s, DoReceive(c), u, Receive(s, c));
    }
  }

  lemma ScheduleBystands(s: State, a: Action, remove: bool, u: Tid)
    requires Shaped(s) && u in s.tasklets && u != s.current
    ensures Bystands(s, a, u, Schedule(s, remove))
  {
    ScheduleEffect(s, remove);
    Untouched(s, a, u, Schedule(s, remove));
  }

  lemma FinishBystands(s: State, a: Action, u: Tid)
    requires s.current in s.tasklets && u in s.tasklets && u != s.current
    ensures Bystands(s, a, u, Finish(s))
  {
    FinishEffect(s);
    Untouched(s, a, u, Finish(s));
  }

  lemma LoopBystands(s: State, a: Action, u: Tid)
    requires Placed(s) && Allowed(s, a) && (a.DoSchedule? || a.DoScheduleRemove? || a.DoFinish?)
    requires u in s.tasklets && u != s.current
    ensures Bystands(s, a, u, LoopAct(s, a))
  {
    PlacedIsShaped(s);
    match a
    case DoSchedule => ScheduleBystands(s, a, false, u);
    case DoScheduleRemove => ScheduleBystands(s, a, true, u);
    case DoFinish => FinishBystands(s, a, u);
  }

  lemma SwitchBystands(s: State, t: Tid, u: Tid)
    requires Placed(s) && t in s.queue && t != MAIN && s.current == MAIN && u in s.tasklets && u != t
    ensures t in s.tasklets && (InChannelCall(s.tasklets[t].at) ==> s.tasklets[t].at.c in s.channels)
    ensures Switch(s, t).tasklets[u] == s.tasklets[u]
  {
    Switchable(s, t);
    if !s.tasklets[t].started && s.tasklets[t].exception { StillbornEffect(s, t); } else { SwitchEffect(s, t); }
  }

  /** The main tasklet waits while others run: its call goes on, and a wait on a channel ends only
      through the matching call of another tasklet. */
  lemma ActBystands(s: State, a: Action, u: Tid)
    requires Placed(s) && Allowed(s, a) && u in s.tasklets && u != s.current && !a.DoSwitch? && !a.DoMainReturn?
    ensures Bystands(s, a, u, Act(s, a))
  {
    if IsQueueCall(a) { QueueBystands(s, a, u); }
    else if a.DoSend? { SendBystands(s, a.c, a.m, u); }
    else if a.DoReceive? { ReceiveBystands(s, a.c, u); }
    else if IsChannelCall(a) { Untouched(s, a, u, Act(s, a)); }
    else { LoopBystands(s, a, u); }
  }
}
