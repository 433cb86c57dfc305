/** Every step of the scheduler keeps the calls of every channel matched in order. */
module RendezvousSteps {
  import opened Options
  import opened Flags
  import opened Lists
  import opened Scheduler
  import opened SchedulerInvariant
  import opened SchedulerSteps
  import opened SchedulerEffects
  import opened SchedulerPlacement
  import opened Rendezvous

  // ---- Recognising steps that match nobody ----

  ghost predicate RecordsQuiet(s: State, s': State) {
    && (forall w :: w in s.tasklets ==> w in s'.tasklets && Idles(s.tasklets[w], s'.tasklets[w]))
    && (forall w :: w in s'.tasklets && w !in s.tasklets ==> !HasCall(s'.tasklets[w].at))
  }

  ghost predicate ChannelsQuiet(s: State, s': State) {
    && (forall c :: c in s.channels ==> c in s'.channels && SameBook(s.channels[c], s'.channels[c]))
    && (forall c :: c in s'.channels && c !in s.channels ==> s'.channels[c] == NEW_CHANNEL)
  }

  lemma QuietAgrees(s: State, s': State)
    requires ListsOk(s) && Agreed(s) && s'.outcomes == s.outcomes && s.nextCall <= s'.nextCall
    requires RecordsQuiet(s, s') && ChannelsQuiet(s, s')
    ensures Agreed(s')
  {
    QuietKeeps(s, s');
  }

  lemma OneQuiet(s: State, s': State, t: Tid, x': Tasklet)
    requires s'.tasklets == s.tasklets[t := x']
    requires if t in s.tasklets then Idles(s.tasklets[t], x') else !HasCall(x'.at)
    ensures RecordsQuiet(s, s')
  {}

  lemma TwoQuiet(s: State, s': State, t: Tid, x': Tasklet, u: Tid, y': Tasklet)
    requires s'.tasklets == s.tasklets[u := y'][t := x'] && t in s.tasklets && u in s.tasklets && t != u
    requires Idles(s.tasklets[t], x') && Idles(s.tasklets[u], y')
    ensures RecordsQuiet(s, s')
  {}

  lemma NoChannelChanged(s: State, s': State)
    requires s'.channels == s.channels
    ensures ChannelsQuiet(s, s')
  {}

  lemma OneChannelQuiet(s: State, s': State, c: Cid, ch: Channel)
    requires s'.channels == s.channels[c := ch]
    requires if c in s.channels then SameBook(s.channels[c], ch) else ch == NEW_CHANNEL
    ensures ChannelsQuiet(s, s')
  {}

  lemma TwoLocal(s: State, s': State, c: Cid, ch: Channel, t: Tid, x': Tasklet, u: Tid, y': Tasklet)
    requires s'.tasklets == s.tasklets[u := y'][t := x'] && t in s.tasklets && u in s.tasklets
    requires c in s.channels && s'.channels == s.channels[c := ch] && s.nextCall <= s'.nextCall
    requires s.tasklets[t].blockedOn.None? || s.tasklets[t].blockedOn == Some(c)
    requires s.tasklets[u].blockedOn.None? || s.tasklets[u].blockedOn == Some(c)
    ensures Local(s, s', c, t, u) && s'.channels[c] == ch
    ensures s'.tasklets[t] == x' && (u != t ==> s'.tasklets[u] == y')
  {}

  lemma OneLocal(s: State, s': State, c: Cid, ch: Channel, t: Tid, x': Tasklet)
    requires s'.tasklets == s.tasklets[t := x'] && t in s.tasklets
    requires c in s.channels && s'.channels == s.channels[c := ch] && s.nextCall <= s'.nextCall
    requires s.tasklets[t].blockedOn.None? || s.tasklets[t].blockedOn == Some(c)
    ensures Local(s, s', c, t, t) && s'.channels[c] == ch && s'.tasklets[t] == x'
  {}

  // ---- Queue calls ----

  lemma CreateAgrees(s: State, t: Tid)
    requires Placed(s) && Agreed(s) && t !in s.tasklets
    ensures Agreed(Create(s, t)) && Agreed(Spawn(s, t))
  {
    OneQuiet(s, Create(s, t), t, FRESH);
    NoChannelChanged(s, Create(s, t));
    QuietAgrees(s, Create(s, t));
    InsertEffect(Create(s, t), t);
    PutTwice(s.tasklets, t, FRESH, QueuedRecord(FRESH));
    OneQuiet(s, Spawn(s, t), t, QueuedRecord(FRESH));
    NoChannelChanged(s, Spawn(s, t));
    QuietAgrees(s, Spawn(s, t));
  }

  lemma InsertAgrees(s: State, t: Tid)
    requires Placed(s) && Agreed(s) && t in s.tasklets
    ensures Agreed(InsertCall(s, t))
  {
    if s.tasklets[t].blockedOn.None? && s.tasklets[t].alive {
      InsertEffect(s, t);
      OneQuiet(s, Insert(s, t), t, QueuedRecord(s.tasklets[t]));
      NoChannelChanged(s, Insert(s, t));
      QuietAgrees(s, Insert(s, t));
    }
  }

  lemma RemoveAgrees(s: State, t: Tid)
    requires Placed(s) && Agreed(s) && t in s.tasklets
    ensures Agreed(RemoveCall(s, t))
  {
    if s.tasklets[t].scheduled {
      assert t in s.queue;
      OneQuiet(s, Remove(s, t), t, s.tasklets[t].(scheduled := false));
      NoChannelChanged(s, Remove(s, t));
      QuietAgrees(s, Remove(s, t));
    }
  }

  lemma RunQuiet(s: State, t: Tid)
    requires Shaped(s) && t in s.tasklets && t != MAIN && t != s.current && Free(s.tasklets[s.current])
    requires s.tasklets[t].alive && s.tasklets[t].blockedOn.None? && (s.tasklets[t].scheduled <==> t in s.queue)
    ensures var s' := RunTasklet(s, t);
            RecordsQuiet(s, s') && ChannelsQuiet(s, s') && s'.outcomes == s.outcomes && s'.nextCall == s.nextCall
  {
    RunEffect(s, t);
    RanQuietly(s, t, RunTasklet(s, t));
  }

  lemma RanQuietly(s: State, t: Tid, s': State)
    requires s.current in s.tasklets && t in s.tasklets && t != s.current && Free(s.tasklets[s.current])
    requires s'.channels == s.channels
    requires var (me, x, y) := (s.current, s.tasklets[s.current], s.tasklets[t]);
             s'.tasklets == s.tasklets[t := y.(scheduled := true)]
                                      [me := YieldRecord(x.(reschedule := FrontPlusOne), me == MAIN, InYield)]
    ensures RecordsQuiet(s, s') && ChannelsQuiet(s, s')
  {
    var (me, x, y) := (s.current, s.tasklets[s.current], s.tasklets[t]);
    var x1 := x.(reschedule := FrontPlusOne);
    YieldedFacts(x1, me == MAIN, InYield);
    TwoQuiet(s, s', me, YieldRecord(x1, me == MAIN, InYield), t, y.(scheduled := true));
    NoChannelChanged(s, s');
  }

  lemma RunAgrees(s: State, t: Tid)
    requires Placed(s) && Running(s) && Agreed(s) && t in s.tasklets && t != MAIN && t != s.current
    ensures Shaped(s) && Agreed(RunTasklet(s, t))
  {
    PlacedIsShaped(s);
    CurrentReady(s);
    var (me, x, y) := (s.current, s.tasklets[s.current], s.tasklets[t]);
    if y.alive && y.blockedOn.None? {
      RunQuiet(s, t);
      QuietAgrees(s, RunTasklet(s, t));
    }
  }

  lemma KillCancels(s: State, t: Tid, c: Cid)
    requires t in s.tasklets && c in s.channels && s.tasklets[t].blockedOn == Some(c) && !s.tasklets[t].scheduled
    requires s.tasklets[t].alive && !s.tasklets[t].killPending
    ensures Cancels(s, KillPending(s, t), c, t)
  {
    KillBlockedEffect(s, t, c);
  }

  lemma KillAgrees(s: State, t: Tid)
    requires Placed(s) && Agreed(s) && t in s.tasklets && t != MAIN
    ensures s.tasklets[t].blockedOn.Some? ==> s.tasklets[t].blockedOn.value in s.channels
    ensures Agreed(KillPending(s, t))
  {
    var x := s.tasklets[t];
    assert Directed(s, t) && TaskletOk(x, false, t == s.current);
    if x.alive && !x.killPending {
      if x.blockedOn.Some? {
        var c := x.blockedOn.value;
        KillCancels(s, t, c);
        CancelsKeeps(s, KillPending(s, t), c, t);
      } else {
        KillUnblockedEffect(s, t);
        OneQuiet(s, KillPending(s, t), t,
                 x.(scheduled := true, exception := true, reschedule := Stay, killPending := true));
        NoChannelChanged(s, KillPending(s, t));
        QuietAgrees(s, KillPending(s, t));
      }
    }
  }

  lemma ScheduleQuiet(s: State, remove: bool)
    requires Shaped(s) && Free(s.tasklets[s.current])
    ensures var s' := Schedule(s, remove);
            RecordsQuiet(s, s') && ChannelsQuiet(s, s') && s'.outcomes == s.outcomes && s'.nextCall == s.nextCall
  {
    var (me, x) := (s.current, s.tasklets[s.current]);
    var x' := if remove then x.(tagged := true) else x.(reschedule := Back);
    ScheduleEffect(s, remove);
    YieldedFacts(x', me == MAIN, InYield);
    OneQuiet(s, Schedule(s, remove), me, YieldRecord(x', me == MAIN, InYield));
    NoChannelChanged(s, Schedule(s, remove));
  }

  lemma ScheduleAgrees(s: State, remove: bool)
    requires Placed(s) && Running(s) && Agreed(s)
    ensures Shaped(s) && Agreed(Schedule(s, remove))
  {
    PlacedIsShaped(s);
    CurrentReady(s);
    ScheduleQuiet(s, remove);
    QuietAgrees(s, Schedule(s, remove));
  }

  lemma FinishAgrees(s: State)
    requires Placed(s) && Agreed(s) && s.current != MAIN
    ensures Agreed(Finish(s))
  {
    var (me, x) := (s.current, s.tasklets[s.current]);
    assert TaskletOk(x, false, true);
    FinishEffect(s);
    OneQuiet(s, Finish(s), me, EndRecord(x.(at := Finished)));
    NoChannelChanged(s, Finish(s));
    QuietAgrees(s, Finish(s));
  }

  // ---- Channel calls ----

  lemma ConfigureAgrees(s: State, c: Cid, ch: Channel)
    requires Placed(s) && Agreed(s)
    requires if c in s.channels then SameBook(s.channels[c], ch) else ch == NEW_CHANNEL
    ensures Agreed(PutChannel(s, c, ch))
  {
    assert s.tasklets[MAIN := s.tasklets[MAIN]] == s.tasklets;
    OneQuiet(s, PutChannel(s, c, ch), MAIN, s.tasklets[MAIN]);
    OneChannelQuiet(s, PutChannel(s, c, ch), c, ch);
    QuietAgrees(s, PutChannel(s, c, ch));
  }

  lemma CloseAgrees(s: State, c: Cid)
    requires Placed(s) && Agreed(s) && c in s.channels
    ensures Agreed(Close(s, c))
  {
    var ch := s.channels[c].(closing := true);
    PutChannelTwice(s.channels, c, ch, CloseIfDrained(ch));
    assert Close(s, c) == PutChannel(s, c, CloseIfDrained(ch));
    ConfigureAgrees(s, c, CloseIfDrained(ch));
  }

  lemma RefusedAgrees(s: State, c: Cid)
    requires Placed(s) && Running(s) && Agreed(s) && c in s.channels
    ensures Agreed(BeginCall(s)) && Agreed(ReceiveRefused(s, c))
  {
    CurrentReady(s);
    var (me, x) := (s.current, s.tasklets[s.current]);
    OneQuiet(s, BeginCall(s), me, x.(transferring := true));
    NoChannelChanged(s, BeginCall(s));
    QuietAgrees(s, BeginCall(s));
    ReceiveRefusedStruct(s, c);
    OneQuiet(s, ReceiveRefused(s, c), me, x.(transferring := false));
    NoChannelChanged(s, ReceiveRefused(s, c));
    QuietAgrees(s, ReceiveRefused(s, c));
  }

  lemma SendBlocksAgrees(s: State, c: Cid, m: Message)
    requires Placed(s) && Running(s) && Agreed(s) && c in s.channels
    ensures Agreed(SendBlocks(s, c, m))
  {
    CurrentReady(s);
    SendBlocksParks(s, c, m);
    SendParksKeeps(s, SendBlocks(s, c, m), c, s.current, m);
  }

  lemma SendBlocksParks(s: State, c: Cid, m: Message)
    requires s.current in s.tasklets && c in s.channels
    requires s.tasklets[s.current].blockedOn.None? && s.tasklets[s.current].at == Idle
    ensures SendParks(s, SendBlocks(s, c, m), c, s.current, m)
  {
    var (me, x) := (s.current, s.tasklets[s.current]);
    SendBlocksEffect(s, c, m);
    YieldedFacts(ParkedRecord(x, c, Sender, Some(m)), me == MAIN, InSend(c, s.nextCall));
    OneLocal(s, SendBlocks(s, c, m), c, WithSender(s.channels[c], me, s.nextCall, m), me,
             YieldRecord(ParkedRecord(x, c, Sender, Some(m)), me == MAIN, InSend(c, s.nextCall)));
  }

  lemma ReceiveBlocksAgrees(s: State, c: Cid)
    requires Placed(s) && Running(s) && Agreed(s) && c in s.channels
    ensures Agreed(ReceiveBlocks(s, c))
  {
    CurrentReady(s);
    ReceiveBlocksParks(s, c);
    ReceiveParksKeeps(s, ReceiveBlocks(s, c), c, s.current);
  }

  lemma ReceiveBlocksParks(s: State, c: Cid)
    requires s.current in s.tasklets && c in s.channels
    requires s.tasklets[s.current].blockedOn.None? && s.tasklets[s.current].at == Idle
    ensures ReceiveParks(s, ReceiveBlocks(s, c), c, s.current)
  {
    var (me, x) := (s.current, s.tasklets[s.current]);
    ReceiveBlocksEffect(s, c);
    YieldedFacts(ParkedRecord(x, c, Receiver, x.slot), me == MAIN, InReceive(c, s.nextCall));
    OneLocal(s, ReceiveBlocks(s, c), c, WithReceiver(s.channels[c], me, s.nextCall), me,
             YieldRecord(ParkedRecord(x, c, Receiver, x.slot), me == MAIN, InReceive(c, s.nextCall)));
  }

  /** The partner is the head of its list, and the other list is empty. */
  lemma MatchedLists(ch: Channel, logged: Channel, p: Tid, d: Direction)
    requires ChannelOk(ch) && logged.senders == ch.senders && logged.receivers == ch.receivers
    ensures ch.senders != [] && p == ch.senders[0] ==>
              MatchedChannel(logged, p, d).senders == ch.senders[1..] && MatchedChannel(logged, p, d).receivers == []
    ensures ch.receivers != [] && p == ch.receivers[0] ==>
              MatchedChannel(logged, p, d).receivers == ch.receivers[1..] && MatchedChannel(logged, p, d).senders == []
    ensures MatchedChannel(logged, p, d).sends == logged.sends
    ensures MatchedChannel(logged, p, d).receives == logged.receives
  {
    if ch.senders != [] && p == ch.senders[0] { WithoutAt(ch.senders, 0); }
    if ch.receivers != [] && p == ch.receivers[0] { WithoutAt(ch.receivers, 0); }
  }

  lemma YieldedFacts(x: Tasklet, isMain: bool, at: Suspension)
    ensures YieldRecord(x, isMain, at).at == at && YieldRecord(x, isMain, at).slot == x.slot
    ensures x.blockedOn.None? ==> YieldRecord(x, isMain, at).blockedOn.None?
  {}

  lemma PartnerFacts(y: Tasklet, m: Message)
    ensures ReceiverRecord(y, m).at == y.at == SenderRecord(y).at
    ensures ReceiverRecord(y, m).slot == Some(m) && ReceiverRecord(y, m).blockedOn.None?
  {}

  /** The new state, whatever becomes of the caller. */
  lemma Meets(s: State, s': State, c: Cid, m: Message, x': Tasklet)
    requires c in s.channels && s.channels[c].receivers != [] && ChannelOk(s.channels[c]) && s.current in s.tasklets
    requires s.tasklets[s.current].blockedOn.None? && s.tasklets[s.current].at == Idle && !HasCall(x'.at)
    requires var r := s.channels[c].receivers[0];
             && r in s.tasklets && r != s.current && s.tasklets[r].blockedOn == Some(c)
             && s'.tasklets == s.tasklets[r := ReceiverRecord(s.tasklets[r], m)][s.current := x']
             && s'.channels == s.channels[c := MatchedChannel(LoggedSend(s.channels[c], s.nextCall, m), r,
                                                              s.tasklets[r].direction)]
    requires s'.nextCall == s.nextCall + 1 && s'.outcomes == s.outcomes
    ensures SendMeets(s, s', c, s.current, s.channels[c].receivers[0], m)
  {
    var (me, r) := (s.current, s.channels[c].receivers[0]);
    var logged := LoggedSend(s.channels[c], s.nextCall, m);
    MatchedLists(s.channels[c], logged, r, s.tasklets[r].direction);
    PartnerFacts(s.tasklets[r], m);
    TwoLocal(s, s', c, MatchedChannel(logged, r, s.tasklets[r].direction), me, x', r, ReceiverRecord(s.tasklets[r], m));
  }

  lemma SendHandoffMeets(s: State, c: Cid, m: Message)
    requires Shaped(s) && c in s.channels && s.channels[c].receivers != [] && ChannelOk(s.channels[c])
    requires s.tasklets[s.current].blockedOn.None? && s.tasklets[s.current].at == Idle
    requires s.channels[c].preference == Receiver
    requires var r := s.channels[c].receivers[0];
             r in s.tasklets && r != s.current && s.tasklets[r].blockedOn == Some(c)
    ensures SendMeets(s, Send(s, c, m), c, s.current, s.channels[c].receivers[0], m)
  {
    var me := s.current;
    var x1 := s.tasklets[me].(transferring := true, reschedule := Back);
    SendHandsOffEffect(s, c, m);
    YieldedFacts(x1, me == MAIN, InSendHandoff(c));
    Meets(s, Send(s, c, m), c, m, YieldRecord(x1, me == MAIN, InSendHandoff(c)));
  }

  lemma SendOnwardMeets(s: State, c: Cid, m: Message)
    requires Shaped(s) && c in s.channels && s.channels[c].receivers != [] && ChannelOk(s.channels[c])
    requires s.tasklets[s.current].blockedOn.None? && s.tasklets[s.current].at == Idle
    requires s.channels[c].preference != Receiver
    requires var r := s.channels[c].receivers[0];
             r in s.tasklets && r != s.current && s.tasklets[r].blockedOn == Some(c)
    ensures SendMeets(s, Send(s, c, m), c, s.current, s.channels[c].receivers[0], m)
  {
    SendGoesOnEffect(s, c, m);
    Meets(s, Send(s, c, m), c, m, s.tasklets[s.current].(transferring := false));
  }

  lemma SendMatchedAgrees(s: State, c: Cid, m: Message)
    requires Placed(s) && Running(s) && Agreed(s) && c in s.channels && s.channels[c].receivers != []
    requires Shaped(s) && s.channels[c].receivers[0] in s.tasklets
    ensures Agreed(Send(s, c, m))
  {
    CurrentReady(s);
    WaitingReceiver(s, c);
    assert ChannelOk(s.channels[c]);
    if s.channels[c].preference == Receiver { SendHandoffMeets(s, c, m); } else { SendOnwardMeets(s, c, m); }
    SendMeetsKeeps(s, Send(s, c, m), c, s.current, s.channels[c].receivers[0], m);
  }

  lemma Takes(s: State, s': State, c: Cid, x': Tasklet)
    requires c in s.channels && s.channels[c].senders != [] && ChannelOk(s.channels[c]) && s.current in s.tasklets
    requires s.tasklets[s.current].blockedOn.None?
    requires var p := s.channels[c].senders[0];
             && p in s.tasklets && p != s.current && s.tasklets[p].blockedOn == Some(c)
             && s'.tasklets == s.tasklets[p := SenderRecord(s.tasklets[p])][s.current := x']
             && s'.channels == s.channels[c := MatchedChannel(LoggedReceive(s.channels[c], s.nextCall), p,
                                                              s.tasklets[p].direction)]
    requires s'.nextCall == s.nextCall + 1
    ensures var p := s.channels[c].senders[0];
            && Local(s, s', c, s.current, p) && SenderTaken(s.channels[c], s'.channels[c], p, s.nextCall)
            && s'.tasklets[p].at == s.tasklets[p].at && s'.tasklets[s.current] == x'
  {
    var (me, p) := (s.current, s.channels[c].senders[0]);
    var logged := LoggedReceive(s.channels[c], s.nextCall);
    MatchedLists(s.channels[c], logged, p, s.tasklets[p].direction);
    PartnerFacts(s.tasklets[p], Data(0));
    TwoLocal(s, s', c, MatchedChannel(logged, p, s.tasklets[p].direction), me, x', p, SenderRecord(s.tasklets[p]));
  }

  lemma ReceiveHandoffMeets(s: State, c: Cid)
    requires Shaped(s) && c in s.channels && s.channels[c].senders != [] && ChannelOk(s.channels[c])
    requires s.tasklets[s.current].blockedOn.None? && s.tasklets[s.current].at == Idle
    requires s.channels[c].preference == Sender
    requires var p := s.channels[c].senders[0]; p in s.tasklets && p != s.current && s.tasklets[p].blockedOn == Some(c)
    ensures ReceiveHandsOff(s, Receive(s, c), c, s.current, s.channels[c].senders[0])
  {
    var (me, p) := (s.current, s.channels[c].senders[0]);
    var x1 := s.tasklets[me].(transferring := true, slot := s.tasklets[p].slot, reschedule := Back);
    ReceiveHandsOffEffect(s, c);
    YieldedFacts(x1, me == MAIN, InReceiveHandoff(c, s.nextCall));
    Takes(s, Receive(s, c), c, YieldRecord(x1, me == MAIN, InReceiveHandoff(c, s.nextCall)));
  }

  lemma ReceiveOnwardMeets(s: State, c: Cid)
    requires Shaped(s) && c in s.channels && s.channels[c].senders != [] && ChannelOk(s.channels[c])
    requires s.tasklets[s.current].blockedOn.None? && s.tasklets[s.current].at == Idle
    requires s.channels[c].preference != Sender
    requires var p := s.channels[c].senders[0];
             p in s.tasklets && p != s.current && s.tasklets[p].blockedOn == Some(c) && s.tasklets[p].slot.Some?
    ensures ReceiveMeets(s, Receive(s, c), c, s.current, s.channels[c].senders[0])
  {
    ReceiveGoesOnEffect(s, c);
    Takes(s, Receive(s, c), c, s.tasklets[s.current].(transferring := false, slot := None, at := Idle));
  }

  lemma ReceiveMatchedAgrees(s: State, c: Cid)
    requires Placed(s) && Running(s) && Agreed(s) && c in s.channels && s.channels[c].senders != []
    requires Shaped(s) && s.channels[c].senders[0] in s.tasklets
    ensures Agreed(Receive(s, c))
  {
    CurrentReady(s);
    WaitingSender(s, c);
    var p := s.channels[c].senders[0];
    assert ChannelOk(s.channels[c]);
    if s.channels[c].preference == Sender {
      ReceiveHandoffMeets(s, c);
      ReceiveHandsOffKeeps(s, Receive(s, c), c, s.current, p);
    } else {
      ReceiveOnwardMeets(s, c);
      ReceiveMeetsKeeps(s, Receive(s, c), c, s.current, p);
    }
  }

  // ---- Resuming ----

  /** `s'` is `s` after the call of `t` has ended; `y` is the record of `t` at that moment. */
  ghost predicate Resumed(s: State, s': State, t: Tid, y: Tasklet, ok: bool) {
    && t in s.tasklets && var x := s.tasklets[t];
    && y.at == x.at && y.slot == x.slot && y.blockedOn == x.blockedOn && y.direction == x.direction
    && s'.tasklets == s.tasklets[t := ResumeRecord(y, ok)]
    && s'.nextCall == s.nextCall && s'.outcomes == ResumeOutcomes(s.outcomes, y, ok)
    && (if InChannelCall(x.at)
        then x.at.c in s.channels && s'.channels == s.channels[x.at.c := ResumeChannel(s.channels[x.at.c], y, t, ok)]
        else s'.channels == s.channels)
  }

  /** Leaving the lists of a channel without being on them changes nothing. */
  lemma NotOnLists(ch: Channel, x: Tasklet, t: Tid, ok: bool)
    requires t !in ch.senders && t !in ch.receivers && x.direction == Neither
    ensures SameBook(ch, ResumeChannel(ch, x, t, ok))
  {}

  lemma CallOver(x: Tasklet, ok: bool)
    ensures !HasCall(ResumeRecord(x, ok).at)
  {
    assert ResumeRecord(x, ok).at == if x.at == Finished then Finished else Idle;
  }

  lemma ResumePlainAgrees(s: State, s': State, t: Tid, y: Tasklet, ok: bool)
    requires ListsOk(s) && Agreed(s) && Resumed(s, s', t, y, ok) && SlotOk(y)
    requires !HasCall(y.at)
    ensures Agreed(s')
  {
    ResumePlainQuiet(s, s', t, y, ok);
    QuietAgrees(s, s');
  }

  /** The call of a tasklet that is not blocked and has received nothing. */
  lemma ResumeUnblockedAgrees(s: State, s': State, t: Tid, y: Tasklet, ok: bool)
    requires ListsOk(s) && Agreed(s) && Resumed(s, s', t, y, ok) && HasCall(y.at) && Free(y)
    requires y.at.InSend? || !ok
    requires !y.at.InReceiveHandoff?
    ensures Agreed(s')
  {
    assert Listed(s, y.at.c, t) && Directed(s, t);
    ResumeUnblockedQuiet(s, s', t, y, ok);
    QuietAgrees(s, s');
  }

  lemma ResumeSettles(s: State, s': State, t: Tid, y: Tasklet, ok: bool)
    requires Resumed(s, s', t, y, ok) && Arrived(y) && y.direction == Neither
    requires t !in s.channels[y.at.c].senders && t !in s.channels[y.at.c].receivers
    ensures Settles(s, s', y.at.c, t, if ok then Got(y.slot.value) else Lost)
  {
    CallOver(y, ok);
    NotOnLists(s.channels[y.at.c], y, t, ok);
    OneLocal(s, s', y.at.c, ResumeChannel(s.channels[y.at.c], y, t, ok), t, ResumeRecord(y, ok));
  }

  lemma ResumeCancels(s: State, s': State, t: Tid, y: Tasklet)
    requires Resumed(s, s', t, y, false) && SlotOk(y) && y.blockedOn.Some? && y.direction != Neither
    ensures Cancels(s, s', y.at.c, t)
  {
    CallOver(y, false);
    OneLocal(s, s', y.at.c, ResumeChannel(s.channels[y.at.c], y, t, false), t, ResumeRecord(y, false));
  }

  lemma ResumePlainQuiet(s: State, s': State, t: Tid, y: Tasklet, ok: bool)
    requires Resumed(s, s', t, y, ok) && SlotOk(y) && !HasCall(y.at)
    ensures RecordsQuiet(s, s') && ChannelsQuiet(s, s') && s'.outcomes == s.outcomes
  {
    CallOver(y, ok);
    OneQuiet(s, s', t, ResumeRecord(y, ok));
    if InChannelCall(y.at) {
      OneChannelQuiet(s, s', y.at.c, ResumeChannel(s.channels[y.at.c], y, t, ok));
    } else {
      NoChannelChanged(s, s');
    }
  }

  lemma ResumeUnblockedQuiet(s: State, s': State, t: Tid, y: Tasklet, ok: bool)
    requires Resumed(s, s', t, y, ok) && HasCall(y.at) && Free(y) && y.direction == Neither
    requires (y.at.InSend? || !ok) && !y.at.InReceiveHandoff?
    requires t !in s.channels[y.at.c].senders && t !in s.channels[y.at.c].receivers
    ensures RecordsQuiet(s, s') && ChannelsQuiet(s, s') && s'.outcomes == s.outcomes
  {
    var c := y.at.c;
    NotOnLists(s.channels[c], y, t, ok);
    CallOver(y, ok);
    OneQuiet(s, s', t, ResumeRecord(y, ok));
    OneChannelQuiet(s, s', c, ResumeChannel(s.channels[c], y, t, ok));
  }

  lemma ResumeArrivedAgrees(s: State, s': State, t: Tid, y: Tasklet, ok: bool)
    requires ListsOk(s) && Agreed(s) && Resumed(s, s', t, y, ok) && Arrived(y)
    ensures Agreed(s')
  {
    var c := y.at.c;
    assert Listed(s, c, t) && Directed(s, t);
    ResumeSettles(s, s', t, y, ok);
    SettlesKeeps(s, s', c, t, if ok then Got(y.slot.value) else Lost);
  }

  /** Only the main tasklet can be resumed while blocked, when its call fails. */
  lemma ResumeBlockedAgrees(s: State, s': State, t: Tid, y: Tasklet)
    requires ListsOk(s) && ChannelsOk(s) && Agreed(s) && Resumed(s, s', t, y, false) && SlotOk(y) && y.blockedOn.Some?
    ensures Agreed(s')
  {
    assert Directed(s, t);
    ResumeCancels(s, s', t, y);
    CancelsKeeps(s, s', y.at.c, t);
  }

  lemma ResumedAgrees(s: State, s': State, t: Tid, y: Tasklet, ok: bool)
    requires ListsOk(s) && ChannelsOk(s) && Agreed(s) && Resumed(s, s', t, y, ok) && SlotOk(s.tasklets[t])
    requires ok ==> y.blockedOn.None? && !s.tasklets[t].exception
    ensures Agreed(s')
  {
    if y.blockedOn.Some? {
      assert SlotOk(y);
      ResumeBlockedAgrees(s, s', t, y);
    } else if Arrived(y) {
      ResumeArrivedAgrees(s, s', t, y, ok);
    } else if HasCall(y.at) {
      ResumeUnblockedAgrees(s, s', t, y, ok);
    } else {
      assert SlotOk(y);
      ResumePlainAgrees(s, s', t, y, ok);
    }
  }

  lemma SwitchAgrees(s: State, t: Tid)
    requires Placed(s) && Agreed(s) && t in s.queue && t != MAIN && s.current == MAIN
    ensures t in s.tasklets && (InChannelCall(s.tasklets[t].at) ==> s.tasklets[t].at.c in s.channels)
    ensures Agreed(Switch(s, t))
  {
    Switchable(s, t);
    var x := s.tasklets[t];
    if !x.started && x.exception {
      StillbornEffect(s, t);
      OneQuiet(s, Switch(s, t), t, EndRecord(x.(alive := false, at := Finished)));
      NoChannelChanged(s, Switch(s, t));
      QuietAgrees(s, Switch(s, t));
    } else {
      SwitchEffect(s, t);
      ResumedAgrees(s, Switch(s, t), t, x.(started := true, exception := false), !x.exception);
    }
  }

  lemma MainReturnAgrees(s: State, ok: bool)
    requires Placed(s) && Agreed(s) && s.current == MAIN && (ok ==> s.tasklets[MAIN].blockedOn.None?)
    ensures InChannelCall(s.tasklets[MAIN].at) ==> s.tasklets[MAIN].at.c in s.channels
    ensures Agreed(Resume(s, MAIN, ok))
  {
    assert TaskletOk(s.tasklets[MAIN], true, true);
    ResumeEffect(s, MAIN, ok);
    ResumedAgrees(s, Resume(s, MAIN, ok), MAIN, s.tasklets[MAIN], ok);
  }

  // ---- Every step ----

  lemma TransferAgrees(s: State, a: Action)
    requires Placed(s) && Allowed(s, a) && Agreed(s) && IsTransfer(a)
    ensures Agreed(TransferAct(s, a))
  {
    PlacedIsShaped(s);
    var ch := s.channels[a.c];
    if a.DoSend? {
      if ch.receivers != [] { SendMatchedAgrees(s, a.c, a.m); }
      else if ch.closed || ch.closing { RefusedAgrees(s, a.c); }
      else { SendBlocksAgrees(s, a.c, a.m); }
    } else {
      if ch.senders != [] { ReceiveMatchedAgrees(s, a.c); }
      else if ch.closed || ch.closing { RefusedAgrees(s, a.c); }
      else { ReceiveBlocksAgrees(s, a.c); }
    }
  }

  lemma QueueAgrees(s: State, a: Action)
    requires Placed(s) && Allowed(s, a) && Agreed(s) && IsQueueCall(a)
    ensures Agreed(QueueAct(s, a))
  {
    match a
    case DoCreate(t) => CreateAgrees(s, t);
    case DoSpawn(t) => CreateAgrees(s, t);
    case DoInsert(t) => InsertAgrees(s, t);
    case DoRemove(t) => RemoveAgrees(s, t);
    case DoRun(t) => RunAgrees(s, t);
    case DoKill(t) => KillAgrees(s, t);
  }

  lemma ChannelAgrees(s: State, a: Action)
    requires Placed(s) && Allowed(s, a) && Agreed(s) && IsChannelCall(a)
    ensures Agreed(ChannelAct(s, a))
  {
    match a
    case DoNewChannel(c) => ConfigureAgrees(s, c, NEW_CHANNEL);
    case DoClose(c) => CloseAgrees(s, c);
    case DoOpen(c) => ConfigureAgrees(s, c, s.channels[c].(closing := false, closed := false));
    case DoPrefer(c, d) => ConfigureAgrees(s, c, s.channels[c].(preference := d));
  }

  lemma LoopAgrees(s: State, a: Action)
    requires Placed(s) && Allowed(s, a) && Agreed(s) && !IsQueueCall(a) && !IsTransfer(a) && !IsChannelCall(a)
    ensures Agreed(LoopAct(s, a))
  {
    match a
    case DoSchedule => ScheduleAgrees(s, false);
    case DoScheduleRemove => ScheduleAgrees(s, true);
    case DoFinish => FinishAgrees(s);
    case DoSwitch(t) => SwitchAgrees(s, t);
    case DoMainReturn(ok) => MainReturnAgrees(s, ok);
  }

  lemma ActAgrees(s: State, a: Action)
    requires Placed(s) && Allowed(s, a) && Agreed(s)
    ensures Agreed(Act(s, a))
  {
    if IsQueueCall(a) { QueueAgrees(s, a); }
    else if IsTransfer(a) { TransferAgrees(s, a); }
    else if IsChannelCall(a) { ChannelAgrees(s, a); }
    else { LoopAgrees(s, a); }
  }

  lemma {:induction false} RunAgreedThroughout(run: seq<State>, log: seq<Action>, i: nat)
    requires IsRun(run, log) && i < |run|
    ensures Agreed(run[i])
    decreases |run|
  {
    if log != [] {
      var (run0, log0) := (run[..|run| - 1], log[..|log| - 1]);
      if i < |run| - 1 {
        RunAgreedThroughout(run0, log0, i);
      } else {
        RunAgreedThroughout(run0, log0, |run| - 2);
        ActAgrees(run[|run| - 2], log[|log| - 1]);
      }
    }
  }
}
