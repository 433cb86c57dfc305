/** Every step in scope keeps the placement invariant. */
module SchedulerSteps {
  import opened Options
  import opened Flags
  import opened Lists
  import opened Scheduler
  import opened SchedulerInvariant
  import opened SchedulerLists

  // ---- Structure: the lists and the flags, operation by operation ----

  lemma BeginCallStruct(s: State)
    requires Struct(s)
    ensures Struct(BeginCall(s))
  {
    var x := s.tasklets[s.current].(transferring := true);
    PutStruct(s, s.current, x);
    BooksStruct(Put(s, s.current, x), s.nextCall + 1, s.outcomes);
  }

  lemma LogStruct(s: State, c: Cid, call: Call, m: Message)
    requires Struct(s) && c in s.channels
    ensures Struct(LogSend(s, c, call, m)) && Struct(LogReceive(s, c, call))
  {
    var ch := s.channels[c];
    assert ChannelOk(ch);
    PutChannelStruct(s, c, ch.(sends := ch.sends + [SendCall(call, m)]));
    PutChannelStruct(s, c, ch.(receives := ch.receives + [call]));
  }

  lemma SendBlocksStruct(s: State, c: Cid, m: Message)
    requires Struct(s) && c in s.channels && s.tasklets[s.current].blockedOn.None?
    requires s.current != MAIN ==> s.tasklets[s.current].reschedule == Stay
    requires s.channels[c].receivers == [] && !s.channels[c].closed
    ensures Struct(SendBlocks(s, c, m))
  {
    var me := s.current;
    BeginCallStruct(s);
    LogStruct(BeginCall(s), c, s.nextCall, m);
    var s1 := LogSend(BeginCall(s), c, s.nextCall, m);
    ParkStruct(s1, c, Sender, me);
    var s2 := Block(Add(s1, c, Sender, me), c, me);
    PutStruct(s2, me, s2.tasklets[me].(slot := Some(m)));
    YieldStruct(Put(s2, me, s2.tasklets[me].(slot := Some(m))), InSend(c, s.nextCall));
  }

  lemma SendMatchesStruct(s: State, c: Cid, m: Message)
    requires Struct(s) && c in s.channels
    requires s.channels[c].receivers != []
    ensures s.channels[c].receivers[0] in s.tasklets
    ensures Struct(SendMatches(s, c, m))
  {
    var r := s.channels[c].receivers[0];
    assert Listed(s, c, r);
    BeginCallStruct(s);
    LogStruct(BeginCall(s), c, s.nextCall, m);
    var s1 := LogSend(BeginCall(s), c, s.nextCall, m);
    UnparkStruct(s1, c, r);
    var s2 := Unblock(RemoveBlocked(s1, c, r), r);
    PutStruct(s2, r, s2.tasklets[r].(slot := Some(m)));
    UpdateCloseStruct(Put(s2, r, s2.tasklets[r].(slot := Some(m))), c);
  }

  lemma HandOffStruct(s: State, partner: Tid, at: Suspension)
    requires Struct(s) && partner in s.tasklets && partner != s.current
    requires s.tasklets[partner].blockedOn.None?
    requires s.current != MAIN ==> s.tasklets[s.current].blockedOn.None?
    ensures Struct(HandOff(s, partner, at))
  {
    InsertNextStruct(s, partner);
    var s1 := InsertNext(s, partner);
    PutStruct(s1, s.current, s1.tasklets[s.current].(reschedule := Back));
    YieldStruct(Put(s1, s.current, s1.tasklets[s.current].(reschedule := Back)), at);
  }

  lemma SendContinuesStruct(s: State, c: Cid)
    requires Struct(s) && c in s.channels
    ensures Struct(SendContinues(s, c))
  {
    PutStruct(s, s.current, s.tasklets[s.current].(transferring := false));
    UpdateCloseStruct(Put(s, s.current, s.tasklets[s.current].(transferring := false)), c);
  }

  lemma AddedThenOff(ch: Channel, t: Tid)
    requires t !in ch.senders && t !in ch.receivers
    ensures OffLists(ch.(receivers := ch.receivers + [t], balance := ch.balance - 1), t, Receiver) == ch
  {
    AddThenRemove(ch.receivers, t);
  }

  lemma SameEntry(m: map<Cid, Channel>, c: Cid, ch: Channel)
    requires c in m
    ensures m[c := ch][c := m[c]] == m
  {}

  lemma SameRecord(m: map<Tid, Tasklet>, t: Tid, x: Tasklet)
    requires t in m
    ensures m[t := x][t := m[t]] == m
  {}

  lemma OffAgain(s: State, c: Cid, t: Tid, ch1: Channel, x1: Tasklet)
    requires t in s.tasklets && c in s.channels && OffLists(ch1, t, x1.direction) == s.channels[c]
    requires x1.(direction := Neither) == s.tasklets[t]
    ensures RemoveBlocked(s.(tasklets := s.tasklets[t := x1], channels := s.channels[c := ch1]), c, t) == s
  {
    SameEntry(s.channels, c, ch1);
    SameRecord(s.tasklets, t, x1);
  }

  /** Listing the caller and taking it off again leaves no trace on the channel. */
  lemma ListedAndOff(s: State, c: Cid, t: Tid)
    requires t in s.tasklets && c in s.channels
    requires t !in s.channels[c].senders && t !in s.channels[c].receivers && s.tasklets[t].direction == Neither
    ensures RemoveBlocked(Add(s, c, Receiver, t), c, t) == s
  {
    var (ch, x) := (s.channels[c], s.tasklets[t]);
    var (ch1, x1) := (ch.(receivers := ch.receivers + [t], balance := ch.balance - 1), x.(direction := Receiver));
    var s1 := Add(s, c, Receiver, t);
    assert s1 == s.(tasklets := s.tasklets[t := x1], channels := s.channels[c := ch1]);
    AddedThenOff(ch, t);
    OffAgain(s, c, t, ch1, x1);
  }

  lemma ReceiveRefusedEffect(s: State, c: Cid)
    requires s.current in s.tasklets && c in s.channels
    requires s.current !in s.channels[c].senders && s.current !in s.channels[c].receivers
    requires s.tasklets[s.current].direction == Neither
    ensures ReceiveRefused(s, c)
         == Put(s, s.current, s.tasklets[s.current].(transferring := false)).(nextCall := s.nextCall + 1)
  {
    ListedAndOff(BeginCall(s), c, s.current);
    var x := s.tasklets[s.current].(transferring := false);
    assert BeginCall(s).tasklets[s.current := x] == s.tasklets[s.current := x];
  }

  lemma ReceiveRefusedStruct(s: State, c: Cid)
    requires Struct(s) && c in s.channels && s.tasklets[s.current].blockedOn.None?
    ensures Struct(ReceiveRefused(s, c))
    ensures ReceiveRefused(s, c)
         == Put(s, s.current, s.tasklets[s.current].(transferring := false)).(nextCall := s.nextCall + 1)
  {
    var x := s.tasklets[s.current].(transferring := false);
    assert Listed(s, c, s.current) && Directed(s, s.current);
    ReceiveRefusedEffect(s, c);
    PutStruct(s, s.current, x);
    BooksStruct(Put(s, s.current, x), s.nextCall + 1, s.outcomes);
  }

  lemma AddThenRemove(list: seq<Tid>, t: Tid)
    requires t !in list
    ensures Without(list + [t], t) == list
  {
    var k := IndexOf(list + [t], t);
    assert (list + [t])[k] == t;
    assert k == |list|;
  }

  lemma ReceiveBlocksStruct(s: State, c: Cid)
    requires Struct(s) && c in s.channels && s.tasklets[s.current].blockedOn.None?
    requires s.current != MAIN ==> s.tasklets[s.current].reschedule == Stay
    requires s.channels[c].senders == [] && !s.channels[c].closed
    ensures Struct(ReceiveBlocks(s, c))
  {
    BeginCallStruct(s);
    LogStruct(BeginCall(s), c, s.nextCall, Data(0));
    var s1 := LogReceive(BeginCall(s), c, s.nextCall);
    ParkStruct(s1, c, Receiver, s.current);
    YieldStruct(Block(Add(s1, c, Receiver, s.current), c, s.current), InReceive(c, s.nextCall));
  }

  lemma ReceiveMatchesStruct(s: State, c: Cid)
    requires Struct(s) && c in s.channels
    requires s.channels[c].senders != []
    ensures s.channels[c].senders[0] in s.tasklets
    ensures Struct(ReceiveMatches(s, c))
  {
    var p := s.channels[c].senders[0];
    assert Listed(s, c, p);
    BeginCallStruct(s);
    LogStruct(BeginCall(s), c, s.nextCall, Data(0));
    var s1 := LogReceive(BeginCall(s), c, s.nextCall);
    UnparkStruct(s1, c, p);
    var s2 := Unblock(RemoveBlocked(s1, c, p), p);
    var x := s2.tasklets[p].(transferring := false, slot := None);
    PutStruct(s2, p, x);
    var s3 := Put(s2, p, x);
    var y := s3.tasklets[s.current].(slot := s2.tasklets[p].slot);
    PutStruct(s3, s.current, y);
    UpdateCloseStruct(Put(s3, s.current, y), c);
  }

  lemma DeliverStruct(s: State, c: Cid, t: Tid, call: Call)
    requires Struct(s) && t in s.tasklets && c in s.channels
    ensures Struct(Deliver(s, c, t, call))
  {
    var x := s.tasklets[t];
    var x' := x.(transferring := false, slot := None, at := Idle);
    PutStruct(s, t, x');
    if x.slot.Some? {
      BooksStruct(Put(s, t, x'), s.nextCall, s.outcomes[call := Got(x.slot.value)]);
      UpdateCloseStruct(Put(s, t, x').(outcomes := s.outcomes[call := Got(x.slot.value)]), c);
    }
  }

  lemma CancelStruct(s: State, c: Cid, t: Tid)
    requires Struct(s) && t in s.tasklets && c in s.channels
    ensures Struct(Cancel(s, c, t))
  {
    assert ChannelOk(s.channels[c]);
    PutChannelStruct(s, c, CancelCall(s.channels[c], s.tasklets[t].at));
  }

  lemma AbandonAsUnpark(s: State, c: Cid, t: Tid)
    requires t in s.tasklets && c in s.channels
    ensures var s0 := if s.tasklets[t].direction != Neither then Cancel(s, c, t) else s;
            var s1 := Unblock(RemoveBlocked(s0, c, t), t);
            && t in s1.tasklets && c in s1.channels
            && Abandon(s, c, t)
               == UpdateClose(Put(s1, t, s1.tasklets[t].(transferring := false, slot := None, at := Idle)), c)
  {
    var s0 := if s.tasklets[t].direction != Neither then Cancel(s, c, t) else s;
    var s1 := RemoveBlocked(s0, c, t);
    var s1' := Unblock(s1, t);
    var x := s1.tasklets[t].(transferring := false, slot := None, blockedOn := None, at := Idle);
    assert Put(s1', t, x).tasklets == Put(s1, t, x).tasklets;
  }

  lemma FinishCallStruct(s: State, c: Cid, t: Tid)
    requires Struct(s) && t in s.tasklets && c in s.channels
    ensures Struct(UpdateClose(Put(s, t, s.tasklets[t].(transferring := false, slot := None, at := Idle)), c))
  {
    var x := s.tasklets[t].(transferring := false, slot := None, at := Idle);
    PutStruct(s, t, x);
    UpdateCloseStruct(Put(s, t, x), c);
  }

  lemma AbandonStruct(s: State, c: Cid, t: Tid)
    requires Struct(s) && t in s.tasklets && c in s.channels
    requires s.tasklets[t].blockedOn == Some(c) || s.tasklets[t].blockedOn.None?
    ensures Struct(Abandon(s, c, t))
  {
    AbandonAsUnpark(s, c, t);
    if s.tasklets[t].direction != Neither {
      CancelStruct(s, c, t);
      UnparkStruct(Cancel(s, c, t), c, t);
      FinishCallStruct(Unblock(RemoveBlocked(Cancel(s, c, t), c, t), t), c, t);
    } else {
      UnparkStruct(s, c, t);
      FinishCallStruct(Unblock(RemoveBlocked(s, c, t), t), c, t);
    }
  }

  lemma PutAndCloseStruct(s: State, c: Cid, t: Tid, x: Tasklet)
    requires Struct(s) && t in s.tasklets && c in s.channels && x.scheduled == s.tasklets[t].scheduled
    requires x.blockedOn == s.tasklets[t].blockedOn && x.direction == s.tasklets[t].direction
    ensures Struct(UpdateClose(Put(s, t, x), c))
  {
    PutStruct(s, t, x);
    UpdateCloseStruct(Put(s, t, x), c);
  }

  lemma MarkLostStruct(s: State, t: Tid, call: Call)
    requires Struct(s) && t in s.tasklets
    ensures Struct(MarkLost(s, t, call))
  {
    BooksStruct(s, s.nextCall, s.outcomes[call := Lost]);
  }

  lemma ReceiveFailsStruct(s: State, c: Cid, t: Tid, call: Call)
    requires Struct(s) && t in s.tasklets && c in s.channels
    requires s.tasklets[t].blockedOn == Some(c) || s.tasklets[t].blockedOn.None?
    ensures Struct(Abandon(MarkLost(s, t, call), c, t))
    ensures Struct(UpdateClose(Put(MarkLost(s, t, call), t, s.tasklets[t].(at := Idle)), c))
  {
    MarkLostStruct(s, t, call);
    AbandonStruct(MarkLost(s, t, call), c, t);
    PutAndCloseStruct(MarkLost(s, t, call), c, t, s.tasklets[t].(at := Idle));
  }

  lemma ResumeSendStruct(s: State, t: Tid, ok: bool)
    requires Struct(s) && t in s.tasklets && (s.tasklets[t].at.InSend? || s.tasklets[t].at.InSendHandoff?)
    requires s.tasklets[t].at.c in s.channels
    requires s.tasklets[t].blockedOn == Some(s.tasklets[t].at.c) || s.tasklets[t].blockedOn.None?
    ensures Struct(Resume(s, t, ok))
  {
    var x := s.tasklets[t];
    if x.at.InSend? {
      if ok {
        PutAndCloseStruct(s, x.at.c, t, x.(transferring := false, at := Idle));
      } else {
        AbandonStruct(s, x.at.c, t);
      }
    } else {
      PutAndCloseStruct(s, x.at.c, t, x.(transferring := x.transferring && !ok, at := Idle));
    }
  }

  lemma ResumeReceiveStruct(s: State, t: Tid, ok: bool)
    requires Struct(s) && t in s.tasklets && (s.tasklets[t].at.InReceive? || s.tasklets[t].at.InReceiveHandoff?)
    requires s.tasklets[t].at.c in s.channels
    requires s.tasklets[t].blockedOn == Some(s.tasklets[t].at.c) || s.tasklets[t].blockedOn.None?
    ensures Struct(Resume(s, t, ok))
  {
    var at := s.tasklets[t].at;
    if ok { DeliverStruct(s, at.c, t, at.call); } else { ReceiveFailsStruct(s, at.c, t, at.call); }
  }

  lemma ResumeStruct(s: State, t: Tid, ok: bool)
    requires Struct(s) && t in s.tasklets
    requires InChannelCall(s.tasklets[t].at) ==> s.tasklets[t].at.c in s.channels
    requires InChannelCall(s.tasklets[t].at) ==>
               s.tasklets[t].blockedOn == Some(s.tasklets[t].at.c) || s.tasklets[t].blockedOn.None?
    ensures Struct(Resume(s, t, ok))
  {
    var at := s.tasklets[t].at;
    if at.InSend? || at.InSendHandoff? {
      ResumeSendStruct(s, t, ok);
    } else if at.InReceive? || at.InReceiveHandoff? {
      ResumeReceiveStruct(s, t, ok);
    } else if at.InYield? {
      PutStruct(s, t, s.tasklets[t].(at := Idle));
    }
  }

  lemma RunTaskletStruct(s: State, t: Tid)
    requires Struct(s) && t in s.tasklets && t != MAIN && t != s.current
    requires s.current != MAIN ==> s.tasklets[s.current].blockedOn.None?
    ensures Struct(RunTasklet(s, t))
  {
    if s.tasklets[t].alive && s.tasklets[t].blockedOn.None? {
      RemoveStruct(s, t);
      var s1 := if s.tasklets[t].scheduled then Remove(s, t) else s;
      InsertNextStruct(s1, t);
      var s2 := InsertNext(s1, t);
      PutStruct(s2, s.current, s2.tasklets[s.current].(reschedule := FrontPlusOne));
      YieldStruct(Put(s2, s.current, s2.tasklets[s.current].(reschedule := FrontPlusOne)), InYield);
    }
  }

  /** Queueing and flagging the killed tasklet, before it is taken off its list. */
  function Killed(s: State, t: Tid): State
    requires t in s.tasklets
  {
    var s1 := Put(s, t, s.tasklets[t].(blockedOn := None, exception := true));
    var s2 := Insert(s1, t);
    Put(s2, t, s2.tasklets[t].(reschedule := Stay, killPending := true))
  }

  lemma KilledEffect(s: State, t: Tid)
    requires t in s.tasklets && !s.tasklets[t].scheduled
    ensures Killed(s, t) == s.(
              tasklets := s.tasklets[t := s.tasklets[t].(blockedOn := None, scheduled := true,
                                             exception := true, reschedule := Stay, killPending := true)],
              queue := s.queue + [t])
  {
    var x := s.tasklets[t].(blockedOn := None, scheduled := true, exception := true, reschedule := Stay,
                            killPending := true);
    assert Killed(s, t).tasklets == s.tasklets[t := x];
  }

  lemma CancelOffEffect(s: State, c: Cid, t: Tid)
    requires t in s.tasklets && c in s.channels
    ensures var x := s.tasklets[t];
            RemoveBlocked(Cancel(s, c, t), c, t) == s.(
              tasklets := s.tasklets[t := x.(direction := Neither)],
              channels := s.channels[c := OffLists(CancelCall(s.channels[c], x.at), t, x.direction)])
  {
    var r := RemoveBlocked(Cancel(s, c, t), c, t);
    var ch := r.channels[c];
    assert r.channels == s.channels[c := ch];
  }

  /** The state after the kill of a tasklet blocked on `c`. */
  lemma KillBlockedEffect(s: State, t: Tid, c: Cid)
    requires t in s.tasklets && c in s.channels && s.tasklets[t].blockedOn == Some(c) && !s.tasklets[t].scheduled
    requires s.tasklets[t].alive && !s.tasklets[t].killPending
    ensures var x := s.tasklets[t];
            KillPending(s, t) == s.(
              tasklets := s.tasklets[t := x.(blockedOn := None, scheduled := true, direction := Neither,
                                             exception := true, reschedule := Stay, killPending := true)],
              queue := s.queue + [t],
              channels := s.channels[c := OffLists(CancelCall(s.channels[c], x.at), t, x.direction)])
  {
    assert KillPending(s, t) == RemoveBlocked(Cancel(Killed(s, t), c, t), c, t);
    KilledEffect(s, t);
    CancelOffEffect(Killed(s, t), c, t);
    var x := s.tasklets[t].(blockedOn := None, scheduled := true, direction := Neither,
                            exception := true, reschedule := Stay, killPending := true);
    assert Killed(s, t).tasklets[t := x] == s.tasklets[t := x];
  }

  /** The same state, reached by taking the tasklet off its list, queueing it and flagging it. */
  lemma UnparkThenQueueEffect(s: State, t: Tid, c: Cid)
    requires t in s.tasklets && c in s.channels && s.tasklets[t].blockedOn == Some(c) && !s.tasklets[t].scheduled
    ensures var x := s.tasklets[t];
            var s1 := Unblock(RemoveBlocked(Cancel(s, c, t), c, t), t);
            && t in s1.tasklets && t in Insert(s1, t).tasklets
            && var y := Insert(s1, t).tasklets[t].(exception := true, reschedule := Stay, killPending := true);
            Put(Insert(s1, t), t, y) == s.(
              tasklets := s.tasklets[t := x.(blockedOn := None, scheduled := true, direction := Neither,
                                             exception := true, reschedule := Stay, killPending := true)],
              queue := s.queue + [t],
              channels := s.channels[c := OffLists(CancelCall(s.channels[c], x.at), t, x.direction)])
  {
    var x := s.tasklets[t];
    var s0 := Cancel(s, c, t);
    var s1 := Unblock(RemoveBlocked(s0, c, t), t);
    assert s1.tasklets[t] == x.(direction := Neither, blockedOn := None);
    var ch' := s1.channels[c];
    assert s1.channels == s.channels[c := ch'];
    var s2 := Insert(s1, t);
    var y := s2.tasklets[t].(exception := true, reschedule := Stay, killPending := true);
    assert Put(s2, t, y).tasklets == s.tasklets[t := y];
  }

  lemma KillStruct(s: State, t: Tid)
    requires Struct(s) && t in s.tasklets
    requires s.tasklets[t].blockedOn.Some? ==> !s.tasklets[t].scheduled
    requires s.tasklets[t].blockedOn.Some? ==> s.tasklets[t].blockedOn.value in s.channels
    ensures Struct(KillPending(s, t))
  {
    var x := s.tasklets[t];
    if x.alive && !x.killPending {
      if x.blockedOn.Some? {
        var c := x.blockedOn.value;
        CancelStruct(s, c, t);
        UnparkStruct(Cancel(s, c, t), c, t);
        var s1 := Unblock(RemoveBlocked(Cancel(s, c, t), c, t), t);
        InsertStruct(s1, t);
        var s2 := Insert(s1, t);
        PutStruct(s2, t, s2.tasklets[t].(exception := true, reschedule := Stay, killPending := true));
        KillBlockedEffect(s, t, c);
        UnparkThenQueueEffect(s, t, c);
      } else {
        PutStruct(s, t, x.(blockedOn := None, exception := true));
        var s1 := Put(s, t, x.(blockedOn := None, exception := true));
        InsertStruct(s1, t);
        var s2 := Insert(s1, t);
        PutStruct(s2, t, s2.tasklets[t].(reschedule := Stay, killPending := true));
      }
    }
  }
}
