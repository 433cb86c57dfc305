/** What one step does to one channel: to its history and, while it is closing, to its lists. */
module ChannelSteps {
  import opened Options
  import opened Flags
  import opened Lists
  import opened Scheduler
  import opened SchedulerInvariant
  import opened SchedulerSteps
  import opened SchedulerEffects
  import opened SchedulerPlacement
  import opened Rendezvous
  import opened RendezvousSteps

  /** The call is turned away because it would block on a closing channel. */
  predicate Refused(ch: Channel, a: Action) {
    && (ch.closed || ch.closing)
    && ((a.DoSend? && ch.receivers == []) || (a.DoReceive? && ch.senders == []))
  }

  /** The blocked tasklet whose call the step cancels: the victim of a pending kill, or the main
      tasklet when its blocking call fails. */
  function CancelledBy(s: State, a: Action): Option<Tid> {
    match a
    case DoKill(t) =>
      if t in s.tasklets && s.tasklets[t].blockedOn.Some? && s.tasklets[t].alive && !s.tasklets[t].killPending
      then Some(t) else None
    case DoMainReturn(ok) => if !ok && MAIN in s.tasklets && s.tasklets[MAIN].blockedOn.Some? then Some(MAIN) else None
    case _ => None
  }

  /** The histories grow by the calls made on this channel and lose the calls cancelled on it; the
      lists change only together with them. */
  predicate HistoryMoves(s: State, a: Action, c: Cid, ch: Channel, ch': Channel) {
    var victim := CancelledBy(s, a);
    if a.DoSend? && a.c == c && !Refused(ch, a) then
      ch'.sends == ch.sends + [SendCall(s.nextCall, a.m)] && ch'.receives == ch.receives
    else if a.DoReceive? && a.c == c && !Refused(ch, a) then
      ch'.sends == ch.sends && ch'.receives == ch.receives + [s.nextCall]
    else if victim.Some? && victim.value in s.tasklets && s.tasklets[victim.value].blockedOn == Some(c) then
      var x := s.tasklets[victim.value];
      SameBook(OffLists(CancelCall(ch, x.at), victim.value, x.direction), ch')
    else SameBook(ch, ch')
  }

  ghost predicate Shrinks(a: seq<Tid>, b: seq<Tid>) {
    |b| <= |a| && forall t :: t in b ==> t in a
  }

  /** A closing channel stays so and nobody joins its lists. */
  ghost predicate Draining(a: Action, c: Cid, ch: Channel, ch': Channel) {
    ch.closing && a != DoOpen(c) ==>
      && ch'.closing && (ch.closed ==> ch'.closed)
      && Shrinks(ch.senders, ch'.senders) && Shrinks(ch.receivers, ch'.receivers)
  }

  /** The end of a call on `c` lets the channel close, unless it is a receive that returns a value. */
  predicate EndCloses(x: Tasklet, ok: bool, c: Cid) {
    && InChannelCall(x.at) && x.at.c == c
    && (x.at.InSend? || x.at.InSendHandoff? || !ok || (x.slot.Some? && x.slot.value.Raise?))
  }

  /** The steps after which a closing channel that nobody is blocked on becomes closed. */
  predicate MayClose(s: State, a: Action, c: Cid)
    requires c in s.channels
  {
    match a
    case DoClose(b) => b == c
    case DoSend(b, _) => b == c && s.channels[c].receivers != []
    case DoReceive(b) => b == c && s.channels[c].senders != []
    case DoSwitch(t) => t in s.tasklets && EndCloses(s.tasklets[t], !s.tasklets[t].exception, c)
    case DoMainReturn(ok) => MAIN in s.tasklets && EndCloses(s.tasklets[MAIN], ok, c)
    case _ => false
  }

  /** Only `close` makes a channel closing and only `open` ends that; a closing channel becomes closed
      in the steps above, if nobody is blocked on it after them. */
  predicate Closing(s: State, a: Action, c: Cid, ch: Channel, ch': Channel)
    requires c in s.channels
  {
    && (ch'.closing <==> a == DoClose(c) || (ch.closing && a != DoOpen(c)))
    && (ch'.closed <==> || (ch.closed && a != DoOpen(c))
                        || (ch'.closing && ch'.senders == [] && ch'.receivers == [] && MayClose(s, a, c)))
  }

  ghost predicate Moves(s: State, a: Action, c: Cid, s': State) {
    && c in s.channels && c in s'.channels
    && (s'.channels[c].preference == s.channels[c].preference || (a.DoPrefer? && a.c == c))
    && HistoryMoves(s, a, c, s.channels[c], s'.channels[c]) && Draining(a, c, s.channels[c], s'.channels[c])
    && Closing(s, a, c, s.channels[c], s'.channels[c])
  }

  lemma WithoutShrinks(list: seq<Tid>, t: Tid)
    requires Distinct(list)
    ensures Shrinks(list, Without(list, t))
  {
    WithoutMembers(list, t);
  }

  /** Leaving a list, and closing when that was the last one. */
  lemma OffListsShrinks(ch: Channel, ch': Channel, t: Tid)
    requires Distinct(ch.senders) && Distinct(ch.receivers) && ch'.senders == Without(ch.senders, t)
    requires ch'.receivers == Without(ch.receivers, t) && ch'.closing == ch.closing && (ch.closed ==> ch'.closed)
    ensures Shrinks(ch.senders, ch'.senders) && Shrinks(ch.receivers, ch'.receivers)
  {
    WithoutShrinks(ch.senders, t);
    WithoutShrinks(ch.receivers, t);
  }

  /** Steps that leave this channel alone. */
  lemma SameChannelMoves(s: State, a: Action, c: Cid, s': State)
    requires c in s.channels && c in s'.channels && s'.channels[c] == s.channels[c]
    requires !((a.DoSend? || a.DoReceive?) && a.c == c) || Refused(s.channels[c], a)
    requires CancelledBy(s, a).None? || s.tasklets[CancelledBy(s, a).value].blockedOn != Some(c)
    requires a != DoClose(c) && a != DoOpen(c) && !MayClose(s, a, c)
    ensures Moves(s, a, c, s')
  {}

  lemma KillBlockedMoves(s: State, t: Tid, b: Cid, c: Cid)
    requires t in s.tasklets && b in s.channels && s.tasklets[t].blockedOn == Some(b) && !s.tasklets[t].scheduled
    requires s.tasklets[t].alive && !s.tasklets[t].killPending && c in s.channels && ChannelOk(s.channels[c])
    ensures Moves(s, DoKill(t), c, KillPending(s, t))
  {
    KillBlockedEffect(s, t, b);
    if b == c {
      VictimMoves(s, KillPending(s, t), t, c);
    } else {
      SameChannelMoves(s, DoKill(t), c, KillPending(s, t));
    }
  }

  lemma VictimMoves(s: State, s': State, t: Tid, c: Cid)
    requires t in s.tasklets && c in s.channels && s.tasklets[t].blockedOn == Some(c) && ChannelOk(s.channels[c])
    requires s.tasklets[t].alive && !s.tasklets[t].killPending && c in s'.channels
    requires s'.channels[c] == OffLists(CancelCall(s.channels[c], s.tasklets[t].at), t, s.tasklets[t].direction)
    ensures Moves(s, DoKill(t), c, s')
  {
    var (ch, x) := (s.channels[c], s.tasklets[t]);
    CancelKeepsLists(ch, x.at);
    OffListsShrinks(ch, s'.channels[c], t);
    assert CancelledBy(s, DoKill(t)) == Some(t);
  }

  lemma CancelKeepsLists(ch: Channel, at: Suspension)
    ensures var ch' := CancelCall(ch, at);
            && ch'.senders == ch.senders && ch'.receivers == ch.receivers && ch'.preference == ch.preference
            && ch'.closing == ch.closing && ch'.closed == ch.closed
  {
    match at
    case InSend(_, _) =>
    case InReceive(_, _) =>
    case _ =>
  }

  lemma KillMoves(s: State, t: Tid, c: Cid)
    requires Placed(s) && t in s.tasklets && t != MAIN && c in s.channels
    ensures s.tasklets[t].blockedOn.Some? ==> s.tasklets[t].blockedOn.value in s.channels
    ensures Moves(s, DoKill(t), c, KillPending(s, t))
  {
    var x := s.tasklets[t];
    assert Directed(s, t) && TaskletOk(x, false, t == s.current) && ChannelOk(s.channels[c]);
    if x.alive && !x.killPending && x.blockedOn.Some? {
      KillBlockedMoves(s, t, x.blockedOn.value, c);
    } else {
      if x.alive && !x.killPending { KillUnblockedEffect(s, t); }
      SameChannelMoves(s, DoKill(t), c, KillPending(s, t));
    }
  }

  lemma RunMoves(s: State, t: Tid, c: Cid)
    requires Placed(s) && t in s.tasklets && t != MAIN && t != s.current && c in s.channels
    ensures Shaped(s) && Moves(s, DoRun(t), c, RunTasklet(s, t))
  {
    PlacedIsShaped(s);
    if s.tasklets[t].alive && s.tasklets[t].blockedOn.None? { RunEffect(s, t); }
    SameChannelMoves(s, DoRun(t), c, RunTasklet(s, t));
  }

  lemma CreateMoves(s: State, t: Tid, c: Cid)
    requires t !in s.tasklets && c in s.channels
    ensures Moves(s, DoCreate(t), c, Create(s, t)) && Moves(s, DoSpawn(t), c, Spawn(s, t))
  {
    SameChannelMoves(s, DoCreate(t), c, Create(s, t));
    SameChannelMoves(s, DoSpawn(t), c, Spawn(s, t));
  }

  lemma InsertMoves(s: State, t: Tid, c: Cid)
    requires t in s.tasklets && c in s.channels
    ensures Moves(s, DoInsert(t), c, InsertCall(s, t)) && Moves(s, DoRemove(t), c, RemoveCall(s, t))
  {
    SameChannelMoves(s, DoInsert(t), c, InsertCall(s, t));
    SameChannelMoves(s, DoRemove(t), c, RemoveCall(s, t));
  }

  lemma QueueMoves(s: State, a: Action, c: Cid)
    requires Placed(s) && Allowed(s, a) && IsQueueCall(a) && c in s.channels
    ensures Moves(s, a, c, QueueAct(s, a))
  {
    match a
    case DoCreate(t) => CreateMoves(s, t, c);
    case DoSpawn(t) => CreateMoves(s, t, c);
    case DoInsert(t) => InsertMoves(s, t, c);
    case DoRemove(t) => InsertMoves(s, t, c);
    case DoRun(t) => RunMoves(s, t, c);
    case DoKill(t) => KillMoves(s, t, c);
  }

  lemma HeadShrinks(list: seq<Tid>)
    requires list != []
    ensures Shrinks(list, list[1..]) && Shrinks(list, [])
  {}

  lemma SendMatchedMoves(s: State, s': State, c: Cid, m: Message, b: Cid, d: Direction)
    requires c in s.channels && b in s.channels && ChannelOk(s.channels[c]) && s.channels[c].receivers != []
    requires s'.channels
         == s.channels[c := MatchedChannel(LoggedSend(s.channels[c], s.nextCall, m), s.channels[c].receivers[0], d)]
    requires ChannelShape(s'.channels[c])
    ensures Moves(s, DoSend(c, m), b, s')
  {
    var ch := s.channels[c];
    MatchedLists(ch, LoggedSend(ch, s.nextCall, m), ch.receivers[0], d);
    HeadShrinks(ch.receivers);
  }

  lemma ReceiveMatchedMoves(s: State, s': State, c: Cid, b: Cid, d: Direction)
    requires c in s.channels && b in s.channels && ChannelOk(s.channels[c]) && s.channels[c].senders != []
    requires s'.channels
         == s.channels[c := MatchedChannel(LoggedReceive(s.channels[c], s.nextCall), s.channels[c].senders[0], d)]
    requires ChannelShape(s'.channels[c])
    ensures Moves(s, DoReceive(c), b, s')
  {
    var ch := s.channels[c];
    MatchedLists(ch, LoggedReceive(ch, s.nextCall), ch.senders[0], d);
    HeadShrinks(ch.senders);
  }

  lemma SendParkedMoves(s: State, s': State, c: Cid, m: Message, b: Cid, t: Tid)
    requires c in s.channels && b in s.channels && !s.channels[c].closing && !s.channels[c].closed
    requires s'.channels == s.channels[c := WithSender(s.channels[c], t, s.nextCall, m)]
    ensures Moves(s, DoSend(c, m), b, s')
  {}

  lemma ReceiveParkedMoves(s: State, s': State, c: Cid, b: Cid, t: Tid)
    requires c in s.channels && b in s.channels && !s.channels[c].closing && !s.channels[c].closed
    requires s'.channels == s.channels[c := WithReceiver(s.channels[c], t, s.nextCall)]
    ensures Moves(s, DoReceive(c), b, s')
  {}

  lemma SendKeepsShape(s: State, c: Cid, m: Message)
    requires Placed(s) && Running(s) && Shaped(s) && c in s.channels
    requires s.channels[c].receivers != [] && s.channels[c].receivers[0] in s.tasklets
    ensures c in Send(s, c, m).channels ==> ChannelShape(Send(s, c, m).channels[c])
  {
    SendPlaced(s, c, m);
    assert c in Send(s, c, m).channels ==> ChannelOk(Send(s, c, m).channels[c]);
  }

  lemma ReceiveKeepsShape(s: State, c: Cid)
    requires Placed(s) && Running(s) && Shaped(s) && c in s.channels
    requires s.channels[c].senders != [] && s.channels[c].senders[0] in s.tasklets
    ensures c in Receive(s, c).channels ==> ChannelShape(Receive(s, c).channels[c])
  {
    ReceivePlaced(s, c);
    assert c in Receive(s, c).channels ==> ChannelOk(Receive(s, c).channels[c]);
  }

  lemma SendMoves(s: State, c: Cid, m: Message, b: Cid)
    requires Placed(s) && Running(s) && c in s.channels && b in s.channels
    ensures Shaped(s) && (s.channels[c].receivers != [] ==> s.channels[c].receivers[0] in s.tasklets)
    ensures Moves(s, DoSend(c, m), b, Send(s, c, m))
  {
    PlacedIsShaped(s);
    var ch := s.channels[c];
    assert ChannelOk(ch);
    if ch.receivers != [] {
      WaitingReceiver(s, c);
      if ch.preference == Receiver { SendHandsOffEffect(s, c, m); } else { SendGoesOnEffect(s, c, m); }
      SendKeepsShape(s, c, m);
      SendMatchedMoves(s, Send(s, c, m), c, m, b, s.tasklets[ch.receivers[0]].direction);
    } else if ch.closed || ch.closing {
      SameChannelMoves(s, DoSend(c, m), b, Send(s, c, m));
    } else {
      SendBlocksEffect(s, c, m);
      SendParkedMoves(s, Send(s, c, m), c, m, b, s.current);
    }
  }

  lemma ReceiveMatchedChannels(s: State, c: Cid)
    requires Shaped(s) && c in s.channels && s.channels[c].senders != []
    requires s.channels[c].senders[0] in s.tasklets && s.channels[c].senders[0] != s.current
    requires s.tasklets[s.channels[c].senders[0]].slot.Some?
    ensures var p := s.channels[c].senders[0];
            var ch := LoggedReceive(s.channels[c], s.nextCall);
            Receive(s, c).channels == s.channels[c := MatchedChannel(ch, p, s.tasklets[p].direction)]
  {
    if s.channels[c].preference == Sender { ReceiveHandsOffEffect(s, c); } else { ReceiveGoesOnEffect(s, c); }
  }

  lemma ReceiveRefusedChannels(s: State, c: Cid)
    requires Placed(s) && Running(s) && c in s.channels
    ensures ReceiveRefused(s, c).channels == s.channels
  {
    CurrentReady(s);
    ReceiveRefusedStruct(s, c);
  }

  lemma ReceiveMoves(s: State, c: Cid, b: Cid)
    requires Placed(s) && Running(s) && c in s.channels && b in s.channels
    ensures Shaped(s) && (s.channels[c].senders != [] ==> s.channels[c].senders[0] in s.tasklets)
    ensures Moves(s, DoReceive(c), b, Receive(s, c))
  {
    PlacedIsShaped(s);
    var ch := s.channels[c];
    assert ChannelOk(ch);
    if ch.senders != [] {
      WaitingSender(s, c);
      ReceiveMatchedChannels(s, c);
      ReceiveKeepsShape(s, c);
      ReceiveMatchedMoves(s, Receive(s, c), c, b, s.tasklets[ch.senders[0]].direction);
    } else if ch.closed || ch.closing {
      ReceiveRefusedChannels(s, c);
      SameChannelMoves(s, DoReceive(c), b, Receive(s, c));
    } else {
      ReceiveBlocksEffect(s, c);
      ReceiveParkedMoves(s, Receive(s, c), c, b, s.current);
    }
  }

  /** Changes to the flags of a channel. */
  lemma FlagsMove(s: State, s': State, a: Action, c: Cid)
    requires c in s.channels && c in s'.channels && SameBook(s.channels[c], s'.channels[c]) && IsChannelCall(a)
    requires s'.channels[c].preference == s.channels[c].preference || (a.DoPrefer? && a.c == c)
    requires Closing(s, a, c, s.channels[c], s'.channels[c])
    ensures Moves(s, a, c, s')
  {}

  lemma ConfigureMoves(s: State, b: Cid, d: Direction, c: Cid)
    requires c in s.channels
    ensures b !in s.channels ==> Moves(s, DoNewChannel(b), c, NewChannel(s, b))
    ensures b in s.channels ==> Moves(s, DoPrefer(b, d), c, Prefer(s, b, d))
  {
    if b !in s.channels { FlagsMove(s, NewChannel(s, b), DoNewChannel(b), c); }
    if b in s.channels { FlagsMove(s, Prefer(s, b, d), DoPrefer(b, d), c); }
  }

  lemma CloseMoves(s: State, b: Cid, c: Cid)
    requires b in s.channels && c in s.channels && ChannelShape(s.channels[b])
    ensures Moves(s, DoClose(b), c, Close(s, b)) && Moves(s, DoOpen(b), c, Open(s, b))
  {
    FlagsMove(s, Close(s, b), DoClose(b), c);
    FlagsMove(s, Open(s, b), DoOpen(b), c);
  }

  lemma ChannelCallMoves(s: State, a: Action, c: Cid)
    requires Placed(s) && Allowed(s, a) && IsChannelCall(a) && c in s.channels
    ensures Moves(s, a, c, ChannelAct(s, a))
  {
    if a.DoClose? || a.DoOpen? {
      assert ChannelShape(s.channels[a.c]) by { assert ChannelOk(s.channels[a.c]); }
      CloseMoves(s, a.c, c);
    } else {
      ConfigureMoves(s, a.c, if a.DoPrefer? then a.d else Neither, c);
    }
  }

  /** Only the failing call of the main tasklet can still be on a list when it ends. */
  lemma ResumeMoves(s: State, s': State, a: Action, t: Tid, y: Tasklet, ok: bool, c: Cid)
    requires Placed(s) && Resumed(s, s', t, y, ok) && c in s.channels && (ok ==> y.blockedOn.None?)
    requires y.blockedOn.Some? ==> (y.at.InSend? || y.at.InReceive?) && y.blockedOn == Some(y.at.c)
    requires (a.DoSwitch? || a.DoMainReturn?) && (MayClose(s, a, c) <==> EndCloses(y, ok, c))
    requires c in s'.channels && ChannelShape(s'.channels[c])
    requires CancelledBy(s, a) == if y.blockedOn.Some? then Some(t) else None
    ensures Moves(s, a, c, s')
  {
    assert ChannelOk(s.channels[c]) && Directed(s, t) && Listed(s, c, t);
    if InChannelCall(y.at) && y.at.c == c {
      CallEndMoves(s, s', a, t, y, ok, c);
    } else {
      SameChannelMoves(s, a, c, s');
    }
  }

  lemma CallEndMoves(s: State, s': State, a: Action, t: Tid, y: Tasklet, ok: bool, c: Cid)
    requires c in s.channels && c in s'.channels && InChannelCall(y.at) && y.at.c == c && t in s.tasklets
    requires ChannelOk(s.channels[c]) && s'.channels[c] == ResumeChannel(s.channels[c], y, t, ok)
    requires ChannelShape(s'.channels[c]) && s.tasklets[t].at == y.at && s.tasklets[t].direction == y.direction
    requires s.tasklets[t].blockedOn == y.blockedOn
    requires y.blockedOn.None? ==> t !in s.channels[c].senders && t !in s.channels[c].receivers
    requires y.blockedOn.None? ==> y.direction == Neither
    requires y.blockedOn.Some? ==> !ok && (y.at.InSend? || y.at.InReceive?) && y.blockedOn == Some(c)
    requires y.blockedOn.Some? ==> y.direction != Neither
    requires (a.DoSwitch? || a.DoMainReturn?) && (MayClose(s, a, c) <==> EndCloses(y, ok, c))
    requires CancelledBy(s, a) == if y.blockedOn.Some? then Some(t) else None
    ensures Moves(s, a, c, s')
  {
    var (ch, ch') := (s.channels[c], s'.channels[c]);
    ResumePrefers(ch, y, t, ok);
    if y.blockedOn.None? {
      OffListEnd(ch, ch', y, t, ok);
      EndMoves(s, s', a, c, EndCloses(y, ok, c));
    } else {
      OffListsShrinks(ch, ch', t);
      AbandonCloses(ch, y, t);
      VictimEndMoves(s, s', a, t, c);
    }
  }

  /** The end of a call that is on no list: it may close the channel. */
  lemma OffListEnd(ch: Channel, ch': Channel, y: Tasklet, t: Tid, ok: bool)
    requires ch' == ResumeChannel(ch, y, t, ok) && InChannelCall(y.at) && ChannelShape(ch')
    requires t !in ch.senders && t !in ch.receivers && y.direction == Neither
    ensures SameBook(ch, ch') && ch'.closing == ch.closing
    ensures ch'.closed <==> ch.closed || (ch.closing && ch'.senders == [] == ch'.receivers && EndCloses(y, ok, y.at.c))
  {
    NotOnLists(ch, y, t, ok);
    ResumeCloses(ch, y, t, ok);
  }

  lemma EndMoves(s: State, s': State, a: Action, c: Cid, closes: bool)
    requires c in s.channels && c in s'.channels && (a.DoSwitch? || a.DoMainReturn?) && CancelledBy(s, a).None?
    requires var (ch, ch') := (s.channels[c], s'.channels[c]);
             && SameBook(ch, ch') && ch'.closing == ch.closing && ch'.preference == ch.preference
             && (ch'.closed <==> ch.closed || (ch.closing && ch'.senders == [] == ch'.receivers && closes))
    requires MayClose(s, a, c) <==> closes
    ensures Moves(s, a, c, s')
  {}

  lemma VictimEndMoves(s: State, s': State, a: Action, t: Tid, c: Cid)
    requires c in s.channels && c in s'.channels && (a.DoSwitch? || a.DoMainReturn?) && CancelledBy(s, a) == Some(t)
    requires t in s.tasklets && s.tasklets[t].blockedOn == Some(c) && MayClose(s, a, c)
    requires var (ch, ch', x) := (s.channels[c], s'.channels[c], s.tasklets[t]);
             && SameBook(OffLists(CancelCall(ch, x.at), t, x.direction), ch')
             && ch'.closing == ch.closing && ch'.preference == ch.preference && ChannelShape(ch')
             && (ch'.closed <==> ch.closed || (ch.closing && ch'.balance == 0))
             && Shrinks(ch.senders, ch'.senders) && Shrinks(ch.receivers, ch'.receivers)
    ensures Moves(s, a, c, s')
  {}

  lemma ResumePrefers(ch: Channel, y: Tasklet, t: Tid, ok: bool)
    ensures ResumeChannel(ch, y, t, ok).preference == ch.preference
  {}

  lemma AbandonCloses(ch: Channel, y: Tasklet, t: Tid)
    requires y.at.InSend? || y.at.InReceive?
    ensures var ch' := AbandonedChannel(ch, y, t);
            ch'.closing == ch.closing && (ch'.closed <==> ch.closed || (ch.closing && ch'.balance == 0))
  {
    CancelKeepsLists(ch, y.at);
  }

  lemma ResumeCloses(ch: Channel, y: Tasklet, t: Tid, ok: bool)
    ensures var ch' := ResumeChannel(ch, y, t, ok);
            && ch'.closing == ch.closing && (ch.closed ==> ch'.closed)
            && (InChannelCall(y.at) && EndCloses(y, ok, y.at.c) ==>
                  (ch'.closed <==> ch.closed || (ch.closing && ch'.balance == 0)))
            && (InChannelCall(y.at) && !EndCloses(y, ok, y.at.c) ==> ch'.closed == ch.closed)
  {
    match y.at
    case InSend(_, _) => AbandonCloses(ch, y, t);
    case InReceive(_, _) => AbandonCloses(ch, y, t);
    case InSendHandoff(_) =>
    case InReceiveHandoff(_, _) =>
    case _ =>
  }

  lemma SwitchMoves(s: State, t: Tid, c: Cid)
    requires Placed(s) && t in s.queue && t != MAIN && s.current == MAIN && c in s.channels
    ensures t in s.tasklets && (InChannelCall(s.tasklets[t].at) ==> s.tasklets[t].at.c in s.channels)
    ensures Moves(s, DoSwitch(t), c, Switch(s, t))
  {
    Switchable(s, t);
    var x := s.tasklets[t];
    if !x.started && x.exception {
      StillbornEffect(s, t);
      SameChannelMoves(s, DoSwitch(t), c, Switch(s, t));
    } else {
      SwitchEffect(s, t);
      assert ChannelShape(Switch(s, t).channels[c]) by {
        SwitchPlaced(s, t);
        assert ChannelOk(Switch(s, t).channels[c]);
      }
      ResumeMoves(s, Switch(s, t), DoSwitch(t), t, x.(started := true, exception := false), !x.exception, c);
    }
  }

  lemma MainReturnMoves(s: State, ok: bool, c: Cid)
    requires Placed(s) && s.current == MAIN && (ok ==> s.tasklets[MAIN].blockedOn.None?) && c in s.channels
    ensures InChannelCall(s.tasklets[MAIN].at) ==> s.tasklets[MAIN].at.c in s.channels
    ensures Moves(s, DoMainReturn(ok), c, Resume(s, MAIN, ok))
  {
    assert TaskletOk(s.tasklets[MAIN], true, true);
    ResumeEffect(s, MAIN, ok);
    assert ChannelShape(Resume(s, MAIN, ok).channels[c]) by {
      MainReturnPlaced(s, ok);
      assert ChannelOk(Resume(s, MAIN, ok).channels[c]);
    }
    ResumeMoves(s, Resume(s, MAIN, ok), DoMainReturn(ok), MAIN, s.tasklets[MAIN], ok, c);
  }

  lemma LoopMoves(s: State, a: Action, c: Cid)
    requires Placed(s) && Allowed(s, a) && !IsQueueCall(a) && !IsTransfer(a) && !IsChannelCall(a) && c in s.channels
    ensures Moves(s, a, c, LoopAct(s, a))
  {
    match a
    case DoSchedule =>
      PlacedIsShaped(s);
      ScheduleEffect(s, false);
      SameChannelMoves(s, a, c, LoopAct(s, a));
    case DoScheduleRemove =>
      PlacedIsShaped(s);
      ScheduleEffect(s, true);
      SameChannelMoves(s, a, c, LoopAct(s, a));
    case DoFinish =>
      FinishEffect(s);
      SameChannelMoves(s, a, c, LoopAct(s, a));
    case DoSwitch(t) => SwitchMoves(s, t, c);
    case DoMainReturn(ok) => MainReturnMoves(s, ok, c);
  }

  lemma ActMoves(s: State, a: Action, c: Cid)
    requires Placed(s) && Allowed(s, a) && c in s.channels
    ensures Moves(s, a, c, Act(s, a))
  {
    if IsQueueCall(a) { QueueMoves(s, a, c); }
    else if a.DoSend? { SendMoves(s, a.c, a.m, c); }
    else if a.DoReceive? { ReceiveMoves(s, a.c, c); }
    else if IsChannelCall(a) { ChannelCallMoves(s, a, c); }
    else { LoopMoves(s, a, c); }
  }
}
