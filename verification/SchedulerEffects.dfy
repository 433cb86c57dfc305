/** The steps of the scheduler written out: which records, which channel and which part of the
    queue each one changes, and how. */
module SchedulerEffects {
  import opened Options
  import opened Flags
  import opened Lists
  import opened Scheduler

  function YieldRecord(x: Tasklet, isMain: bool, at: Suspension): Tasklet {
    if isMain then x.(at := at) else EndRecord(x.(at := at))
  }

  function YieldQueue(queue: seq<Tid>, t: Tid, r: Reschedule): seq<Tid> {
    if t == MAIN then queue else AfterTurn(queue, t, r)
  }

  lemma YieldEffect(s: State, at: Suspension)
    requires s.current in s.tasklets
    ensures var (me, x) := (s.current, s.tasklets[s.current]);
            Yield(s, at) == s.(tasklets := s.tasklets[me := YieldRecord(x, me == MAIN, at)],
                               queue := YieldQueue(s.queue, me, x.reschedule), current := MAIN)
  {
    var (me, x) := (s.current, s.tasklets[s.current]);
    var y := YieldRecord(x, me == MAIN, at);
    assert Yield(s, at).tasklets == s.tasklets[me := y];
  }

  lemma PutTwice(m: map<Tid, Tasklet>, t: Tid, x: Tasklet, y: Tasklet)
    ensures m[t := x][t := y] == m[t := y]
  {}

  lemma PutSwap(m: map<Tid, Tasklet>, t: Tid, x: Tasklet, u: Tid, y: Tasklet)
    requires t != u
    ensures m[t := x][u := y] == m[u := y][t := x]
  {}

  lemma PutChannelTwice(m: map<Cid, Channel>, c: Cid, a: Channel, b: Channel)
    ensures m[c := a][c := b] == m[c := b]
  {}

  // ---- Blocking ----

  function ParkedRecord(x: Tasklet, c: Cid, d: Direction, slot: Option<Message>): Tasklet {
    x.(transferring := true, direction := d, blockedOn := Some(c), slot := slot)
  }

  function WithSender(ch: Channel, t: Tid, call: Call, m: Message): Channel {
    ch.(sends := ch.sends + [SendCall(call, m)], senders := ch.senders + [t], balance := ch.balance + 1)
  }

  function WithReceiver(ch: Channel, t: Tid, call: Call): Channel {
    ch.(receives := ch.receives + [call], receivers := ch.receivers + [t], balance := ch.balance - 1)
  }

  lemma ParkEffect(s: State, c: Cid, d: Direction, t: Tid)
    requires t in s.tasklets && c in s.channels && d != Neither
    ensures var ch := s.channels[c];
            Block(Add(s, c, d, t), c, t) == s.(
              tasklets := s.tasklets[t := s.tasklets[t].(direction := d, blockedOn := Some(c))],
              channels := s.channels[c := if d == Sender
                                          then ch.(senders := ch.senders + [t], balance := ch.balance + 1)
                                          else ch.(receivers := ch.receivers + [t], balance := ch.balance - 1)])
  {
    var x := s.tasklets[t];
    PutTwice(s.tasklets, t, x.(direction := d), x.(direction := d, blockedOn := Some(c)));
  }

  /** A blocking send up to the point where it gives up control. */
  function SendParked(s: State, c: Cid, m: Message): State
    requires s.current in s.tasklets && c in s.channels
  {
    var s1 := LogSend(BeginCall(s), c, s.nextCall, m);
    var s2 := Block(Add(s1, c, Sender, s.current), c, s.current);
    Put(s2, s.current, s2.tasklets[s.current].(slot := Some(m)))
  }

  lemma SendParkedEffect(s: State, c: Cid, m: Message)
    requires s.current in s.tasklets && c in s.channels
    ensures SendParked(s, c, m) == s.(
              tasklets := s.tasklets[s.current := ParkedRecord(s.tasklets[s.current], c, Sender, Some(m))],
              channels := s.channels[c := WithSender(s.channels[c], s.current, s.nextCall, m)],
              nextCall := s.nextCall + 1)
  {
    var (me, x) := (s.current, s.tasklets[s.current]);
    ParkEffect(LogSend(BeginCall(s), c, s.nextCall, m), c, Sender, me);
    PutTwice(s.tasklets, me, x.(transferring := true), ParkedRecord(x, c, Sender, x.slot));
    PutTwice(s.tasklets, me, ParkedRecord(x, c, Sender, x.slot), ParkedRecord(x, c, Sender, Some(m)));
    PutChannelTwice(s.channels, c, LoggedSend(s.channels[c], s.nextCall, m),
                    WithSender(s.channels[c], me, s.nextCall, m));
  }

  lemma SendBlocksEffect(s: State, c: Cid, m: Message)
    requires s.current in s.tasklets && c in s.channels
    ensures var (me, x) := (s.current, s.tasklets[s.current]);
            SendBlocks(s, c, m) == s.(
              tasklets := s.tasklets[me := YieldRecord(ParkedRecord(x, c, Sender, Some(m)), me == MAIN,
                                                       InSend(c, s.nextCall))],
              channels := s.channels[c := WithSender(s.channels[c], me, s.nextCall, m)],
              queue := YieldQueue(s.queue, me, x.reschedule), current := MAIN, nextCall := s.nextCall + 1)
  {
    var (me, x) := (s.current, s.tasklets[s.current]);
    var y := ParkedRecord(x, c, Sender, Some(m));
    SendParkedEffect(s, c, m);
    YieldEffect(SendParked(s, c, m), InSend(c, s.nextCall));
    PutTwice(s.tasklets, me, y, YieldRecord(y, me == MAIN, InSend(c, s.nextCall)));
  }

  lemma ReceiveBlocksEffect(s: State, c: Cid)
    requires s.current in s.tasklets && c in s.channels
    ensures var (me, x) := (s.current, s.tasklets[s.current]);
            ReceiveBlocks(s, c) == s.(
              tasklets := s.tasklets[me := YieldRecord(ParkedRecord(x, c, Receiver, x.slot), me == MAIN,
                                                       InReceive(c, s.nextCall))],
              channels := s.channels[c := WithReceiver(s.channels[c], me, s.nextCall)],
              queue := YieldQueue(s.queue, me, x.reschedule), current := MAIN, nextCall := s.nextCall + 1)
  {
    var (me, x) := (s.current, s.tasklets[s.current]);
    var s1 := LogReceive(BeginCall(s), c, s.nextCall);
    ParkEffect(s1, c, Receiver, me);
    var s2 := Block(Add(s1, c, Receiver, me), c, me);
    var y := ParkedRecord(x, c, Receiver, x.slot);
    PutTwice(s.tasklets, me, x.(transferring := true), y);
    PutChannelTwice(s.channels, c, LoggedReceive(s.channels[c], s.nextCall),
                    WithReceiver(s.channels[c], me, s.nextCall));
    YieldEffect(s2, InReceive(c, s.nextCall));
    PutTwice(s.tasklets, me, y, YieldRecord(y, me == MAIN, InReceive(c, s.nextCall)));
  }

  // ---- Matching ----

  function MatchedChannel(ch: Channel, partner: Tid, d: Direction): Channel {
    CloseIfDrained(OffLists(ch, partner, d))
  }

  function LoggedSend(ch: Channel, call: Call, m: Message): Channel {
    ch.(sends := ch.sends + [SendCall(call, m)])
  }

  function LoggedReceive(ch: Channel, call: Call): Channel {
    ch.(receives := ch.receives + [call])
  }

  /** The longest-waiting partner leaves its list and is no longer blocked. */
  lemma PartnerEffect(s: State, c: Cid, t: Tid)
    requires t in s.tasklets && c in s.channels
    ensures var y := s.tasklets[t];
            Unblock(RemoveBlocked(s, c, t), t) == s.(
              tasklets := s.tasklets[t := y.(direction := Neither, blockedOn := None)],
              channels := s.channels[c := OffLists(s.channels[c], t, y.direction)])
  {
    var y := s.tasklets[t];
    PutTwice(s.tasklets, t, y.(direction := Neither), y.(direction := Neither, blockedOn := None));
  }

  lemma SendMatchesEffect(s: State, c: Cid, m: Message)
    requires s.current in s.tasklets && c in s.channels
    requires s.channels[c].receivers != [] && s.channels[c].receivers[0] in s.tasklets
    requires s.channels[c].receivers[0] != s.current
    ensures var (me, r) := (s.current, s.channels[c].receivers[0]);
            var y := s.tasklets[r];
            SendMatches(s, c, m) == s.(
              tasklets := s.tasklets[me := s.tasklets[me].(transferring := true)]
                                    [r := y.(direction := Neither, blockedOn := None, slot := Some(m))],
              channels := s.channels[c := MatchedChannel(LoggedSend(s.channels[c], s.nextCall, m), r, y.direction)],
              nextCall := s.nextCall + 1)
  {
    var (me, r) := (s.current, s.channels[c].receivers[0]);
    var y := s.tasklets[r];
    var s1 := LogSend(BeginCall(s), c, s.nextCall, m);
    PartnerEffect(s1, c, r);
    var y1 := y.(direction := Neither, blockedOn := None);
    PutTwice(s1.tasklets, r, y1, y1.(slot := Some(m)));
    var ch1 := LoggedSend(s.channels[c], s.nextCall, m);
    PutChannelTwice(s.channels, c, ch1, OffLists(ch1, r, y.direction));
    PutChannelTwice(s.channels, c, OffLists(ch1, r, y.direction), MatchedChannel(ch1, r, y.direction));
  }

  lemma ReceiveMatchesEffect(s: State, c: Cid)
    requires s.current in s.tasklets && c in s.channels
    requires s.channels[c].senders != [] && s.channels[c].senders[0] in s.tasklets
    requires s.channels[c].senders[0] != s.current
    ensures var (me, p) := (s.current, s.channels[c].senders[0]);
            var y := s.tasklets[p];
            ReceiveMatches(s, c) == s.(
              tasklets := s.tasklets[p := y.(direction := Neither, blockedOn := None, transferring := false,
                                             slot := None)]
                                    [me := s.tasklets[me].(transferring := true, slot := y.slot)],
              channels := s.channels[c := MatchedChannel(LoggedReceive(s.channels[c], s.nextCall), p, y.direction)],
              nextCall := s.nextCall + 1)
  {
    var (me, p) := (s.current, s.channels[c].senders[0]);
    var (x, y) := (s.tasklets[me], s.tasklets[p]);
    var s1 := LogReceive(BeginCall(s), c, s.nextCall);
    PartnerEffect(s1, c, p);
    var y1 := y.(direction := Neither, blockedOn := None);
    var y2 := y1.(transferring := false, slot := None);
    PutTwice(s1.tasklets, p, y1, y2);
    PutSwap(s.tasklets, me, x.(transferring := true), p, y2);
    PutTwice(s.tasklets[p := y2], me, x.(transferring := true), x.(transferring := true, slot := y.slot));
    var ch1 := LoggedReceive(s.channels[c], s.nextCall);
    PutChannelTwice(s.channels, c, ch1, OffLists(ch1, p, y.direction));
    PutChannelTwice(s.channels, c, OffLists(ch1, p, y.direction), MatchedChannel(ch1, p, y.direction));
  }

  /** A partner that is made runnable; only the main tasklet is scheduled already. */
  function QueuedRecord(y: Tasklet): Tasklet {
    if y.scheduled then y.(reschedule := Back) else y.(blockedOn := None, scheduled := true)
  }

  function NextQueue(queue: seq<Tid>, c: Tid, t: Tid, scheduled: bool): seq<Tid>
    requires c in queue
  {
    if scheduled then queue else InsertAfter(queue, c, t)
  }

  lemma HandOffEffect(s: State, p: Tid, at: Suspension)
    requires s.current in s.tasklets && p in s.tasklets && s.current in s.queue && p != s.current
    ensures var (me, x, y) := (s.current, s.tasklets[s.current], s.tasklets[p]);
            HandOff(s, p, at) == s.(
              tasklets := s.tasklets[p := QueuedRecord(y)][me := YieldRecord(x.(reschedule := Back), me == MAIN, at)],
              queue := YieldQueue(NextQueue(s.queue, me, p, y.scheduled), me, Back), current := MAIN)
  {
    var (me, x, y) := (s.current, s.tasklets[s.current], s.tasklets[p]);
    var s1 := InsertNext(s, p);
    assert s1.tasklets == s.tasklets[p := QueuedRecord(y)];
    var s2 := Put(s1, me, x.(reschedule := Back));
    YieldEffect(s2, at);
    PutTwice(s1.tasklets, me, x.(reschedule := Back), YieldRecord(x.(reschedule := Back), me == MAIN, at));
  }

  lemma InsertEffect(s: State, t: Tid)
    requires t in s.tasklets
    ensures var y := s.tasklets[t];
            Insert(s, t) == s.(tasklets := s.tasklets[t := QueuedRecord(y)],
                               queue := if y.scheduled then s.queue else s.queue + [t])
  {}

  lemma PutThree(m: map<Tid, Tasklet>, t: Tid, x: Tasklet, x': Tasklet, u: Tid, y: Tasklet, y': Tasklet)
    requires t != u
    ensures m[t := x][u := y][u := y'][t := x'] == m[u := y'][t := x']
    ensures m[u := y][t := x][u := y'][t := x'] == m[u := y'][t := x']
  {}

  /** The receiver that a send is matched with. */
  function ReceiverRecord(y: Tasklet, m: Message): Tasklet {
    QueuedRecord(y.(direction := Neither, blockedOn := None, slot := Some(m)))
  }

  /** The sender that a receive is matched with. */
  function SenderRecord(y: Tasklet): Tasklet {
    QueuedRecord(y.(direction := Neither, blockedOn := None, transferring := false, slot := None))
  }

  lemma SendHandsOffEffect(s: State, c: Cid, m: Message)
    requires Shaped(s) && c in s.channels && s.channels[c].receivers != [] && s.channels[c].preference == Receiver
    requires s.channels[c].receivers[0] in s.tasklets && s.channels[c].receivers[0] != s.current
    ensures var (me, r) := (s.current, s.channels[c].receivers[0]);
            var (x, y) := (s.tasklets[me], s.tasklets[r]);
            Send(s, c, m) == s.(
              tasklets := s.tasklets[r := ReceiverRecord(y, m)]
                                    [me := YieldRecord(x.(transferring := true, reschedule := Back), me == MAIN,
                                                       InSendHandoff(c))],
              channels := s.channels[c := MatchedChannel(LoggedSend(s.channels[c], s.nextCall, m), r, y.direction)],
              queue := YieldQueue(NextQueue(s.queue, me, r, y.scheduled), me, Back),
              current := MAIN, nextCall := s.nextCall + 1)
  {
    var (me, r) := (s.current, s.channels[c].receivers[0]);
    var (x, y) := (s.tasklets[me], s.tasklets[r]);
    SendMatchesEffect(s, c, m);
    HandOffEffect(SendMatches(s, c, m), r, InSendHandoff(c));
    PutThree(s.tasklets, me, x.(transferring := true),
             YieldRecord(x.(transferring := true, reschedule := Back), me == MAIN, InSendHandoff(c)),
             r, y.(direction := Neither, blockedOn := None, slot := Some(m)), ReceiverRecord(y, m));
  }

  lemma SendGoesOnEffect(s: State, c: Cid, m: Message)
    requires Shaped(s) && c in s.channels && s.channels[c].receivers != [] && s.channels[c].preference != Receiver
    requires s.channels[c].receivers[0] in s.tasklets && s.channels[c].receivers[0] != s.current
    ensures var (me, r) := (s.current, s.channels[c].receivers[0]);
            var (x, y) := (s.tasklets[me], s.tasklets[r]);
            Send(s, c, m) == s.(
              tasklets := s.tasklets[r := ReceiverRecord(y, m)][me := x.(transferring := false)],
              channels := s.channels[c := MatchedChannel(LoggedSend(s.channels[c], s.nextCall, m), r, y.direction)],
              queue := if y.scheduled then s.queue else s.queue + [r], nextCall := s.nextCall + 1)
  {
    var (me, r) := (s.current, s.channels[c].receivers[0]);
    var (x, y) := (s.tasklets[me], s.tasklets[r]);
    SendMatchesEffect(s, c, m);
    InsertEffect(SendMatches(s, c, m), r);
    PutThree(s.tasklets, me, x.(transferring := true), x.(transferring := false),
             r, y.(direction := Neither, blockedOn := None, slot := Some(m)), ReceiverRecord(y, m));
    var ch := MatchedChannel(LoggedSend(s.channels[c], s.nextCall, m), r, y.direction);
    assert CloseIfDrained(ch) == ch;
    PutChannelTwice(s.channels, c, ch, ch);
  }

  lemma ReceiveHandsOffEffect(s: State, c: Cid)
    requires Shaped(s) && c in s.channels && s.channels[c].senders != [] && s.channels[c].preference == Sender
    requires s.channels[c].senders[0] in s.tasklets && s.channels[c].senders[0] != s.current
    ensures var (me, p) := (s.current, s.channels[c].senders[0]);
            var (x, y) := (s.tasklets[me], s.tasklets[p]);
            Receive(s, c) == s.(
              tasklets := s.tasklets[p := SenderRecord(y)]
                                    [me := YieldRecord(x.(transferring := true, slot := y.slot, reschedule := Back),
                                                       me == MAIN,
                                                       InReceiveHandoff(c, s.nextCall))],
              channels := s.channels[c := MatchedChannel(LoggedReceive(s.channels[c], s.nextCall), p, y.direction)],
              queue := YieldQueue(NextQueue(s.queue, me, p, y.scheduled), me, Back),
              current := MAIN, nextCall := s.nextCall + 1)
  {
    var (me, p) := (s.current, s.channels[c].senders[0]);
    var (x, y) := (s.tasklets[me], s.tasklets[p]);
    ReceiveMatchesEffect(s, c);
    HandOffEffect(ReceiveMatches(s, c), p, InReceiveHandoff(c, s.nextCall));
    PutThree(s.tasklets, me, x.(transferring := true, slot := y.slot),
             YieldRecord(x.(transferring := true, slot := y.slot, reschedule := Back), me == MAIN,
                         InReceiveHandoff(c, s.nextCall)),
             p, y.(direction := Neither, blockedOn := None, transferring := false, slot := None), SenderRecord(y));
  }

  lemma ReceiveGoesOnEffect(s: State, c: Cid)
    requires Shaped(s) && c in s.channels && s.channels[c].senders != [] && s.channels[c].preference != Sender
    requires s.channels[c].senders[0] in s.tasklets && s.channels[c].senders[0] != s.current
    requires s.tasklets[s.channels[c].senders[0]].slot.Some?
    ensures var (me, p) := (s.current, s.channels[c].senders[0]);
            var (x, y) := (s.tasklets[me], s.tasklets[p]);
            Receive(s, c) == s.(
              tasklets := s.tasklets[p := SenderRecord(y)][me := x.(transferring := false, slot := None, at := Idle)],
              channels := s.channels[c := MatchedChannel(LoggedReceive(s.channels[c], s.nextCall), p, y.direction)],
              queue := if y.scheduled then s.queue else s.queue + [p], nextCall := s.nextCall + 1,
              outcomes := s.outcomes[s.nextCall := Got(y.slot.value)])
  {
    var (me, p) := (s.current, s.channels[c].senders[0]);
    var (x, y) := (s.tasklets[me], s.tasklets[p]);
    ReceiveMatchesEffect(s, c);
    var s1 := ReceiveMatches(s, c);
    InsertEffect(s1, p);
    DeliverEffect(Insert(s1, p), c, me, s.nextCall);
    PutThree(s.tasklets, me, x.(transferring := true, slot := y.slot),
             x.(transferring := false, slot := None, at := Idle),
             p, y.(direction := Neither, blockedOn := None, transferring := false, slot := None), SenderRecord(y));
    var ch := MatchedChannel(LoggedReceive(s.channels[c], s.nextCall), p, y.direction);
    assert CloseIfDrained(ch) == ch;
    PutChannelTwice(s.channels, c, ch, ch);
  }

  // ---- Resuming ----

  lemma DeliverEffect(s: State, c: Cid, t: Tid, call: Call)
    requires t in s.tasklets && c in s.channels && s.tasklets[t].slot.Some?
    ensures var x := s.tasklets[t];
            var ch := s.channels[c];
            Deliver(s, c, t, call) == s.(
              tasklets := s.tasklets[t := x.(transferring := false, slot := None, at := Idle)],
              channels := s.channels[c := if x.slot.value.Raise? then CloseIfDrained(ch) else ch],
              outcomes := s.outcomes[call := Got(x.slot.value)])
  {
    assert s.channels[c := s.channels[c]] == s.channels;
  }

  function AbandonedChannel(ch: Channel, x: Tasklet, t: Tid): Channel {
    CloseIfDrained(OffLists(if x.direction != Neither then CancelCall(ch, x.at) else ch, t, x.direction))
  }

  lemma AbandonEffect(s: State, c: Cid, t: Tid)
    requires t in s.tasklets && c in s.channels
    ensures var x := s.tasklets[t];
            Abandon(s, c, t) == s.(
              tasklets := s.tasklets[t := x.(transferring := false, slot := None, blockedOn := None,
                                             direction := Neither, at := Idle)],
              channels := s.channels[c := AbandonedChannel(s.channels[c], x, t)])
  {
    var x := s.tasklets[t];
    var s0 := if x.direction != Neither then Cancel(s, c, t) else s;
    assert s0.tasklets == s.tasklets;
    var s1 := RemoveBlocked(s0, c, t);
    PutTwice(s.tasklets, t, x.(direction := Neither),
             x.(transferring := false, slot := None, blockedOn := None, direction := Neither, at := Idle));
    var ch0 := s0.channels[c];
    var ch1 := OffLists(ch0, t, x.direction);
    assert s0.channels[c := ch1] == s.channels[c := ch1];
    PutChannelTwice(s.channels, c, ch1, CloseIfDrained(ch1));
  }

  lemma MarkLostEffect(s: State, t: Tid, call: Call)
    requires t in s.tasklets
    ensures MarkLost(s, t, call)
         == s.(outcomes := if s.tasklets[t].slot.Some? && s.tasklets[t].blockedOn.None?
                           then s.outcomes[call := Lost] else s.outcomes)
  {}

  /** The record of a tasklet whose call is over. */
  function ResumeRecord(x: Tasklet, ok: bool): Tasklet {
    match x.at
    case Idle => x
    case Finished => x
    case InYield => x.(at := Idle)
    case InSend(_, _) =>
      if ok then x.(transferring := false, at := Idle)
      else x.(transferring := false, slot := None, blockedOn := None, direction := Neither, at := Idle)
    case InReceive(_, _) =>
      if ok then x.(transferring := false, slot := None, at := Idle)
      else x.(transferring := false, slot := None, blockedOn := None, direction := Neither, at := Idle)
    case InSendHandoff(_) => x.(transferring := x.transferring && !ok, at := Idle)
    case InReceiveHandoff(_, _) => if ok then x.(transferring := false, slot := None, at := Idle) else x.(at := Idle)
  }

  function ResumeChannel(ch: Channel, x: Tasklet, t: Tid, ok: bool): Channel {
    match x.at
    case InSend(_, _) => if ok then CloseIfDrained(ch) else AbandonedChannel(ch, x, t)
    case InReceive(_, _) => if ok then DeliveredChannel(ch, x) else AbandonedChannel(ch, x, t)
    case InSendHandoff(_) => CloseIfDrained(ch)
    case InReceiveHandoff(_, _) => if ok then DeliveredChannel(ch, x) else CloseIfDrained(ch)
    case _ => ch
  }

  function DeliveredChannel(ch: Channel, x: Tasklet): Channel {
    if x.slot.Some? && x.slot.value.Raise? then CloseIfDrained(ch) else ch
  }

  function ResumeOutcomes(outcomes: map<Call, Outcome>, x: Tasklet, ok: bool): map<Call, Outcome> {
    if (x.at.InReceive? || x.at.InReceiveHandoff?) && x.slot.Some? && (ok || x.blockedOn.None?)
    then outcomes[x.at.call := if ok then Got(x.slot.value) else Lost] else outcomes
  }

  lemma ResumeSendEffect(s: State, t: Tid, ok: bool)
    requires t in s.tasklets && (s.tasklets[t].at.InSend? || s.tasklets[t].at.InSendHandoff?)
    requires s.tasklets[t].at.c in s.channels
    ensures var (x, c) := (s.tasklets[t], s.tasklets[t].at.c);
            Resume(s, t, ok) == s.(tasklets := s.tasklets[t := ResumeRecord(x, ok)],
                                   channels := s.channels[c := ResumeChannel(s.channels[c], x, t, ok)])
  {
    if s.tasklets[t].at.InSend? && !ok { AbandonEffect(s, s.tasklets[t].at.c, t); }
  }

  lemma ResumeReceiveEffect(s: State, t: Tid, ok: bool)
    requires t in s.tasklets && (s.tasklets[t].at.InReceive? || s.tasklets[t].at.InReceiveHandoff?)
    requires s.tasklets[t].at.c in s.channels
    ensures var (x, c) := (s.tasklets[t], s.tasklets[t].at.c);
            Resume(s, t, ok) == s.(tasklets := s.tasklets[t := ResumeRecord(x, ok)],
                                   channels := s.channels[c := ResumeChannel(s.channels[c], x, t, ok)],
                                   outcomes := ResumeOutcomes(s.outcomes, x, ok))
  {
    var x := s.tasklets[t];
    var (c, call) := (x.at.c, x.at.call);
    assert s.channels[c := s.channels[c]] == s.channels;
    if ok {
      if x.slot.Some? { DeliverEffect(s, c, t, call); }
    } else {
      MarkLostEffect(s, t, call);
      if x.at.InReceive? { AbandonEffect(MarkLost(s, t, call), c, t); }
    }
  }

  lemma ResumePlainEffect(s: State, t: Tid, ok: bool)
    requires t in s.tasklets && !InChannelCall(s.tasklets[t].at)
    ensures Resume(s, t, ok) == s.(tasklets := s.tasklets[t := ResumeRecord(s.tasklets[t], ok)])
  {
    assert s.tasklets[t := s.tasklets[t]] == s.tasklets;
  }

  // ---- Queue calls ----

  function RunQueued(queue: seq<Tid>, me: Tid, t: Tid): seq<Tid>
    requires me in queue && me != t
  {
    var rest := Without(queue, t);
    YieldQueue(if me in rest then InsertAfter(rest, me, t) else rest, me, FrontPlusOne)
  }

  lemma StaysIn(queue: seq<Tid>, me: Tid, t: Tid)
    requires me in queue && me != t
    ensures me in Without(queue, t)
  {
    if t in queue {
      var k := IndexOf(queue, t);
      assert queue == queue[..k] + [t] + queue[k + 1..];
    }
  }

  /** The tasklet is taken out of the queue, if it is there, and put right behind the caller. */
  function BringNext(s: State, t: Tid): State
    requires t in s.tasklets && s.current in s.queue && t != s.current
  {
    StaysIn(s.queue, s.current, t);
    InsertNext(if s.tasklets[t].scheduled then Remove(s, t) else s, t)
  }

  lemma BringNextEffect(s: State, t: Tid)
    requires t in s.tasklets && s.current in s.queue && t != s.current
    requires s.tasklets[t].blockedOn.None? && (s.tasklets[t].scheduled <==> t in s.queue)
    ensures s.current in Without(s.queue, t)
    ensures BringNext(s, t) == s.(tasklets := s.tasklets[t := s.tasklets[t].(scheduled := true)],
                                  queue := InsertAfter(Without(s.queue, t), s.current, t))
  {
    var y := s.tasklets[t];
    StaysIn(s.queue, s.current, t);
    PutTwice(s.tasklets, t, y.(scheduled := false), y.(scheduled := true));
  }

  /** A tasklet that can be run is put right behind the caller, wherever it was, and the caller
      asks to come back right behind it. */
  lemma RunEffect(s: State, t: Tid)
    requires Shaped(s) && t in s.tasklets && t != MAIN && t != s.current
    requires s.tasklets[t].alive && s.tasklets[t].blockedOn.None? && (s.tasklets[t].scheduled <==> t in s.queue)
    ensures var (me, x, y) := (s.current, s.tasklets[s.current], s.tasklets[t]);
            RunTasklet(s, t) == s.(
              tasklets := s.tasklets[t := y.(scheduled := true)]
                                    [me := YieldRecord(x.(reschedule := FrontPlusOne), me == MAIN, InYield)],
              queue := RunQueued(s.queue, me, t), current := MAIN)
  {
    var (me, x, y) := (s.current, s.tasklets[s.current], s.tasklets[t]);
    StaysIn(s.queue, me, t);
    BringNextEffect(s, t);
    var s2 := BringNext(s, t);
    var s3 := Put(s2, me, x.(reschedule := FrontPlusOne));
    YieldEffect(s3, InYield);
    PutTwice(s2.tasklets, me, x.(reschedule := FrontPlusOne),
             YieldRecord(x.(reschedule := FrontPlusOne), me == MAIN, InYield));
  }

  lemma ScheduleEffect(s: State, remove: bool)
    requires Shaped(s)
    ensures var (me, x) := (s.current, s.tasklets[s.current]);
            var x' := if remove then x.(tagged := true) else x.(reschedule := Back);
            Schedule(s, remove) == s.(tasklets := s.tasklets[me := YieldRecord(x', me == MAIN, InYield)],
                                      queue := YieldQueue(s.queue, me, x'.reschedule), current := MAIN)
  {
    var (me, x) := (s.current, s.tasklets[s.current]);
    var x' := if remove then x.(tagged := true) else x.(reschedule := Back);
    YieldEffect(Put(s, me, x'), InYield);
    PutTwice(s.tasklets, me, x', YieldRecord(x', me == MAIN, InYield));
  }

  /** The kill of a tasklet that is not blocked. */
  lemma KillUnblockedEffect(s: State, t: Tid)
    requires t in s.tasklets && s.tasklets[t].blockedOn.None? && s.tasklets[t].alive && !s.tasklets[t].killPending
    ensures var x := s.tasklets[t];
            KillPending(s, t) == s.(
              tasklets := s.tasklets[t := x.(scheduled := true, exception := true, reschedule := Stay,
                                             killPending := true)],
              queue := if x.scheduled then s.queue else s.queue + [t])
  {
    var x := s.tasklets[t];
    var y := x.(scheduled := true, exception := true, reschedule := Stay, killPending := true);
    assert KillPending(s, t).tasklets == s.tasklets[t := y];
  }

  lemma FinishEffect(s: State)
    requires s.current in s.tasklets
    ensures var (me, x) := (s.current, s.tasklets[s.current]);
            Finish(s) == s.(tasklets := s.tasklets[me := EndRecord(x.(at := Finished))],
                            queue := AfterTurn(s.queue, me, x.reschedule), current := MAIN)
  {
    var (me, x) := (s.current, s.tasklets[s.current]);
    PutTwice(s.tasklets, me, x.(at := Finished), EndRecord(x.(at := Finished)));
  }

  /** The switch to a tasklet killed before it ever ran. */
  lemma StillbornEffect(s: State, t: Tid)
    requires t in s.tasklets && !s.tasklets[t].started && s.tasklets[t].exception && !InChannelCall(s.tasklets[t].at)
    ensures var x := s.tasklets[t];
            Switch(s, t) == s.(tasklets := s.tasklets[t := EndRecord(x.(alive := false, at := Finished))],
                               queue := AfterTurn(s.queue, t, x.reschedule), current := MAIN)
  {
    var x := s.tasklets[t].(alive := false, at := Finished);
    PutTwice(s.tasklets, t, x, EndRecord(x));
  }

  /** Any other switch: the tasklet resumes, with its pending exception raised. */
  lemma SwitchEffect(s: State, t: Tid)
    requires t in s.tasklets && (s.tasklets[t].started || !s.tasklets[t].exception)
    requires InChannelCall(s.tasklets[t].at) ==> s.tasklets[t].at.c in s.channels
    ensures var x := s.tasklets[t];
            var (y, ok, at) := (x.(started := true, exception := false), !x.exception, x.at);
            Switch(s, t) == s.(
              tasklets := s.tasklets[t := ResumeRecord(y, ok)],
              channels := if InChannelCall(at) then s.channels[at.c := ResumeChannel(s.channels[at.c], y, t, ok)]
                          else s.channels,
              outcomes := ResumeOutcomes(s.outcomes, y, ok), current := t)
  {
    var x := s.tasklets[t];
    var y := x.(started := true, exception := false);
    var s1 := Put(s.(current := t), t, y);
    ResumeEffect(s1, t, !x.exception);
    PutTwice(s.tasklets, t, y, ResumeRecord(y, !x.exception));
  }

  lemma ResumeEffect(s: State, t: Tid, ok: bool)
    requires t in s.tasklets
    requires InChannelCall(s.tasklets[t].at) ==> s.tasklets[t].at.c in s.channels
    ensures var (x, at) := (s.tasklets[t], s.tasklets[t].at);
            Resume(s, t, ok) == s.(
              tasklets := s.tasklets[t := ResumeRecord(x, ok)],
              channels := if InChannelCall(at) then s.channels[at.c := ResumeChannel(s.channels[at.c], x, t, ok)]
                          else s.channels,
              outcomes := ResumeOutcomes(s.outcomes, x, ok))
  {
    var at := s.tasklets[t].at;
    if at.InSend? || at.InSendHandoff? {
      ResumeSendEffect(s, t, ok);
    } else if at.InReceive? || at.InReceiveHandoff? {
      ResumeReceiveEffect(s, t, ok);
    } else {
      ResumePlainEffect(s, t, ok);
    }
  }
}
