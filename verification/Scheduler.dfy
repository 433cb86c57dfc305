/** The tasklet scheduler and its channels as a machine over values.

    The run queue and the blocked lists are sequences; `RunQueue` and `BlockedLists` show that the
    linked structures implement the same sequence operations. One tasklet is current at a time: the
    main tasklet, which drives `Run`, or the tasklet it has switched to. A step is one call made by
    the current tasklet, one switch made by the loop of `Run`, or the end of a call in which the
    main tasklet was waiting. */
module Scheduler {
  import opened Options
  import opened Flags
  import opened Lists

  type Tid = nat
  type Cid = nat
  type Call = nat

  const MAIN: Tid := 0

  /** What a channel carries: a value, or an exception to raise in the receiver. */
  datatype Message = Data(value: int) | Raise(exception: int)

  /** The scheduler call in which a tasklet is suspended. */
  datatype Suspension =
    | Idle
    | InYield
    | InSend(c: Cid, call: Call)
    | InReceive(c: Cid, call: Call)
    | InSendHandoff(c: Cid)
    | InReceiveHandoff(c: Cid, call: Call)
    | Finished

  predicate InChannelCall(at: Suspension) {
    at.InSend? || at.InReceive? || at.InSendHandoff? || at.InReceiveHandoff?
  }

  /** `exception` is a pending TaskletExit, `transferring` is `m_transferInProgress`, `slot` is the
      transfer-argument slot. */
  datatype Tasklet = Tasklet(
    alive: bool, scheduled: bool, blockedOn: Option<Cid>, direction: Direction,
    transferring: bool, slot: Option<Message>, reschedule: Reschedule, tagged: bool,
    killPending: bool, exception: bool, started: bool, at: Suspension)

  const FRESH: Tasklet :=
    Tasklet(true, false, None, Neither, false, None, Stay, false, false, false, false, Idle)

  datatype SendCall = SendCall(call: Call, message: Message)

  /** `sends` and `receives` are history: the calls made on the channel and not cancelled while
      blocked, in call order. */
  datatype Channel = Channel(
    senders: seq<Tid>, receivers: seq<Tid>, balance: int, preference: Direction,
    closing: bool, closed: bool, sends: seq<SendCall>, receives: seq<Call>)

  const NEW_CHANNEL: Channel := Channel([], [], 0, Receiver, false, false, [], [])

  /** How a receive call ended: with a message, or interrupted after its message had arrived. */
  datatype Outcome = Got(message: Message) | Lost

  datatype State = State(
    tasklets: map<Tid, Tasklet>, channels: map<Cid, Channel>, queue: seq<Tid>, current: Tid,
    nextCall: Call, outcomes: map<Call, Outcome>)

  const INITIAL: State :=
    State(map[MAIN := FRESH.(scheduled := true, started := true)], map[], [MAIN], MAIN, 0, map[])

  /** Enough structure for the operations below to be defined. */
  ghost predicate Shaped(s: State) {
    && MAIN in s.tasklets && s.current in s.tasklets
    && s.queue != [] && s.queue[0] == MAIN && s.current in s.queue
    && (forall t :: t in s.queue ==> t in s.tasklets)
  }

  // ---- Fields ----

  function Put(s: State, t: Tid, x: Tasklet): State {
    s.(tasklets := s.tasklets[t := x])
  }

  function PutChannel(s: State, c: Cid, ch: Channel): State {
    s.(channels := s.channels[c := ch])
  }

  // ---- The run queue (ScheduleManager) ----

  /** `InsertTasklet`. */
  function Insert(s: State, t: Tid): State
    requires t in s.tasklets
  {
    var x := s.tasklets[t];
    if x.scheduled then Put(s, t, x.(reschedule := Back))
    else Put(s, t, x.(blockedOn := None, scheduled := true)).(queue := s.queue + [t])
  }

  /** `InsertTaskletToRunNext`. */
  function InsertNext(s: State, t: Tid): State
    requires t in s.tasklets && s.current in s.queue
  {
    var x := s.tasklets[t];
    if x.scheduled then Put(s, t, x.(reschedule := Back))
    else Put(s, t, x.(blockedOn := None, scheduled := true)).(queue := InsertAfter(s.queue, s.current, t))
  }

  /** `RemoveTasklet`. */
  function Remove(s: State, t: Tid): State
    requires t in s.tasklets
  {
    if t in s.queue then Put(s, t, s.tasklets[t].(scheduled := false)).(queue := Without(s.queue, t)) else s
  }

  // ---- The blocked lists (Channel) ----

  /** `AddTaskletToWaitingToSend` and `AddTaskletToWaitingToReceive`. */
  function Add(s: State, c: Cid, d: Direction, t: Tid): State
    requires t in s.tasklets && c in s.channels && d != Neither
  {
    var ch := s.channels[c];
    var ch' := if d == Sender then ch.(senders := ch.senders + [t], balance := ch.balance + 1)
               else ch.(receivers := ch.receivers + [t], balance := ch.balance - 1);
    PutChannel(Put(s, t, s.tasklets[t].(direction := d)), c, ch')
  }

  /** A channel after `t`, blocked in direction `d`, has left its lists. */
  function OffLists(ch: Channel, t: Tid, d: Direction): Channel {
    ch.(senders := Without(ch.senders, t), receivers := Without(ch.receivers, t),
        balance := if d == Sender then ch.balance - 1 else if d == Receiver then ch.balance + 1 else ch.balance)
  }

  /** `RemoveTaskletFromBlocked`. */
  function RemoveBlocked(s: State, c: Cid, t: Tid): State
    requires t in s.tasklets && c in s.channels
  {
    PutChannel(Put(s, t, s.tasklets[t].(direction := Neither)), c,
               OffLists(s.channels[c], t, s.tasklets[t].direction))
  }

  function Block(s: State, c: Cid, t: Tid): State
    requires t in s.tasklets
  {
    Put(s, t, s.tasklets[t].(blockedOn := Some(c)))
  }

  function Unblock(s: State, t: Tid): State
    requires t in s.tasklets
  {
    Put(s, t, s.tasklets[t].(blockedOn := None))
  }

  function CloseIfDrained(ch: Channel): Channel {
    if ch.closing && ch.balance == 0 then ch.(closed := true) else ch
  }

  /** `UpdateCloseState`. */
  function UpdateClose(s: State, c: Cid): State
    requires c in s.channels
  {
    PutChannel(s, c, CloseIfDrained(s.channels[c]))
  }

  // ---- History ----

  function WithoutCall(sends: seq<SendCall>, call: Call): seq<SendCall> {
    if sends == [] then []
    else if sends[0].call == call then sends[1..]
    else [sends[0]] + WithoutCall(sends[1..], call)
  }

  /** A call that gives up while still blocked leaves the channel's history. */
  function CancelCall(ch: Channel, at: Suspension): Channel {
    match at
    case InSend(_, call) => ch.(sends := WithoutCall(ch.sends, call))
    case InReceive(_, call) => ch.(receives := Without(ch.receives, call))
    case _ => ch
  }

  function Cancel(s: State, c: Cid, t: Tid): State
    requires t in s.tasklets && c in s.channels
  {
    PutChannel(s, c, CancelCall(s.channels[c], s.tasklets[t].at))
  }

  // ---- The end of a turn ----

  /** What `SwitchTo` decides when control comes back from `x`: a tasklet that left no sign of
      intending to continue is dead. */
  function Returned(x: Tasklet): Tasklet {
    var goesOn := x.blockedOn.Some? || x.transferring || x.reschedule != Stay || x.tagged;
    x.(alive := x.alive && goesOn, tagged := false)
  }

  /** The queue after the turn of `t`, as the loop of `Run` leaves it. */
  function AfterTurn<T(==)>(queue: seq<T>, t: T, r: Reschedule): seq<T> {
    var rest := Without(queue, t);
    match r
    case Stay => rest
    case Back => rest + [t]
    case FrontPlusOne => if |rest| >= 2 then rest[..2] + [t] + rest[2..] else rest + [t]
  }

  /** The record of a tasklet whose turn has ended. */
  function EndRecord(x: Tasklet): Tasklet {
    var y := Returned(x);
    var again := y.reschedule != Stay;
    y.(scheduled := again, reschedule := Stay, blockedOn := if again then None else y.blockedOn)
  }

  /** Control returns from the current tasklet to the main tasklet. */
  function EndTurn(s: State): State
    requires s.current in s.tasklets
  {
    var x := s.tasklets[s.current];
    Put(s, s.current, EndRecord(x)).(queue := AfterTurn(s.queue, s.current, x.reschedule), current := MAIN)
  }

  /** The current tasklet gives up control inside a scheduler call; the main tasklet keeps it and
      goes on to run the others. */
  function Yield(s: State, at: Suspension): State
    requires s.current in s.tasklets
  {
    var s1 := Put(s, s.current, s.tasklets[s.current].(at := at));
    if s.current == MAIN then s1 else EndTurn(s1)
  }

  // ---- The rest of a call, after control has come back to its caller ----

  /** The tail of `Receive`: the message is handed to the caller and the slot cleared. */
  function Deliver(s: State, c: Cid, t: Tid, call: Call): State
    requires t in s.tasklets && c in s.channels
  {
    var x := s.tasklets[t];
    var x' := x.(transferring := false, slot := None, at := Idle);
    if x.slot.None? then Put(s, t, x')
    else
      var s1 := Put(s, t, x').(outcomes := s.outcomes[call := Got(x.slot.value)]);
      if x.slot.value.Raise? then UpdateClose(s1, c) else s1
  }

  /** A blocking call that fails: the caller leaves the blocked list if it is still on it. */
  function Abandon(s: State, c: Cid, t: Tid): State
    requires t in s.tasklets && c in s.channels
  {
    var s0 := if s.tasklets[t].direction != Neither then Cancel(s, c, t) else s;
    var s1 := RemoveBlocked(s0, c, t);
    var s2 := Put(s1, t, s1.tasklets[t].(transferring := false, slot := None, blockedOn := None, at := Idle));
    UpdateClose(s2, c)
  }

  function MarkLost(s: State, t: Tid, call: Call): State
    requires t in s.tasklets
  {
    if s.tasklets[t].slot.Some? && s.tasklets[t].blockedOn.None? then s.(outcomes := s.outcomes[call := Lost]) else s
  }

  function Resume(s: State, t: Tid, ok: bool): State
    requires t in s.tasklets
    requires InChannelCall(s.tasklets[t].at) ==> s.tasklets[t].at.c in s.channels
  {
    var x := s.tasklets[t];
    match x.at
    case Idle => s
    case Finished => s
    case InYield => Put(s, t, x.(at := Idle))
    case InSend(c, _) =>
      if ok then UpdateClose(Put(s, t, x.(transferring := false, at := Idle)), c) else Abandon(s, c, t)
    case InReceive(c, call) =>
      if ok then Deliver(s, c, t, call) else Abandon(MarkLost(s, t, call), c, t)
    case InSendHandoff(c) =>
      UpdateClose(Put(s, t, x.(transferring := x.transferring && !ok, at := Idle)), c)
    case InReceiveHandoff(c, call) =>
      if ok then Deliver(s, c, t, call) else UpdateClose(Put(MarkLost(s, t, call), t, x.(at := Idle)), c)
  }

  // ---- Calls of the current tasklet ----

  /** Every channel call starts by marking the transfer and taking a call number. */
  function BeginCall(s: State): State
    requires s.current in s.tasklets
  {
    Put(s, s.current, s.tasklets[s.current].(transferring := true)).(nextCall := s.nextCall + 1)
  }

  function LogSend(s: State, c: Cid, call: Call, m: Message): State
    requires c in s.channels
  {
    PutChannel(s, c, s.channels[c].(sends := s.channels[c].sends + [SendCall(call, m)]))
  }

  function LogReceive(s: State, c: Cid, call: Call): State
    requires c in s.channels
  {
    PutChannel(s, c, s.channels[c].(receives := s.channels[c].receives + [call]))
  }

  /** `Send` with nobody waiting: the caller blocks with its message in its own slot. */
  function SendBlocks(s: State, c: Cid, m: Message): State
    requires s.current in s.tasklets && c in s.channels
  {
    var me := s.current;
    var s1 := LogSend(BeginCall(s), c, s.nextCall, m);
    var s2 := Block(Add(s1, c, Sender, me), c, me);
    Yield(Put(s2, me, s2.tasklets[me].(slot := Some(m))), InSend(c, s.nextCall))
  }

  /** `Send` with a receiver waiting: the message goes to the slot of the longest-waiting one. */
  function SendMatches(s: State, c: Cid, m: Message): State
    requires s.current in s.tasklets && c in s.channels
    requires s.channels[c].receivers != [] && s.channels[c].receivers[0] in s.tasklets
  {
    var r := s.channels[c].receivers[0];
    var s1 := LogSend(BeginCall(s), c, s.nextCall, m);
    var s2 := Unblock(RemoveBlocked(s1, c, r), r);
    UpdateClose(Put(s2, r, s2.tasklets[r].(slot := Some(m))), c)
  }

  /** The caller prefers its partner: the partner runs next, the caller goes to the back. */
  function HandOff(s: State, partner: Tid, at: Suspension): State
    requires s.current in s.tasklets && partner in s.tasklets && s.current in s.queue
  {
    var s1 := InsertNext(s, partner);
    Yield(Put(s1, s.current, s1.tasklets[s.current].(reschedule := Back)), at)
  }

  /** `Send`. A closing channel refuses to block the caller, whose transfer mark stays set. */
  function Send(s: State, c: Cid, m: Message): State
    requires Shaped(s) && c in s.channels
    requires s.channels[c].receivers != [] ==> s.channels[c].receivers[0] in s.tasklets
  {
    var ch := s.channels[c];
    if ch.receivers == [] then
      if ch.closed || ch.closing then BeginCall(s) else SendBlocks(s, c, m)
    else
      var s1 := SendMatches(s, c, m);
      if ch.preference == Receiver then HandOff(s1, ch.receivers[0], InSendHandoff(c))
      else SendContinues(Insert(s1, ch.receivers[0]), c)
  }

  function SendContinues(s: State, c: Cid): State
    requires s.current in s.tasklets && c in s.channels
  {
    UpdateClose(Put(s, s.current, s.tasklets[s.current].(transferring := false)), c)
  }

  /** `Receive` on a closing channel with nobody waiting: the caller is listed and taken off again. */
  function ReceiveRefused(s: State, c: Cid): State
    requires s.current in s.tasklets && c in s.channels
  {
    var s1 := RemoveBlocked(Add(BeginCall(s), c, Receiver, s.current), c, s.current);
    Put(s1, s.current, s1.tasklets[s.current].(transferring := false))
  }

  function ReceiveBlocks(s: State, c: Cid): State
    requires s.current in s.tasklets && c in s.channels
  {
    var s1 := LogReceive(BeginCall(s), c, s.nextCall);
    Yield(Block(Add(s1, c, Receiver, s.current), c, s.current), InReceive(c, s.nextCall))
  }

  /** `Receive` with a sender waiting: the message moves from the slot of the longest-waiting one
      to the caller's. */
  function ReceiveMatches(s: State, c: Cid): State
    requires s.current in s.tasklets && c in s.channels
    requires s.channels[c].senders != [] && s.channels[c].senders[0] in s.tasklets
  {
    var p := s.channels[c].senders[0];
    var s1 := LogReceive(BeginCall(s), c, s.nextCall);
    var s2 := Unblock(RemoveBlocked(s1, c, p), p);
    var m := s2.tasklets[p].slot;
    var s3 := Put(s2, p, s2.tasklets[p].(transferring := false, slot := None));
    UpdateClose(Put(s3, s.current, s3.tasklets[s.current].(slot := m)), c)
  }

  /** `Receive`. */
  function Receive(s: State, c: Cid): State
    requires Shaped(s) && c in s.channels
    requires s.channels[c].senders != [] ==> s.channels[c].senders[0] in s.tasklets
  {
    var ch := s.channels[c];
    if ch.senders == [] then
      if ch.closed || ch.closing then ReceiveRefused(s, c) else ReceiveBlocks(s, c)
    else
      var s1 := ReceiveMatches(s, c);
      if ch.preference == Sender then HandOff(s1, ch.senders[0], InReceiveHandoff(c, s.nextCall))
      else Deliver(Insert(s1, ch.senders[0]), c, s.current, s.nextCall)
  }

  /** `Schedule`; with `remove`, `schedule_remove`. */
  function Schedule(s: State, remove: bool): State
    requires Shaped(s)
  {
    var x := s.tasklets[s.current];
    Yield(Put(s, s.current, if remove then x.(tagged := true) else x.(reschedule := Back)), InYield)
  }

  /** `Tasklet::Run` without nested tasklets. */
  function RunTasklet(s: State, t: Tid): State
    requires Shaped(s) && t in s.tasklets && t != MAIN && t != s.current
  {
    if !s.tasklets[t].alive || s.tasklets[t].blockedOn.Some? then s
    else
      var s1 := if s.tasklets[t].scheduled then Remove(s, t) else s;
      if s1.current in s1.queue then
        var s2 := InsertNext(s1, t);
        Yield(Put(s2, s.current, s2.tasklets[s.current].(reschedule := FrontPlusOne)), InYield)
      else s
  }

  /** `Tasklet::Insert`. */
  function InsertCall(s: State, t: Tid): State
    requires t in s.tasklets
  {
    if s.tasklets[t].blockedOn.Some? || !s.tasklets[t].alive then s else Insert(s, t)
  }

  /** `Tasklet::Remove`. */
  function RemoveCall(s: State, t: Tid): State
    requires t in s.tasklets
  {
    if s.tasklets[t].scheduled then Remove(s, t) else s
  }

  /** `Tasklet::Kill` with `pending`, on a tasklet other than the current one. */
  function KillPending(s: State, t: Tid): State
    requires t in s.tasklets
    requires s.tasklets[t].blockedOn.Some? ==> s.tasklets[t].blockedOn.value in s.channels
  {
    var x := s.tasklets[t];
    if !x.alive || x.killPending then s
    else
      var s1 := Put(s, t, x.(blockedOn := None, exception := true));
      var s2 := Insert(s1, t);
      var s3 := Put(s2, t, s2.tasklets[t].(reschedule := Stay, killPending := true));
      if x.blockedOn.Some? then RemoveBlocked(Cancel(s3, x.blockedOn.value, t), x.blockedOn.value, t) else s3
  }

  /** A tasklet bound to a callable and arguments, not scheduled yet. */
  function Create(s: State, t: Tid): State {
    Put(s, t, FRESH)
  }

  function Spawn(s: State, t: Tid): State {
    Insert(Create(s, t), t)
  }

  /** The callable of the current tasklet returns, or raises. */
  function Finish(s: State): State
    requires s.current in s.tasklets
  {
    EndTurn(Put(s, s.current, s.tasklets[s.current].(at := Finished)))
  }

  // ---- The loop of Run ----

  /** `Run` switches to `t`. A tasklet killed before its first run dies without running. */
  function Switch(s: State, t: Tid): State
    requires t in s.tasklets
    requires InChannelCall(s.tasklets[t].at) ==> s.tasklets[t].at.c in s.channels
  {
    var x := s.tasklets[t];
    if !x.started && x.exception then
      EndTurn(Put(s.(current := t), t, x.(alive := false, at := Finished)))
    else
      Resume(Put(s.(current := t), t, x.(started := true, exception := false)), t, !x.exception)
  }

  // ---- Steps ----

  datatype Action =
    | DoCreate(t: Tid)
    | DoSpawn(t: Tid)
    | DoInsert(t: Tid)
    | DoRemove(t: Tid)
    | DoRun(t: Tid)
    | DoKill(t: Tid)
    | DoSchedule
    | DoScheduleRemove
    | DoSend(c: Cid, m: Message)
    | DoReceive(c: Cid)
    | DoNewChannel(c: Cid)
    | DoClose(c: Cid)
    | DoOpen(c: Cid)
    | DoPrefer(c: Cid, d: Direction)
    | DoFinish
    | DoSwitch(t: Tid)
    | DoMainReturn(ok: bool)

  /** The main tasklet is inside a call that runs the others. */
  predicate Looping(s: State) {
    s.current == MAIN && MAIN in s.tasklets && s.tasklets[MAIN].at != Idle
  }

  /** The current tasklet runs code of its own. */
  predicate Running(s: State) {
    s.current in s.tasklets && s.tasklets[s.current].at == Idle
  }

  /** The steps in scope: one thread, no block traps; `insert` only on tasklets that are not
      scheduled; nobody removes, runs or kills itself or the main tasklet. */
  ghost predicate Allowed(s: State, a: Action) {
    match a
    case DoCreate(t) => Running(s) && t !in s.tasklets
    case DoSpawn(t) => Running(s) && t !in s.tasklets
    case DoInsert(t) => Running(s) && t in s.tasklets && !s.tasklets[t].scheduled
    case DoRemove(t) => Running(s) && t in s.tasklets && t != MAIN && t != s.current
    case DoRun(t) => Running(s) && t in s.tasklets && t != MAIN && t != s.current
    case DoKill(t) => Running(s) && t in s.tasklets && t != MAIN && t != s.current
    case DoSchedule => Running(s)
    case DoScheduleRemove => Running(s) && s.current != MAIN
    case DoSend(c, _) => Running(s) && c in s.channels
    case DoReceive(c) => Running(s) && c in s.channels
    case DoNewChannel(c) => Running(s) && c !in s.channels
    case DoClose(c) => Running(s) && c in s.channels
    case DoOpen(c) => Running(s) && c in s.channels
    case DoPrefer(c, _) => Running(s) && c in s.channels
    case DoFinish => s.current != MAIN
    case DoSwitch(t) => Looping(s) && t in s.queue && t != MAIN
    case DoMainReturn(ok) => Looping(s) && (ok ==> s.tasklets[MAIN].blockedOn.None?)
  }

  /** `Close`. */
  function Close(s: State, c: Cid): State
    requires c in s.channels
  {
    UpdateClose(PutChannel(s, c, s.channels[c].(closing := true)), c)
  }

  function Open(s: State, c: Cid): State
    requires c in s.channels
  {
    PutChannel(s, c, s.channels[c].(closing := false, closed := false))
  }

  function NewChannel(s: State, c: Cid): State {
    PutChannel(s, c, NEW_CHANNEL)
  }

  function Prefer(s: State, c: Cid, d: Direction): State
    requires c in s.channels
  {
    PutChannel(s, c, s.channels[c].(preference := d))
  }
}
