/** What every step of the scheduler keeps. */
module SchedulerInvariant {
  import opened Options
  import opened Flags
  import opened Lists
  import opened Scheduler

  // ---- Flags agree with lists ----

  /** The run queue starts with the main tasklet, has no repetition, and holds exactly the
      tasklets flagged as scheduled. */
  ghost predicate QueueOk(s: State) {
    && MAIN in s.tasklets && s.current in s.tasklets && s.current in s.queue
    && s.queue != [] && s.queue[0] == MAIN && Distinct(s.queue)
    && (forall t :: t in s.queue <==> t in s.tasklets && s.tasklets[t].scheduled)
  }

  /** A blocked list of `c` holds `t` exactly when `t` is flagged as blocked on `c` in that
      direction. */
  ghost predicate Listed(s: State, c: Cid, t: Tid)
    requires c in s.channels
  {
    && (t in s.channels[c].senders <==>
          t in s.tasklets && s.tasklets[t].blockedOn == Some(c) && s.tasklets[t].direction == Sender)
    && (t in s.channels[c].receivers <==>
          t in s.tasklets && s.tasklets[t].blockedOn == Some(c) && s.tasklets[t].direction == Receiver)
  }

  /** A tasklet has a direction exactly while it is blocked on some channel. */
  ghost predicate Directed(s: State, t: Tid)
    requires t in s.tasklets
  {
    var x := s.tasklets[t];
    && (x.blockedOn.Some? ==> x.blockedOn.value in s.channels)
    && (x.blockedOn.Some? <==> x.direction != Neither)
  }

  ghost predicate ListsOk(s: State) {
    && (forall c, t :: c in s.channels ==> Listed(s, c, t))
    && (forall t :: t in s.tasklets ==> Directed(s, t))
  }

  /** At most one of the two lists is non-empty, the balance is the difference of their lengths,
      and a closed channel is closing and blocks nobody. */
  predicate ChannelShape(ch: Channel) {
    && ch.balance == |ch.senders| - |ch.receivers|
    && (ch.senders == [] || ch.receivers == [])
    && (ch.closed ==> ch.closing && ch.senders == [] && ch.receivers == [])
  }

  ghost predicate ChannelOk(ch: Channel) {
    Distinct(ch.senders) && Distinct(ch.receivers) && ChannelShape(ch)
  }

  ghost predicate ChannelsOk(s: State) {
    forall c :: c in s.channels ==> ChannelOk(s.channels[c])
  }

  // ---- What holds of one tasklet on its own ----

  /** Between steps a tasklet other than main is in at most one place, carries no leftover
      rescheduling request, and is nowhere once dead. */
  predicate PlaceOk(x: Tasklet, isMain: bool) {
    && (x.blockedOn.Some? && !isMain ==> !x.scheduled)
    && (!isMain ==> x.reschedule == Stay && !x.tagged)
    && (!x.alive && !isMain ==> !x.scheduled && x.blockedOn.None?)
    && (isMain ==> x.alive && x.scheduled && x.started && !x.exception && !x.killPending && x.at != Finished)
  }

  /** A tasklet is blocked only inside the send or receive that blocked it; a blocked sender holds
      its message, and so does a receiver whose partner has come. */
  predicate SlotOk(x: Tasklet) {
    match x.at
    case InSend(c, _) => x.blockedOn.Some? ==> x.blockedOn == Some(c) && x.direction == Sender && x.slot.Some?
    case InReceive(c, _) =>
      && (x.blockedOn.Some? ==> x.blockedOn == Some(c) && x.direction == Receiver)
      && (x.slot.None? && x.blockedOn.None? ==> x.exception)
    case InReceiveHandoff(_, _) => x.blockedOn.None? && x.slot.Some?
    case _ => x.blockedOn.None?
  }

  predicate TaskletOk(x: Tasklet, isMain: bool, isCurrent: bool) {
    && PlaceOk(x, isMain)
    && SlotOk(x)
    && (x.blockedOn.Some? ==> !x.exception)
    && (!x.started ==> x.at == Idle || x.at == Finished)
    && (isCurrent && !isMain ==> x.at == Idle || x.at == Finished)
    && (isCurrent && !isMain ==> !x.exception && x.started)
  }

  ghost predicate TaskletsOk(s: State) {
    && (forall t :: t in s.tasklets ==> TaskletOk(s.tasklets[t], t == MAIN, t == s.current))
    && (forall t :: t in s.tasklets && InChannelCall(s.tasklets[t].at) ==> s.tasklets[t].at.c in s.channels)
  }

  /** The placement invariant. */
  ghost predicate Placed(s: State) {
    Struct(s) && TaskletsOk(s)
  }

  ghost predicate Struct(s: State) {
    QueueOk(s) && ListsOk(s) && ChannelsOk(s)
  }
}
