/** What one step does to one tasklet: who dies, who becomes runnable or stops being so, who blocks and
    who is released, who is killed, and in which call everybody is suspended. */
module TaskletSteps {
  import opened Options
  import opened Flags
  import opened Scheduler
  import opened SchedulerInvariant
  import opened SchedulerSteps
  import opened SchedulerEffects
  import opened SchedulerPlacement

  // ---- Events ----

  /** The call is a send or a receive that finds nobody to meet on an open channel. */
  predicate Waits(s: State, a: Action) {
    || (a.DoSend? && a.c in s.channels && s.channels[a.c].receivers == [] && Accepts(s.channels[a.c]))
    || (a.DoReceive? && a.c in s.channels && s.channels[a.c].senders == [] && Accepts(s.channels[a.c]))
  }

  predicate Accepts(ch: Channel) {
    !ch.closing && !ch.closed
  }

  /** `t` is the longest-waiting partner that the call meets. */
  predicate MetBy(s: State, a: Action, t: Tid) {
    || (a.DoSend? && a.c in s.channels && s.channels[a.c].receivers != [] && s.channels[a.c].receivers[0] == t)
    || (a.DoReceive? && a.c in s.channels && s.channels[a.c].senders != [] && s.channels[a.c].senders[0] == t)
  }

  /** The call meets a partner that the channel prefers to its caller. */
  predicate HandsOver(s: State, a: Action) {
    || (a.DoSend? && a.c in s.channels && s.channels[a.c].receivers != [] && s.channels[a.c].preference == Receiver)
    || (a.DoReceive? && a.c in s.channels && s.channels[a.c].senders != [] && s.channels[a.c].preference == Sender)
  }

  predicate Runnable(x: Tasklet) {
    x.alive && x.blockedOn.None?
  }

  predicate KilledBy(x: Tasklet, a: Action, t: Tid) {
    a == DoKill(t) && x.alive && !x.killPending
  }

  /** The switch to a tasklet killed before it ever ran. */
  predicate Stillborn(x: Tasklet, a: Action, t: Tid) {
    a == DoSwitch(t) && !x.started && x.exception
  }

  /** The only ways to die: to finish without a transfer mark, and to be killed before the first run. */
  predicate Dies(s: State, x: Tasklet, a: Action, t: Tid) {
    (a.DoFinish? && t == s.current && !x.transferring) || Stillborn(x, a, t)
  }

  predicate Joins(s: State, x: Tasklet, a: Action, t: Tid) {
    MetBy(s, a, t) || KilledBy(x, a, t) || ((a == DoInsert(t) || a == DoRun(t)) && Runnable(x))
  }

  predicate Parts(s: State, x: Tasklet, a: Action, t: Tid) {
    t != MAIN && (|| a == DoRemove(t) || Stillborn(x, a, t)
                  || (t == s.current && (a.DoScheduleRemove? || a.DoFinish? || Waits(s, a))))
  }

  predicate ReleasedBy(s: State, x: Tasklet, a: Action, t: Tid) {
    MetBy(s, a, t) || KilledBy(x, a, t) || (t == MAIN && a == DoMainReturn(false))
  }

  /** The call in which the caller is suspended after its step, if the step suspends it. */
  function Suspends(s: State, a: Action): Option<Suspension> {
    match a
    case DoSchedule => Some(InYield)
    case DoScheduleRemove => Some(InYield)
    case DoFinish => Some(Finished)
    case DoRun(t) => if t in s.tasklets && Runnable(s.tasklets[t]) then Some(InYield) else None
    case DoSend(c, _) =>
      if Waits(s, a) then Some(InSend(c, s.nextCall))
      else if HandsOver(s, a) then Some(InSendHandoff(c)) else None
    case DoReceive(c) =>
      if Waits(s, a) then Some(InReceive(c, s.nextCall))
      else if HandsOver(s, a) then Some(InReceiveHandoff(c, s.nextCall)) else None
    case _ => None
  }

  function SuspendedAt(s: State, x: Tasklet, a: Action, t: Tid): Suspension {
    if a == DoSwitch(t) || (a.DoMainReturn? && t == MAIN) then
      if Stillborn(x, a, t) || x.at.Finished? then Finished else Idle
    else if t == s.current && Suspends(s, a).Some? then Suspends(s, a).value
    else x.at
  }

  // ---- One record ----

  predicate RecordFollows(s: State, a: Action, t: Tid, x: Tasklet, x': Tasklet) {
    && (x'.alive <==> x.alive && !Dies(s, x, a, t))
    && (x'.scheduled <==> (x.scheduled && !Parts(s, x, a, t)) || Joins(s, x, a, t))
    && x'.blockedOn == (if t == s.current && Waits(s, a) then Some(a.c)
                        else if ReleasedBy(s, x, a, t) then None else x.blockedOn)
    && (x'.killPending <==> x.killPending || KilledBy(x, a, t))
    && (x'.exception <==> KilledBy(x, a, t) || (x.exception && (a != DoSwitch(t) || !x.started)))
    && (x'.started <==> x.started || (a == DoSwitch(t) && !x.exception))
    && x'.at == SuspendedAt(s, x, a, t)
  }

  ghost predicate Follows(s: State, a: Action, t: Tid, s': State) {
    && t in s.tasklets && t in s'.tasklets && RecordFollows(s, a, t, s.tasklets[t], s'.tasklets[t])
    && (Uninvolved(s, a, t) ==> s'.tasklets[t] == s.tasklets[t])
  }

  /** The call has another tasklet as its target, or none. */
  predicate NotTarget(s: State, a: Action, t: Tid) {
    && a != DoInsert(t) && a != DoRemove(t) && a != DoRun(t) && a != DoKill(t) && a != DoSwitch(t)
    && (a.DoMainReturn? ==> t != MAIN) && !MetBy(s, a, t)
  }

  /** A tasklet to which nothing happens: not the target, and the caller only if it runs on after a call
      that is no transfer. */
  predicate Uninvolved(s: State, a: Action, t: Tid) {
    NotTarget(s, a, t) && (t == s.current ==> Suspends(s, a).None? && !IsTransfer(a))
  }

  lemma BystanderRecord(s: State, a: Action, t: Tid, x: Tasklet)
    requires NotTarget(s, a, t) && t != s.current
    ensures RecordFollows(s, a, t, x, x)
  {}

  lemma CallerRecord(s: State, a: Action, x: Tasklet)
    requires NotTarget(s, a, s.current) && Suspends(s, a).None? && !IsTransfer(a)
    ensures RecordFollows(s, a, s.current, x, x)
  {}

  lemma UninvolvedFollows(s: State, a: Action, t: Tid, s': State)
    requires t in s.tasklets && t in s'.tasklets && s'.tasklets[t] == s.tasklets[t] && Uninvolved(s, a, t)
    ensures Follows(s, a, t, s')
  {
    if t == s.current { CallerRecord(s, a, s.tasklets[t]); } else { BystanderRecord(s, a, t, s.tasklets[t]); }
  }

  // ---- Queue calls ----

  /** At most the record of `u` changes. */
  lemma OneFollows(s: State, a: Action, t: Tid, s': State, u: Tid, y: Tasklet)
    requires t in s.tasklets && u in s.tasklets && s'.tasklets == s.tasklets[u := y]
    requires RecordFollows(s, a, u, s.tasklets[u], y) && !Uninvolved(s, a, u) && (t != u ==> Uninvolved(s, a, t))
    ensures Follows(s, a, t, s')
  {
    if t != u { UninvolvedFollows(s, a, t, s'); }
  }

  /** At most the records of `u` and of the caller change. */
  lemma TwoFollow(s: State, a: Action, t: Tid, s': State, u: Tid, y: Tasklet, x: Tasklet)
    requires t in s.tasklets && s.current in s.tasklets && u in s.tasklets && u != s.current
    requires s'.tasklets == s.tasklets[u := y][s.current := x]
    requires RecordFollows(s, a, u, s.tasklets[u], y) && !Uninvolved(s, a, u)
    requires RecordFollows(s, a, s.current, s.tasklets[s.current], x) && !Uninvolved(s, a, s.current)
    requires t != u && t != s.current ==> Uninvolved(s, a, t)
    ensures Follows(s, a, t, s')
  {
    if t != u && t != s.current { UninvolvedFollows(s, a, t, s'); }
  }

  lemma SameFollows(s: State, a: Action, t: Tid, s': State)
    requires t in s.tasklets && s'.tasklets == s.tasklets && RecordFollows(s, a, t, s.tasklets[t], s.tasklets[t])
    ensures Follows(s, a, t, s')
  {}

  lemma InsertRecord(s: State, u: Tid, y: Tasklet)
    requires !y.scheduled
    ensures Runnable(y) ==> RecordFollows(s, DoInsert(u), u, y, QueuedRecord(y))
    ensures !Runnable(y) ==> RecordFollows(s, DoInsert(u), u, y, y)
  {}

  lemma InsertFollows(s: State, u: Tid, t: Tid)
    requires u in s.tasklets && !s.tasklets[u].scheduled && t in s.tasklets
    ensures Follows(s, DoInsert(u), t, InsertCall(s, u))
  {
    var y := s.tasklets[u];
    InsertRecord(s, u, y);
    if Runnable(y) {
      InsertEffect(s, u);
      OneFollows(s, DoInsert(u), t, InsertCall(s, u), u, QueuedRecord(y));
    } else {
      PutSame(s.tasklets, u);
      OneFollows(s, DoInsert(u), t, s, u, y);
    }
  }

  lemma PutSame(m: map<Tid, Tasklet>, t: Tid)
    requires t in m
    ensures m[t := m[t]] == m
  {}

  lemma RemoveRecord(s: State, u: Tid, y: Tasklet)
    requires u != MAIN
    ensures RecordFollows(s, DoRemove(u), u, y, y.(scheduled := false))
  {}

  lemma RemoveFollows(s: State, u: Tid, t: Tid)
    requires u in s.tasklets && (s.tasklets[u].scheduled ==> u in s.queue) && t in s.tasklets && u != MAIN
    ensures Follows(s, DoRemove(u), t, RemoveCall(s, u))
  {
    var y := s.tasklets[u];
    RemoveRecord(s, u, y);
    if !y.scheduled { PutSame(s.tasklets, u); }
    OneFollows(s, DoRemove(u), t, RemoveCall(s, u), u, y.(scheduled := false));
  }

  lemma CreateFollows(s: State, u: Tid, t: Tid)
    requires u !in s.tasklets && t in s.tasklets
    ensures Follows(s, DoCreate(u), t, Create(s, u)) && Follows(s, DoSpawn(u), t, Spawn(s, u))
  {
    UninvolvedFollows(s, DoCreate(u), t, Create(s, u));
    UninvolvedFollows(s, DoSpawn(u), t, Spawn(s, u));
  }

  function KilledRecord(y: Tasklet): Tasklet {
    if y.alive && !y.killPending
    then y.(scheduled := true, exception := true, reschedule := Stay, killPending := true, blockedOn := None,
            direction := if y.blockedOn.Some? then Neither else y.direction)
    else y
  }

  lemma KillRecord(s: State, u: Tid, y: Tasklet)
    requires u != MAIN && u != s.current
    ensures RecordFollows(s, DoKill(u), u, y, KilledRecord(y))
  {}

  lemma KillChanges(s: State, u: Tid)
    requires Placed(s) && u in s.tasklets && u != MAIN
    ensures s.tasklets[u].blockedOn.Some? ==> s.tasklets[u].blockedOn.value in s.channels
    ensures KillPending(s, u).tasklets == s.tasklets[u := KilledRecord(s.tasklets[u])]
  {
    var x := s.tasklets[u];
    assert Directed(s, u) && TaskletOk(x, false, u == s.current);
    if x.alive && !x.killPending {
      if x.blockedOn.Some? { KillBlockedEffect(s, u, x.blockedOn.value); } else { KillUnblockedEffect(s, u); }
    } else {
      PutSame(s.tasklets, u);
    }
  }

  lemma KillFollows(s: State, u: Tid, t: Tid)
    requires Placed(s) && u in s.tasklets && u != MAIN && u != s.current && t in s.tasklets
    ensures s.tasklets[u].blockedOn.Some? ==> s.tasklets[u].blockedOn.value in s.channels
    ensures Follows(s, DoKill(u), t, KillPending(s, u))
  {
    KillChanges(s, u);
    KillRecord(s, u, s.tasklets[u]);
    OneFollows(s, DoKill(u), t, KillPending(s, u), u, KilledRecord(s.tasklets[u]));
  }

  lemma RunRecords(s: State, u: Tid, x: Tasklet, y: Tasklet)
    requires u in s.tasklets && y == s.tasklets[u] && u != s.current && Ready(x, s.current == MAIN) && Runnable(y)
    ensures RecordFollows(s, DoRun(u), u, y, y.(scheduled := true))
    ensures RecordFollows(s, DoRun(u), s.current, x,
                          YieldRecord(x.(reschedule := FrontPlusOne), s.current == MAIN, InYield))
  {}

  lemma IdleRunRecord(s: State, u: Tid, t: Tid)
    requires u in s.tasklets && t in s.tasklets && !Runnable(s.tasklets[u])
    ensures RecordFollows(s, DoRun(u), t, s.tasklets[t], s.tasklets[t])
  {}

  lemma RunChanges(s: State, u: Tid, t: Tid)
    requires Shaped(s) && u in s.tasklets && u != MAIN && u != s.current && t in s.tasklets && Runnable(s.tasklets[u])
    requires (s.tasklets[u].scheduled <==> u in s.queue) && Ready(s.tasklets[s.current], s.current == MAIN)
    ensures Follows(s, DoRun(u), t, RunTasklet(s, u))
  {
    var (me, x, y) := (s.current, s.tasklets[s.current], s.tasklets[u]);
    RunEffect(s, u);
    RunRecords(s, u, x, y);
    TwoFollow(s, DoRun(u), t, RunTasklet(s, u), u, y.(scheduled := true),
              YieldRecord(x.(reschedule := FrontPlusOne), me == MAIN, InYield));
  }

  lemma RunFollows(s: State, u: Tid, t: Tid)
    requires Placed(s) && Running(s) && u in s.tasklets && u != MAIN && u != s.current && t in s.tasklets
    ensures Shaped(s) && Follows(s, DoRun(u), t, RunTasklet(s, u))
  {
    PlacedIsShaped(s);
    if Runnable(s.tasklets[u]) {
      CurrentReady(s);
      RunChanges(s, u, t);
    } else {
      IdleRunRecord(s, u, t);
      SameFollows(s, DoRun(u), t, RunTasklet(s, u));
    }
  }

  lemma QueueFollows(s: State, a: Action, t: Tid)
    requires Placed(s) && Allowed(s, a) && IsQueueCall(a) && t in s.tasklets
    ensures Follows(s, a, t, QueueAct(s, a))
  {
    match a
    case DoCreate(u) => CreateFollows(s, u, t);
    case DoSpawn(u) => CreateFollows(s, u, t);
    case DoInsert(u) => InsertFollows(s, u, t);
    case DoRemove(u) => RemoveFollows(s, u, t);
    case DoRun(u) => RunFollows(s, u, t);
    case DoKill(u) => KillFollows(s, u, t);
  }

  // ---- Transfers ----

  /** The caller of a call that blocks. */
  lemma ParkedFollows(s: State, a: Action, x: Tasklet, slot: Option<Message>)
    requires Ready(x, s.current == MAIN) && Waits(s, a) && !MetBy(s, a, s.current)
    ensures Suspends(s, a).Some?
    ensures var d := if a.DoSend? then Sender else Receiver;
            RecordFollows(s, a, s.current, x,
                          YieldRecord(ParkedRecord(x, a.c, d, slot), s.current == MAIN, Suspends(s, a).value))
  {}

  lemma BlocksFollow(s: State, a: Action, t: Tid, s': State, slot: Option<Message>)
    requires s.current in s.tasklets && Ready(s.tasklets[s.current], s.current == MAIN) && t in s.tasklets
    requires Waits(s, a) && (forall u :: !MetBy(s, a, u)) && Suspends(s, a).Some?
    requires var (me, d) := (s.current, if a.DoSend? then Sender else Receiver);
             s'.tasklets == s.tasklets[me := YieldRecord(ParkedRecord(s.tasklets[me], a.c, d, slot), me == MAIN,
                                                         Suspends(s, a).value)]
    ensures Follows(s, a, t, s')
  {
    var (me, d) := (s.current, if a.DoSend? then Sender else Receiver);
    ParkedFollows(s, a, s.tasklets[me], slot);
    OneFollows(s, a, t, s', me, YieldRecord(ParkedRecord(s.tasklets[me], a.c, d, slot), me == MAIN,
                                            Suspends(s, a).value));
  }

  /** The caller of a call that hands over. */
  lemma HandsOverFollows(s: State, a: Action, x: Tasklet, slot: Option<Message>)
    requires Ready(x, s.current == MAIN) && HandsOver(s, a) && !MetBy(s, a, s.current)
    ensures Suspends(s, a).Some?
    ensures RecordFollows(s, a, s.current, x,
                          YieldRecord(x.(transferring := true, slot := slot, reschedule := Back), s.current == MAIN,
                                      Suspends(s, a).value))
  {}

  /** The caller of a call that goes on at once. */
  lemma GoesOnFollows(s: State, a: Action, x: Tasklet, mark: bool, slot: Option<Message>)
    requires Ready(x, s.current == MAIN) && IsTransfer(a) && !HandsOver(s, a) && !Waits(s, a) && !MetBy(s, a, s.current)
    ensures RecordFollows(s, a, s.current, x, x.(transferring := mark, slot := slot, at := Idle))
  {}

  /** The partner. */
  lemma PartnerFollows(s: State, a: Action, u: Tid, y: Tasklet, m: Message)
    requires MetBy(s, a, u) && u != s.current && !Waits(s, a) && (y.scheduled ==> u == MAIN)
    ensures RecordFollows(s, a, u, y, ReceiverRecord(y, m)) && RecordFollows(s, a, u, y, SenderRecord(y))
  {}

  /** A call that meets `u`, whatever becomes of the caller. */
  lemma MeetsFollow(s: State, a: Action, t: Tid, s': State, u: Tid, y: Tasklet, x: Tasklet)
    requires t in s.tasklets && s.current in s.tasklets && u in s.tasklets && u != s.current && MetBy(s, a, u)
    requires s'.tasklets == s.tasklets[u := y][s.current := x]
    requires RecordFollows(s, a, u, s.tasklets[u], y) && RecordFollows(s, a, s.current, s.tasklets[s.current], x)
    ensures Follows(s, a, t, s')
  {
    TwoFollow(s, a, t, s', u, y, x);
  }

  lemma MeetsAndHandsOver(s: State, a: Action, t: Tid, s': State, u: Tid, y: Tasklet, slot: Option<Message>)
    requires t in s.tasklets && s.current in s.tasklets && u in s.tasklets && u != s.current && MetBy(s, a, u)
    requires Ready(s.tasklets[s.current], s.current == MAIN) && HandsOver(s, a) && !MetBy(s, a, s.current)
    requires RecordFollows(s, a, u, s.tasklets[u], y) && Suspends(s, a).Some?
    requires s'.tasklets == s.tasklets[u := y][s.current :=
               YieldRecord(s.tasklets[s.current].(transferring := true, slot := slot, reschedule := Back),
                           s.current == MAIN, Suspends(s, a).value)]
    ensures Follows(s, a, t, s')
  {
    var x := s.tasklets[s.current];
    HandsOverFollows(s, a, x, slot);
    MeetsFollow(s, a, t, s', u, y, YieldRecord(x.(transferring := true, slot := slot, reschedule := Back),
                                               s.current == MAIN, Suspends(s, a).value));
  }

  lemma MeetsAndGoesOn(s: State, a: Action, t: Tid, s': State, u: Tid, y: Tasklet, slot: Option<Message>)
    requires t in s.tasklets && s.current in s.tasklets && u in s.tasklets && u != s.current && MetBy(s, a, u)
    requires Ready(s.tasklets[s.current], s.current == MAIN) && !HandsOver(s, a) && !Waits(s, a)
    requires IsTransfer(a) && !MetBy(s, a, s.current) && RecordFollows(s, a, u, s.tasklets[u], y)
    requires s'.tasklets == s.tasklets[u := y][s.current :=
               s.tasklets[s.current].(transferring := false, slot := slot, at := Idle)]
    ensures Follows(s, a, t, s')
  {
    var x := s.tasklets[s.current];
    GoesOnFollows(s, a, x, false, slot);
    MeetsFollow(s, a, t, s', u, y, x.(transferring := false, slot := slot, at := Idle));
  }

  /** What a call that meets `u` does to the records: the partner's becomes `y`, and the caller either
      hands over with `kept` in its slot or goes on with `left` in it. */
  predicate MeetsAs(s: State, a: Action, s': State, u: Tid, y: Tasklet, kept: Option<Message>, left: Option<Message>)
    requires s.current in s.tasklets
  {
    var (me, x) := (s.current, s.tasklets[s.current]);
    if HandsOver(s, a) then
      && Suspends(s, a).Some?
      && s'.tasklets == s.tasklets[u := y][me :=
           YieldRecord(x.(transferring := true, slot := kept, reschedule := Back), me == MAIN, Suspends(s, a).value)]
    else s'.tasklets == s.tasklets[u := y][me := x.(transferring := false, slot := left, at := Idle)]
  }

  lemma MetFollows(s: State, a: Action, t: Tid, s': State, u: Tid, y: Tasklet, kept: Option<Message>,
                   left: Option<Message>)
    requires t in s.tasklets && s.current in s.tasklets && u in s.tasklets && u != s.current && MetBy(s, a, u)
    requires Ready(s.tasklets[s.current], s.current == MAIN) && !Waits(s, a) && !MetBy(s, a, s.current)
    requires IsTransfer(a) && RecordFollows(s, a, u, s.tasklets[u], y) && MeetsAs(s, a, s', u, y, kept, left)
    ensures Follows(s, a, t, s')
  {
    if HandsOver(s, a) {
      MeetsAndHandsOver(s, a, t, s', u, y, kept);
    } else {
      MeetsAndGoesOn(s, a, t, s', u, y, left);
    }
  }

  /** The records after a call that meets `u`, written out for either preference. */
  predicate HandedTo(s: State, s': State, u: Tid, y: Tasklet, kept: Option<Message>, at: Suspension)
    requires s.current in s.tasklets
  {
    var (me, x) := (s.current, s.tasklets[s.current]);
    s'.tasklets
    == s.tasklets[u := y][me := YieldRecord(x.(transferring := true, slot := kept, reschedule := Back), me == MAIN, at)]
  }

  predicate WentOn(s: State, s': State, u: Tid, y: Tasklet, left: Option<Message>)
    requires s.current in s.tasklets
  {
    s'.tasklets
    == s.tasklets[u := y][s.current := s.tasklets[s.current].(transferring := false, slot := left, at := Idle)]
  }

  lemma SendRecords(s: State, c: Cid, m: Message, s': State)
    requires Shaped(s) && c in s.channels && s.channels[c].receivers != [] && s.tasklets[s.current].at == Idle
    requires s.channels[c].receivers[0] in s.tasklets && s.channels[c].receivers[0] != s.current && s' == Send(s, c, m)
    ensures var (u, slot) := (s.channels[c].receivers[0], s.tasklets[s.current].slot);
            if s.channels[c].preference == Receiver
            then HandedTo(s, s', u, ReceiverRecord(s.tasklets[u], m), slot, InSendHandoff(c))
            else WentOn(s, s', u, ReceiverRecord(s.tasklets[u], m), slot)
  {
    if s.channels[c].preference == Receiver { SendHandsOffEffect(s, c, m); } else { SendGoesOnEffect(s, c, m); }
  }

  lemma ReceiveRecords(s: State, c: Cid, s': State)
    requires Shaped(s) && c in s.channels && s.channels[c].senders != []
    requires s.channels[c].senders[0] in s.tasklets && s.channels[c].senders[0] != s.current && s' == Receive(s, c)
    requires s.tasklets[s.channels[c].senders[0]].slot.Some?
    ensures var u := s.channels[c].senders[0];
            if s.channels[c].preference == Sender
            then HandedTo(s, s', u, SenderRecord(s.tasklets[u]), s.tasklets[u].slot, InReceiveHandoff(c, s.nextCall))
            else WentOn(s, s', u, SenderRecord(s.tasklets[u]), None)
  {
    if s.channels[c].preference == Sender { ReceiveHandsOffEffect(s, c); } else { ReceiveGoesOnEffect(s, c); }
  }

  lemma SendMeets(s: State, c: Cid, m: Message, s': State, u: Tid, y: Tasklet, slot: Option<Message>)
    requires s.current in s.tasklets && c in s.channels && s.channels[c].receivers != []
    requires if s.channels[c].preference == Receiver then HandedTo(s, s', u, y, slot, InSendHandoff(c))
             else WentOn(s, s', u, y, slot)
    ensures MeetsAs(s, DoSend(c, m), s', u, y, slot, slot)
  {}

  lemma ReceiveMeets(s: State, c: Cid, s': State, u: Tid, y: Tasklet, slot: Option<Message>)
    requires s.current in s.tasklets && c in s.channels && s.channels[c].senders != []
    requires if s.channels[c].preference == Sender then HandedTo(s, s', u, y, slot, InReceiveHandoff(c, s.nextCall))
             else WentOn(s, s', u, y, None)
    ensures MeetsAs(s, DoReceive(c), s', u, y, slot, None)
  {}

  lemma RefusedFollows(s: State, a: Action, t: Tid, s': State, mark: bool)
    requires s.current in s.tasklets && Ready(s.tasklets[s.current], s.current == MAIN) && t in s.tasklets
    requires IsTransfer(a) && !Waits(s, a) && !HandsOver(s, a) && forall u :: !MetBy(s, a, u)
    requires s'.tasklets == s.tasklets[s.current := s.tasklets[s.current].(transferring := mark)]
    ensures Follows(s, a, t, s')
  {
    var x := s.tasklets[s.current];
    GoesOnFollows(s, a, x, mark, x.slot);
    OneFollows(s, a, t, s', s.current, x.(transferring := mark));
  }

  lemma SendMetFollows(s: State, c: Cid, m: Message, t: Tid, s': State)
    requires s.current in s.tasklets && c in s.channels && s.channels[c].receivers != [] && t in s.tasklets
    requires Ready(s.tasklets[s.current], s.current == MAIN)
    requires var u := s.channels[c].receivers[0];
             && u in s.tasklets && u != s.current && (s.tasklets[u].scheduled ==> u == MAIN)
             && MeetsAs(s, DoSend(c, m), s', u, ReceiverRecord(s.tasklets[u], m),
                        s.tasklets[s.current].slot, s.tasklets[s.current].slot)
    ensures Follows(s, DoSend(c, m), t, s')
  {
    var (a, u, slot) := (DoSend(c, m), s.channels[c].receivers[0], s.tasklets[s.current].slot);
    PartnerFollows(s, a, u, s.tasklets[u], m);
    MetFollows(s, a, t, s', u, ReceiverRecord(s.tasklets[u], m), slot, slot);
  }

  lemma ReceiveMetFollows(s: State, c: Cid, t: Tid, s': State)
    requires s.current in s.tasklets && c in s.channels && s.channels[c].senders != [] && t in s.tasklets
    requires Ready(s.tasklets[s.current], s.current == MAIN)
    requires var u := s.channels[c].senders[0];
             && u in s.tasklets && u != s.current && (s.tasklets[u].scheduled ==> u == MAIN)
             && MeetsAs(s, DoReceive(c), s', u, SenderRecord(s.tasklets[u]), s.tasklets[u].slot, None)
    ensures Follows(s, DoReceive(c), t, s')
  {
    var (a, u) := (DoReceive(c), s.channels[c].senders[0]);
    PartnerFollows(s, a, u, s.tasklets[u], Data(0));
    MetFollows(s, a, t, s', u, SenderRecord(s.tasklets[u]), s.tasklets[u].slot, None);
  }

  lemma SendMatchedFollows(s: State, c: Cid, m: Message, t: Tid, s': State)
    requires Placed(s) && Running(s) && c in s.channels && t in s.tasklets && s.channels[c].receivers != []
    requires Shaped(s) && s.channels[c].receivers[0] in s.tasklets && s' == Send(s, c, m)
    ensures Follows(s, DoSend(c, m), t, s')
  {
    CurrentReady(s);
    WaitingReceiver(s, c);
    SendRecords(s, c, m, s');
    var u := s.channels[c].receivers[0];
    SendMeets(s, c, m, s', u, ReceiverRecord(s.tasklets[u], m), s.tasklets[s.current].slot);
    SendMetFollows(s, c, m, t, s');
  }

  lemma ReceiveMatchedFollows(s: State, c: Cid, t: Tid, s': State)
    requires Placed(s) && Running(s) && c in s.channels && t in s.tasklets && s.channels[c].senders != []
    requires Shaped(s) && s.channels[c].senders[0] in s.tasklets && s' == Receive(s, c)
    ensures Follows(s, DoReceive(c), t, s')
  {
    CurrentReady(s);
    WaitingSender(s, c);
    ReceiveRecords(s, c, s');
    var u := s.channels[c].senders[0];
    ReceiveMeets(s, c, s', u, SenderRecord(s.tasklets[u]), s.tasklets[u].slot);
    ReceiveMetFollows(s, c, t, s');
  }

  lemma SendUnmatchedFollows(s: State, c: Cid, m: Message, t: Tid)
    requires Shaped(s) && Ready(s.tasklets[s.current], s.current == MAIN) && c in s.channels && t in s.tasklets
    requires s.channels[c].receivers == []
    ensures Follows(s, DoSend(c, m), t, Send(s, c, m))
  {
    if s.channels[c].closed || s.channels[c].closing {
      RefusedFollows(s, DoSend(c, m), t, BeginCall(s), true);
    } else {
      SendBlocksEffect(s, c, m);
      BlocksFollow(s, DoSend(c, m), t, SendBlocks(s, c, m), Some(m));
    }
  }

  lemma ReceiveUnmatchedFollows(s: State, c: Cid, t: Tid)
    requires Struct(s) && Shaped(s) && Ready(s.tasklets[s.current], s.current == MAIN)
    requires c in s.channels && t in s.tasklets && s.channels[c].senders == []
    ensures Follows(s, DoReceive(c), t, Receive(s, c))
  {
    if s.channels[c].closed || s.channels[c].closing {
      ReceiveRefusedStruct(s, c);
      RefusedFollows(s, DoReceive(c), t, ReceiveRefused(s, c), false);
    } else {
      ReceiveBlocksEffect(s, c);
      BlocksFollow(s, DoReceive(c), t, ReceiveBlocks(s, c), s.tasklets[s.current].slot);
    }
  }

  lemma SendFollows(s: State, c: Cid, m: Message, t: Tid)
    requires Placed(s) && Running(s) && c in s.channels && t in s.tasklets
    ensures Shaped(s) && (s.channels[c].receivers != [] ==> s.channels[c].receivers[0] in s.tasklets)
    ensures Follows(s, DoSend(c, m), t, Send(s, c, m))
  {
    PlacedIsShaped(s);
    if s.channels[c].receivers != [] {
      SendMatchedFollows(s, c, m, t, Send(s, c, m));
    } else {
      CurrentReady(s);
      SendUnmatchedFollows(s, c, m, t);
    }
  }

  lemma ReceiveFollows(s: State, c: Cid, t: Tid)
    requires Placed(s) && Running(s) && c in s.channels && t in s.tasklets
    ensures Shaped(s) && (s.channels[c].senders != [] ==> s.channels[c].senders[0] in s.tasklets)
    ensures Follows(s, DoReceive(c), t, Receive(s, c))
  {
    PlacedIsShaped(s);
    if s.channels[c].senders != [] {
      ReceiveMatchedFollows(s, c, t, Receive(s, c));
    } else {
      CurrentReady(s);
      ReceiveUnmatchedFollows(s, c, t);
    }
  }

  // ---- Turns ----

  lemma ScheduleRecord(s: State, x: Tasklet)
    requires Ready(x, s.current == MAIN)
    ensures RecordFollows(s, DoSchedule, s.current, x, YieldRecord(x.(reschedule := Back), s.current == MAIN, InYield))
    ensures s.current != MAIN ==>
              RecordFollows(s, DoScheduleRemove, s.current, x, YieldRecord(x.(tagged := true), false, InYield))
  {}

  lemma ScheduleFollows(s: State, remove: bool, t: Tid)
    requires Shaped(s) && Ready(s.tasklets[s.current], s.current == MAIN) && (remove ==> s.current != MAIN)
    requires t in s.tasklets
    ensures Follows(s, if remove then DoScheduleRemove else DoSchedule, t, Schedule(s, remove))
  {
    var (me, x) := (s.current, s.tasklets[s.current]);
    ScheduleEffect(s, remove);
    ScheduleRecord(s, x);
    var x' := if remove then x.(tagged := true) else x.(reschedule := Back);
    OneFollows(s, if remove then DoScheduleRemove else DoSchedule, t, Schedule(s, remove), me,
               YieldRecord(x', me == MAIN, InYield));
  }

  lemma FinishRecord(s: State, x: Tasklet)
    requires s.current != MAIN && TaskletOk(x, false, true) && x.scheduled
    ensures RecordFollows(s, DoFinish, s.current, x, EndRecord(x.(at := Finished)))
  {}

  lemma FinishFollows(s: State, t: Tid)
    requires Placed(s) && s.current != MAIN && t in s.tasklets
    ensures Follows(s, DoFinish, t, Finish(s))
  {
    var (me, x) := (s.current, s.tasklets[s.current]);
    assert TaskletOk(x, false, true);
    FinishEffect(s);
    FinishRecord(s, x);
    OneFollows(s, DoFinish, t, Finish(s), me, EndRecord(x.(at := Finished)));
  }

  lemma SwitchRecord(s: State, u: Tid, x: Tasklet)
    requires u != MAIN && TaskletOk(x, false, false) && x.scheduled && s.current == MAIN
    ensures !x.started && x.exception ==>
              RecordFollows(s, DoSwitch(u), u, x, EndRecord(x.(alive := false, at := Finished)))
    ensures x.started || !x.exception ==>
              RecordFollows(s, DoSwitch(u), u, x, ResumeRecord(x.(started := true, exception := false), !x.exception))
  {}

  lemma SwitchFollows(s: State, u: Tid, t: Tid)
    requires Placed(s) && u in s.queue && u != MAIN && s.current == MAIN && t in s.tasklets
    ensures u in s.tasklets && (InChannelCall(s.tasklets[u].at) ==> s.tasklets[u].at.c in s.channels)
    ensures Follows(s, DoSwitch(u), t, Switch(s, u))
  {
    Switchable(s, u);
    SwitchRecord(s, u, s.tasklets[u]);
    var x := s.tasklets[u];
    var x' := if !x.started && x.exception then EndRecord(x.(alive := false, at := Finished))
              else ResumeRecord(x.(started := true, exception := false), !x.exception);
    if !x.started && x.exception { StillbornEffect(s, u); } else { SwitchEffect(s, u); }
    OneFollows(s, DoSwitch(u), t, Switch(s, u), u, x');
  }

  lemma ReturnRecord(s: State, ok: bool, x: Tasklet)
    requires TaskletOk(x, true, true) && s.current == MAIN && (ok ==> x.blockedOn.None?)
    ensures RecordFollows(s, DoMainReturn(ok), MAIN, x, ResumeRecord(x, ok))
  {}

  lemma MainReturnFollows(s: State, ok: bool, t: Tid)
    requires Placed(s) && s.current == MAIN && (ok ==> s.tasklets[MAIN].blockedOn.None?) && t in s.tasklets
    ensures InChannelCall(s.tasklets[MAIN].at) ==> s.tasklets[MAIN].at.c in s.channels
    ensures Follows(s, DoMainReturn(ok), t, Resume(s, MAIN, ok))
  {
    var x := s.tasklets[MAIN];
    assert TaskletOk(x, true, true);
    ResumeEffect(s, MAIN, ok);
    ReturnRecord(s, ok, x);
    OneFollows(s, DoMainReturn(ok), t, Resume(s, MAIN, ok), MAIN, ResumeRecord(x, ok));
  }

  lemma LoopFollows(s: State, a: Action, t: Tid)
    requires Placed(s) && Allowed(s, a) && !IsQueueCall(a) && !IsTransfer(a) && !IsChannelCall(a) && t in s.tasklets
    ensures Follows(s, a, t, LoopAct(s, a))
  {
    if a.DoSchedule? || a.DoScheduleRemove? { PlacedIsShaped(s); CurrentReady(s); }
    match a
    case DoSchedule => ScheduleFollows(s, false, t);
    case DoScheduleRemove => ScheduleFollows(s, true, t);
    case DoFinish => FinishFollows(s, t);
    case DoSwitch(u) => SwitchFollows(s, u, t);
    case DoMainReturn(ok) => MainReturnFollows(s, ok, t);
  }

  lemma TransferFollows(s: State, a: Action, t: Tid)
    requires Placed(s) && Allowed(s, a) && IsTransfer(a) && t in s.tasklets
    ensures Follows(s, a, t, TransferAct(s, a))
  {
    match a
    case DoSend(c, m) => SendFollows(s, c, m, t);
    case DoReceive(c) => ReceiveFollows(s, c, t);
  }

  lemma ChannelCallFollows(s: State, a: Action, t: Tid)
    requires Placed(s) && Allowed(s, a) && IsChannelCall(a) && t in s.tasklets
    ensures Follows(s, a, t, ChannelAct(s, a))
  {
    assert ChannelAct(s, a).tasklets == s.tasklets;
    UninvolvedFollows(s, a, t, ChannelAct(s, a));
  }

  /** Every step does to every tasklet what the events above say, and to a tasklet that is not involved
      nothing at all. */
  lemma ActFollows(s: State, a: Action, t: Tid, s': State)
    requires Placed(s) && Allowed(s, a) && t in s.tasklets && s' == Act(s, a)
    ensures Follows(s, a, t, s')
  {
    if IsQueueCall(a) { QueueFollows(s, a, t); }
    else if IsTransfer(a) { TransferFollows(s, a, t); }
    else if IsChannelCall(a) { ChannelCallFollows(s, a, t); }
    else { LoopFollows(s, a, t); }
  }
}
