/** One turn: the loop of `Run` switches to a tasklet, which makes calls until control is back with
    the main tasklet. */
module Turns {
  import opened Options
  import opened Flags
  import opened Lists
  import opened Scheduler
  import opened SchedulerInvariant
  import opened SchedulerSteps
  import opened SchedulerEffects
  import opened SchedulerPlacement
  import opened Bystanders

  /** `t` takes the steps `acts` from `s`, the last of which gives control back. */
  ghost predicate Acts(s: State, t: Tid, acts: seq<Action>, s': State)
    decreases |acts|
  {
    if acts == [] then s' == s && s.current == MAIN
    else s.current == t && Placed(s) && Allowed(s, acts[0]) && Acts(Act(s, acts[0]), t, acts[1..], s')
  }

  /** How a turn ends: the state it leaves, and whether an exception reached the loop. */
  datatype End = End(state: State, failed: bool)

  /** The loop may switch to `t`. */
  ghost predicate Switching(s: State, t: Tid) {
    Placed(s) && Looping(s) && t in s.queue && t != MAIN
  }

  ghost predicate TurnBy(s: State, t: Tid, acts: seq<Action>, e: End)
    requires Switching(s, t)
  {
    && Acts(Act(s, DoSwitch(t)), t, acts, e.state)
    && (e.failed ==> acts != [] && acts[|acts| - 1].DoFinish?)
  }

  ghost predicate TurnOk(s: State, t: Tid, e: End)
    requires Switching(s, t)
  {
    exists acts :: TurnBy(s, t, acts, e)
  }

  // ---- The main tasklet during a turn ----

  /** The main tasklet stays in its call, and if it is still blocked, on the same channel. */
  predicate MainWaits(s: State, s': State) {
    && MAIN in s.tasklets && MAIN in s'.tasklets && s'.tasklets[MAIN].at == s.tasklets[MAIN].at
    && (s'.tasklets[MAIN].blockedOn.None? || s'.tasklets[MAIN].blockedOn == s.tasklets[MAIN].blockedOn)
  }

  lemma StepMainWaits(s: State, a: Action, s': State)
    requires Placed(s) && Allowed(s, a) && s.current != MAIN && s' == Act(s, a)
    ensures MainWaits(s, s')
  {
    ActBystands(s, a, MAIN);
  }

  lemma {:induction false} ActsKeep(s: State, t: Tid, acts: seq<Action>, s': State)
    requires Placed(s) && t != MAIN && Acts(s, t, acts, s')
    ensures Placed(s') && s'.current == MAIN && MainWaits(s, s')
    decreases |acts|
  {
    if acts != [] {
      var s1 := Act(s, acts[0]);
      StepMainWaits(s, acts[0], s1);
      ActsKeep(s1, t, acts[1..], s');
    }
  }

  lemma SwitchMainWaits(s: State, t: Tid, s': State)
    requires Switching(s, t) && s' == Act(s, DoSwitch(t))
    ensures MainWaits(s, s')
  {
    SwitchBystands(s, t, MAIN);
  }

  /** Every turn keeps the placement invariant and leaves the main tasklet in its call. */
  lemma TurnKeeps(s: State, t: Tid, e: End)
    requires Switching(s, t) && TurnOk(s, t, e)
    ensures Placed(e.state) && Looping(e.state) && MainWaits(s, e.state)
  {
    var acts :| TurnBy(s, t, acts, e);
    var s1 := Act(s, DoSwitch(t));
    SwitchMainWaits(s, t, s1);
    ActsKeep(s1, t, acts, e.state);
  }

  /** `s` and `a` are a step of `acts` that ends the main tasklet's wait on `c`. */
  ghost predicate ReleaseWithin(s: State, t: Tid, acts: seq<Action>, c: Cid)
    decreases |acts|
  {
    acts != [] && s.current == t && Placed(s) && Allowed(s, acts[0])
    && (Releases(s, acts[0], MAIN, c) || ReleaseWithin(Act(s, acts[0]), t, acts[1..], c))
  }

  lemma StillBlocked(s: State, a: Action, s': State, c: Cid)
    requires Placed(s) && Allowed(s, a) && s.current != MAIN && s' == Act(s, a) && s.tasklets[MAIN].blockedOn == Some(c)
    ensures MAIN in s'.tasklets && (s'.tasklets[MAIN].blockedOn == Some(c) || Releases(s, a, MAIN, c))
  {
    ActBystands(s, a, MAIN);
  }

  lemma {:induction false} UnblockedWithin(s: State, t: Tid, acts: seq<Action>, s': State)
    requires Placed(s) && t != MAIN && Acts(s, t, acts, s')
    requires s.tasklets[MAIN].blockedOn.Some? && MAIN in s'.tasklets && s'.tasklets[MAIN].blockedOn.None?
    ensures ReleaseWithin(s, t, acts, s.tasklets[MAIN].blockedOn.value)
    decreases |acts|
  {
    if acts != [] {
      var (s1, c) := (Act(s, acts[0]), s.tasklets[MAIN].blockedOn.value);
      StillBlocked(s, acts[0], s1, c);
      if !Releases(s, acts[0], MAIN, c) {
        UnblockedWithin(s1, t, acts[1..], s');
      }
    }
  }

  /** A turn that unblocks the main tasklet contains the call that matches it. */
  lemma TurnReleases(s: State, t: Tid, acts: seq<Action>, e: End)
    requires Switching(s, t) && TurnBy(s, t, acts, e)
    requires s.tasklets[MAIN].blockedOn.Some? && MAIN in e.state.tasklets && e.state.tasklets[MAIN].blockedOn.None?
    ensures ReleaseWithin(Act(s, DoSwitch(t)), t, acts, s.tasklets[MAIN].blockedOn.value)
  {
    SwitchBystands(s, t, MAIN);
    UnblockedWithin(Act(s, DoSwitch(t)), t, acts, e.state);
  }

  // ---- The run queue during a turn ----

  /** Calls that reorder nobody: all but `run`, `remove` and the matches that hand over control. */
  predicate Appending(s: State, a: Action) {
    && !a.DoRun? && !a.DoRemove? && !a.DoSwitch? && !a.DoMainReturn?
    && (a.DoSend? && a.c in s.channels && s.channels[a.c].receivers != [] ==> s.channels[a.c].preference != Receiver)
    && (a.DoReceive? && a.c in s.channels && s.channels[a.c].senders != [] ==> s.channels[a.c].preference != Sender)
  }

  /** The caller stays or leaves; everybody else keeps their order, and newcomers come last. */
  predicate Appended(s: State, s': State) {
    || (s'.current == s.current && s.queue <= s'.queue)
    || (s'.current == MAIN && Without(s.queue, s.current) <= s'.queue)
  }

  lemma EndedTurnAppends(q: seq<Tid>, t: Tid, r: Reschedule)
    requires r != FrontPlusOne
    ensures Without(q, t) <= AfterTurn(q, t, r)
  {}

  lemma QueueAppends(s: State, a: Action)
    requires Placed(s) && Allowed(s, a) && s.current != MAIN && Appending(s, a) && IsQueueCall(a)
    ensures Appended(s, QueueAct(s, a))
  {
    match a
    case DoCreate(t) =>
    case DoSpawn(t) =>
    case DoInsert(t) =>
    case DoKill(t) => KillAppends(s, t);
  }

  lemma KillAppends(s: State, t: Tid)
    requires Placed(s) && t in s.tasklets && t != MAIN
    ensures s.tasklets[t].blockedOn.Some? ==> s.tasklets[t].blockedOn.value in s.channels
    ensures Appended(s, KillPending(s, t))
  {
    var x := s.tasklets[t];
    assert Directed(s, t) && TaskletOk(x, false, t == s.current);
    if x.alive && !x.killPending {
      if x.blockedOn.Some? { KillBlockedEffect(s, t, x.blockedOn.value); } else { KillUnblockedEffect(s, t); }
    }
  }

  lemma SendAppends(s: State, c: Cid, m: Message)
    requires Placed(s) && Running(s) && c in s.channels && s.current != MAIN && Appending(s, DoSend(c, m))
    ensures Shaped(s) && (s.channels[c].receivers != [] ==> s.channels[c].receivers[0] in s.tasklets)
    ensures Appended(s, Send(s, c, m))
  {
    PlacedIsShaped(s);
    CurrentReady(s);
    var ch := s.channels[c];
    if ch.receivers != [] {
      WaitingReceiver(s, c);
      SendGoesOnEffect(s, c, m);
    } else if !ch.closed && !ch.closing {
      SendBlocksEffect(s, c, m);
      EndedTurnAppends(s.queue, s.current, Stay);
    }
  }

  lemma ReceiveAppends(s: State, c: Cid)
    requires Placed(s) && Running(s) && c in s.channels && s.current != MAIN && Appending(s, DoReceive(c))
    ensures Shaped(s) && (s.channels[c].senders != [] ==> s.channels[c].senders[0] in s.tasklets)
    ensures Appended(s, Receive(s, c))
  {
    PlacedIsShaped(s);
    CurrentReady(s);
    var ch := s.channels[c];
    if ch.senders != [] {
      WaitingSender(s, c);
      ReceiveGoesOnEffect(s, c);
    } else if ch.closed || ch.closing {
      ReceiveRefusedStruct(s, c);
    } else {
      ReceiveBlocksEffect(s, c);
      EndedTurnAppends(s.queue, s.current, Stay);
    }
  }

  lemma YieldAppends(s: State, a: Action)
    requires Placed(s) && Allowed(s, a) && s.current != MAIN && (a.DoSchedule? || a.DoScheduleRemove? || a.DoFinish?)
    ensures Appended(s, LoopAct(s, a))
  {
    PlacedIsShaped(s);
    assert TaskletOk(s.tasklets[s.current], false, true);
    EndedTurnAppends(s.queue, s.current, Stay);
    EndedTurnAppends(s.queue, s.current, Back);
    if a.DoFinish? { FinishEffect(s); } else { ScheduleEffect(s, a.DoScheduleRemove?); }
  }

  lemma StepAppends(s: State, a: Action, s': State)
    requires Placed(s) && Allowed(s, a) && s.current != MAIN && Appending(s, a) && s' == Act(s, a)
    ensures Appended(s, s')
  {
    if IsQueueCall(a) { QueueAppends(s, a); }
    else if a.DoSend? { SendAppends(s, a.c, a.m); }
    else if a.DoReceive? { ReceiveAppends(s, a.c); }
    else if !IsChannelCall(a) { YieldAppends(s, a); }
  }

  ghost predicate AllAppending(s: State, t: Tid, acts: seq<Action>)
    decreases |acts|
  {
    acts != [] && s.current == t && Placed(s) && Allowed(s, acts[0]) ==>
      Appending(s, acts[0]) && AllAppending(Act(s, acts[0]), t, acts[1..])
  }

  lemma IndexInPrefix(q: seq<Tid>, q': seq<Tid>, t: Tid)
    requires q <= q' && t in q
    ensures IndexOf(q', t) == IndexOf(q, t)
  {
    if q[0] != t { IndexInPrefix(q[1..], q'[1..], t); }
  }

  lemma WithoutPrefix(q: seq<Tid>, q': seq<Tid>, t: Tid)
    requires q <= q' && t in q
    ensures Without(q, t) <= Without(q', t)
  {
    IndexInPrefix(q, q', t);
  }

  lemma PlacedCurrent(s: State)
    requires Placed(s)
    ensures s.current in s.queue
  {}

  lemma {:induction false} ActsAppend(s: State, t: Tid, acts: seq<Action>, s': State)
    requires Placed(s) && t != MAIN && s.current == t && Acts(s, t, acts, s') && AllAppending(s, t, acts)
    ensures Without(s.queue, t) <= s'.queue
    decreases |acts|
  {
    var s1 := Act(s, acts[0]);
    StepAppends(s, acts[0], s1);
    PlacedCurrent(s);
    if s1.current == t {
      WithoutPrefix(s.queue, s1.queue, t);
      ActsAppend(s1, t, acts[1..], s');
    } else {
      assert acts[1..] == [] by { assert Acts(s1, t, acts[1..], s'); }
    }
  }

  ghost predicate AppendingTurn(s: State, t: Tid, acts: seq<Action>, e: End)
    requires Switching(s, t)
  {
    TurnBy(s, t, acts, e) && !e.failed && AllAppending(Act(s, DoSwitch(t)), t, acts)
  }

  lemma SwitchedQueue(s: State, t: Tid, s': State)
    requires t in s.tasklets && s.tasklets[t].reschedule == Stay
    requires InChannelCall(s.tasklets[t].at) ==> s.tasklets[t].at.c in s.channels && s.tasklets[t].started
    requires s' == Switch(s, t)
    ensures (s'.current == t && s'.queue == s.queue) || (s'.current == MAIN && s'.queue == Without(s.queue, t))
  {
    if !s.tasklets[t].started && s.tasklets[t].exception { StillbornEffect(s, t); } else { SwitchEffect(s, t); }
  }

  lemma SwitchQueue(s: State, t: Tid, s': State)
    requires Switching(s, t) && s' == Act(s, DoSwitch(t))
    ensures (s'.current == t && s'.queue == s.queue) || (s'.current == MAIN && s'.queue == Without(s.queue, t))
  {
    Switchable(s, t);
    SwitchedQueue(s, t, s');
  }

  /** Over a whole turn that reorders nobody, the others keep their order and all that is added,
      the tasklet itself included, comes last. */
  lemma TurnAppends(s: State, t: Tid, acts: seq<Action>, e: End)
    requires Switching(s, t) && AppendingTurn(s, t, acts, e)
    ensures Without(s.queue, t) <= e.state.queue
  {
    var s1 := Act(s, DoSwitch(t));
    SwitchQueue(s, t, s1);
    if s1.current == t {
      ActsAppend(s1, t, acts, e.state);
    } else {
      assert acts == [] by { assert Acts(s1, t, acts, e.state); }
    }
  }
}
