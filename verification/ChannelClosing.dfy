/** Closing and opening channels: what `close` and `open` do, what they mean for the calls that follow, and
    when a closing channel is closed. */
module ChannelClosing {
  import opened Options
  import opened Flags
  import opened Scheduler
  import opened SchedulerInvariant
  import opened SchedulerSteps
  import opened SchedulerEffects
  import opened SchedulerPlacement
  import opened SchedulerTheorems
  import opened ChannelSteps
  import opened TaskletSteps
  import opened SchedulerCalls

  // ---- The calls ----

  /** `close` makes the channel closing, and closed at once if nobody is blocked on it; `open` takes both
      back. The lists, the preference and the histories stay, and so does everything else. */
  lemma CloseAndOpen(s: State, c: Cid)
    requires Placed(s) && Allowed(s, DoClose(c))
    ensures var ch := s.channels[c];
            && Act(s, DoClose(c))
            == s.(channels := s.channels[c := ch.(closing := true, closed := ch.senders == [] && ch.receivers == [])])
            && Act(s, DoOpen(c)) == s.(channels := s.channels[c := ch.(closing := false, closed := false)])
  {
    assert ChannelOk(s.channels[c]);
    CloseChanges(s, c);
  }

  lemma CloseChanges(s: State, c: Cid)
    requires c in s.channels && ChannelShape(s.channels[c])
    ensures var ch := s.channels[c];
            Close(s, c)
            == s.(channels := s.channels[c := ch.(closing := true, closed := ch.senders == [] && ch.receivers == [])])
  {
    var ch := s.channels[c];
    assert s.channels[c := ch.(closing := true)][c := CloseIfDrained(ch.(closing := true))]
        == s.channels[c := CloseIfDrained(ch.(closing := true))];
  }

  /** A new channel is open and empty and prefers the receiver; setting the preference changes nothing
      else. */
  lemma NewChannelAndPrefer(s: State, c: Cid, d: Direction)
    requires Placed(s)
    ensures Allowed(s, DoNewChannel(c)) ==>
              Act(s, DoNewChannel(c))
              == s.(channels := s.channels[c := Channel([], [], 0, Receiver, false, false, [], [])])
    ensures Allowed(s, DoPrefer(c, d)) ==>
              Act(s, DoPrefer(c, d)) == s.(channels := s.channels[c := s.channels[c].(preference := d)])
  {}

  /** A refused call: the caller keeps running, and apart from its transfer mark nothing has happened. */
  lemma RefusedCall(s: State, c: Cid, a: Action)
    requires Placed(s) && Allowed(s, a) && IsTransfer(a) && a.c == c && Refused(s.channels[c], a)
    ensures Act(s, a)
         == s.(tasklets := s.tasklets[s.current := s.tasklets[s.current].(transferring := a.DoSend?)],
               nextCall := s.nextCall + 1)
    ensures Running(Act(s, a))
  {
    PlacedIsShaped(s);
    CurrentReady(s);
    ReceiveRefusedStruct(s, c);
  }

  // ---- From `close` to `open` and from `open` to `close` ----

  predicate ClosingOn(s: State, a: Action, s': State, c: Cid) {
    c in s.channels ==> c in s'.channels && Closing(s, a, c, s.channels[c], s'.channels[c])
  }

  lemma ClosingAt(run: seq<State>, log: seq<Action>, k: nat, c: Cid)
    requires IsRun(run, log) && k < |log|
    ensures ClosingOn(run[k], log[k], run[k + 1], c)
  {
    StepAt(run, log, k);
    if c in run[k].channels { ActMoves(run[k], log[k], c); }
  }

  lemma {:induction false} ClosingThrough(run: seq<State>, log: seq<Action>, i: nat, j: nat, c: Cid)
    requires |run| == |log| + 1 && i <= j < |run| && c in run[i].channels && run[i].channels[c].closing
    requires forall k :: i <= k < j ==> ClosingOn(run[k], log[k], run[k + 1], c) && log[k] != DoOpen(c)
    ensures c in run[j].channels && run[j].channels[c].closing
    decreases j
  {
    if i < j {
      ClosingThrough(run, log, i, j - 1, c);
      assert ClosingOn(run[j - 1], log[j - 1], run[j - 1 + 1], c);
    }
  }

  lemma {:induction false} OpenThrough(run: seq<State>, log: seq<Action>, i: nat, j: nat, c: Cid)
    requires |run| == |log| + 1 && i <= j < |run| && c in run[i].channels && !run[i].channels[c].closing
    requires forall k :: i <= k < j ==> ClosingOn(run[k], log[k], run[k + 1], c) && log[k] != DoClose(c)
    ensures c in run[j].channels && !run[j].channels[c].closing
    decreases j
  {
    if i < j {
      OpenThrough(run, log, i, j - 1, c);
      assert ClosingOn(run[j - 1], log[j - 1], run[j - 1 + 1], c);
    }
  }

  lemma FlagAfterAt(run: seq<State>, log: seq<Action>, k: nat, c: Cid)
    requires IsRun(run, log) && k < |log|
    ensures log[k] == DoClose(c) ==> c in run[k + 1].channels && run[k + 1].channels[c].closing
    ensures log[k] == DoOpen(c) || log[k] == DoNewChannel(c) ==>
              c in run[k + 1].channels && !run[k + 1].channels[c].closing
  {
    StepAt(run, log, k);
    FlagAfter(run[k], log[k], c, run[k + 1]);
  }

  lemma ClosingSince(run: seq<State>, log: seq<Action>, i: nat, j: nat, c: Cid)
    requires IsRun(run, log) && i < j < |run| && log[i] == DoClose(c)
    requires forall k :: i < k < j ==> log[k] != DoOpen(c)
    ensures c in run[j].channels && run[j].channels[c].closing
  {
    FlagAfterAt(run, log, i, c);
    forall k | i + 1 <= k < j ensures ClosingOn(run[k], log[k], run[k + 1], c) { ClosingAt(run, log, k, c); }
    ClosingThrough(run, log, i + 1, j, c);
  }

  lemma OpenSince(run: seq<State>, log: seq<Action>, i: nat, j: nat, c: Cid)
    requires IsRun(run, log) && i < j < |run| && (log[i] == DoOpen(c) || log[i] == DoNewChannel(c))
    requires forall k :: i < k < j ==> log[k] != DoClose(c)
    ensures c in run[j].channels && !run[j].channels[c].closing
  {
    FlagAfterAt(run, log, i, c);
    forall k | i + 1 <= k < j ensures ClosingOn(run[k], log[k], run[k + 1], c) { ClosingAt(run, log, k, c); }
    OpenThrough(run, log, i + 1, j, c);
  }

  lemma FlagAfter(s: State, a: Action, c: Cid, s': State)
    requires Placed(s) && Allowed(s, a) && s' == Act(s, a)
    ensures a == DoClose(c) ==> c in s'.channels && s'.channels[c].closing
    ensures a == DoOpen(c) || a == DoNewChannel(c) ==> c in s'.channels && !s'.channels[c].closing
  {
    if a == DoClose(c) || a == DoOpen(c) { CloseAndOpen(s, c); }
    if a == DoNewChannel(c) { NewChannelAndPrefer(s, c, Neither); }
  }

  /** The call finds a partner. */
  predicate Meets(ch: Channel, a: Action) {
    (a.DoSend? && ch.receivers != []) || (a.DoReceive? && ch.senders != [])
  }

  /** The step is a call on `c` that finds no partner. */
  predicate Lonely(s: State, a: Action, c: Cid) {
    IsTransfer(a) && a.c == c && c in s.channels && !Meets(s.channels[c], a)
  }

  predicate TurnedAway(s: State, s': State) {
    s'.channels == s.channels && s'.queue == s.queue && s'.current == s.current && Running(s')
  }

  lemma LonelyRefused(s: State, a: Action, c: Cid, s': State)
    requires Placed(s) && Allowed(s, a) && s' == Act(s, a) && Lonely(s, a, c) && s.channels[c].closing
    ensures TurnedAway(s, s')
  {
    RefusedCall(s, c, a);
  }

  /** From a `close` until the next `open` the channel is closing: every send that finds no receiver and
      every receive that finds no sender is refused, with lists and histories as before, and its caller
      keeps running. */
  lemma CloseRefuses(run: seq<State>, log: seq<Action>, i: nat, j: nat, c: Cid)
    requires IsRun(run, log) && i < j < |run| && log[i] == DoClose(c)
    requires forall k :: i < k < j ==> log[k] != DoOpen(c)
    ensures c in run[j].channels && run[j].channels[c].closing
    ensures j < |log| && Lonely(run[j], log[j], c) ==> TurnedAway(run[j], run[j + 1])
  {
    ClosingSince(run, log, i, j, c);
    if j < |log| && Lonely(run[j], log[j], c) {
      StepAt(run, log, j);
      LonelyRefused(run[j], log[j], c, run[j + 1]);
    }
  }

  lemma LonelyBlocks(s: State, a: Action, c: Cid, s': State)
    requires Placed(s) && Allowed(s, a) && s' == Act(s, a) && Lonely(s, a, c) && !s.channels[c].closing
    ensures s.current in s'.tasklets && s'.tasklets[s.current].blockedOn == Some(c)
  {
    OpenIsNotClosed(s, c);
    ActFollows(s, a, s.current, s');
  }

  lemma OpenIsNotClosed(s: State, c: Cid)
    requires Placed(s) && c in s.channels && !s.channels[c].closing
    ensures !s.channels[c].closed
  {
    assert ChannelOk(s.channels[c]);
  }

  /** From an `open`, or from its creation, until the next `close` a channel is neither closing nor closed:
      a send that finds no receiver and a receive that finds no sender block their caller. */
  lemma OpenAccepts(run: seq<State>, log: seq<Action>, i: nat, j: nat, c: Cid)
    requires IsRun(run, log) && i < j < |run| && (log[i] == DoOpen(c) || log[i] == DoNewChannel(c))
    requires forall k :: i < k < j ==> log[k] != DoClose(c)
    ensures c in run[j].channels && !run[j].channels[c].closing && !run[j].channels[c].closed
    ensures j < |log| && Lonely(run[j], log[j], c) ==>
              var me := run[j].current;
              me in run[j + 1].tasklets && run[j + 1].tasklets[me].blockedOn == Some(c)
  {
    OpenSince(run, log, i, j, c);
    RunPlacedThroughout(run, log, j);
    OpenIsNotClosed(run[j], c);
    if j < |log| && Lonely(run[j], log[j], c) {
      StepAt(run, log, j);
      LonelyBlocks(run[j], log[j], c, run[j + 1]);
    }
  }

  // ---- When a closing channel is closed ----

  /** A killed tasklet whose call on `c` has not come back yet. */
  predicate Unwinding(x: Tasklet, c: Cid) {
    x.exception && x.blockedOn.None? && x.killPending && (x.at.InSend? || x.at.InReceive?) && x.at.c == c
  }

  ghost predicate SomeoneUnwinds(s: State, c: Cid) {
    exists t :: t in s.tasklets && Unwinding(s.tasklets[t], c)
  }

  /** A closing channel that nobody is blocked on is closed, or a killed tasklet has still to leave it. */
  ghost predicate Drained(s: State, c: Cid) {
    c in s.channels && s.channels[c].closing && s.channels[c].senders == [] && s.channels[c].receivers == [] ==>
      s.channels[c].closed || SomeoneUnwinds(s, c)
  }

  /** A killed tasklet stays on its way out until the loop switches to it. */
  lemma UnwindsOn(s: State, a: Action, s': State, t: Tid, c: Cid)
    requires Placed(s) && Allowed(s, a) && s' == Act(s, a) && t in s.tasklets && Unwinding(s.tasklets[t], c)
    requires a != DoSwitch(t)
    ensures SomeoneUnwinds(s', c)
  {
    assert TaskletOk(s.tasklets[t], t == MAIN, t == s.current);
    ActFollows(s, a, t, s');
    assert Unwinding(s'.tasklets[t], c);
  }

  /** A tasklet blocked on `c`. */
  lemma BlockedFacts(s: State, a: Action, t: Tid, c: Cid)
    requires Placed(s) && Allowed(s, a) && c in s.channels
    requires t in s.channels[c].senders || t in s.channels[c].receivers
    ensures t in s.tasklets && s.tasklets[t].blockedOn == Some(c) && (t == s.current ==> t == MAIN && !Waits(s, a))
    ensures TaskletOk(s.tasklets[t], t == MAIN, t == s.current) && (MetBy(s, a, t) ==> a.c == c)
  {
    assert Listed(s, c, t);
    assert TaskletOk(s.tasklets[t], t == MAIN, t == s.current);
    if MetBy(s, a, t) { assert Listed(s, a.c, t); }
  }

  /** Its wait ends through a step that may close the channel, or through a kill. */
  lemma ReleasedOr(s: State, a: Action, s': State, t: Tid, c: Cid)
    requires c in s.channels && Follows(s, a, t, s') && s.tasklets[t].blockedOn == Some(c)
    requires s'.tasklets[t].blockedOn != Some(c) && (t == s.current ==> t == MAIN && !Waits(s, a))
    requires TaskletOk(s.tasklets[t], t == MAIN, t == s.current) && (MetBy(s, a, t) ==> a.c == c)
    ensures MayClose(s, a, c) || SomeoneUnwinds(s', c)
  {
    if KilledBy(s.tasklets[t], a, t) { assert Unwinding(s'.tasklets[t], c); }
  }

  lemma NotBlockedHere(s: State, t: Tid, c: Cid)
    requires ListsOk(s) && c in s.channels && s.channels[c].senders == [] && s.channels[c].receivers == []
    requires t in s.tasklets
    ensures s.tasklets[t].blockedOn != Some(c)
  {
    assert Listed(s, c, t) && Directed(s, t);
  }

  lemma EmptiedBy(s: State, a: Action, s': State, t: Tid, c: Cid)
    requires Placed(s) && Allowed(s, a) && s' == Act(s, a) && c in s.channels && c in s'.channels
    requires t in s.channels[c].senders || t in s.channels[c].receivers
    requires s'.channels[c].senders == [] && s'.channels[c].receivers == []
    ensures MayClose(s, a, c) || SomeoneUnwinds(s', c)
  {
    BlockedFacts(s, a, t, c);
    ActFollows(s, a, t, s');
    NotBlockedHere(s', t, c);
    ReleasedOr(s, a, s', t, c);
  }

  lemma SwitchMayClose(s: State, t: Tid, c: Cid)
    requires t in s.tasklets && Unwinding(s.tasklets[t], c) && c in s.channels
    ensures MayClose(s, DoSwitch(t), c)
  {}

  lemma StillUnwinds(s: State, a: Action, s': State, c: Cid)
    requires Placed(s) && Allowed(s, a) && s' == Act(s, a) && c in s.channels
    requires SomeoneUnwinds(s, c) && !MayClose(s, a, c)
    ensures SomeoneUnwinds(s', c)
  {
    var t :| t in s.tasklets && Unwinding(s.tasklets[t], c);
    if a == DoSwitch(t) { SwitchMayClose(s, t, c); }
    UnwindsOn(s, a, s', t, c);
  }

  /** A channel that has just become empty without closing has lost a killed tasklet. */
  lemma EmptiedUnwinds(s: State, a: Action, s': State, c: Cid)
    requires Placed(s) && Allowed(s, a) && s' == Act(s, a) && c in s.channels && c in s'.channels
    requires s.channels[c].senders != [] || s.channels[c].receivers != []
    requires s'.channels[c].senders == [] && s'.channels[c].receivers == [] && !MayClose(s, a, c)
    ensures SomeoneUnwinds(s', c)
  {
    var ch := s.channels[c];
    EmptiedBy(s, a, s', if ch.senders != [] then ch.senders[0] else ch.receivers[0], c);
  }

  lemma DrainedStep(s: State, a: Action, s': State, c: Cid)
    requires Placed(s) && Allowed(s, a) && s' == Act(s, a) && c in s.channels && Drained(s, c)
    ensures Drained(s', c)
  {
    ActMoves(s, a, c);
    var (ch, ch') := (s.channels[c], s'.channels[c]);
    if ch'.closing && ch'.senders == [] && ch'.receivers == [] && !ch'.closed {
      assert !MayClose(s, a, c) && ch.closing;
      if ch.senders != [] || ch.receivers != [] {
        EmptiedUnwinds(s, a, s', c);
      } else {
        StillUnwinds(s, a, s', c);
      }
    }
  }

  lemma DrainedAt(run: seq<State>, log: seq<Action>, k: nat, c: Cid)
    requires IsRun(run, log) && k < |log| && Drained(run[k], c)
    ensures Drained(run[k + 1], c)
  {
    StepAt(run, log, k);
    if c in run[k].channels {
      DrainedStep(run[k], log[k], run[k + 1], c);
    } else {
      NewlyOpen(run[k], log[k], run[k + 1], c);
    }
  }

  lemma NewlyOpen(s: State, a: Action, s': State, c: Cid)
    requires Placed(s) && Allowed(s, a) && s' == Act(s, a) && c !in s.channels
    ensures c in s'.channels ==> !s'.channels[c].closing
  {
    if a == DoNewChannel(c) {
      FlagAfter(s, a, c, s');
    } else if IsQueueCall(a) {
      QueueKeys(s, a);
    } else if IsTransfer(a) {
      TransferKeys(s, a);
    } else if !IsChannelCall(a) {
      LoopKeys(s, a);
    }
  }

  lemma QueueKeys(s: State, a: Action)
    requires Placed(s) && Allowed(s, a) && IsQueueCall(a)
    ensures QueueAct(s, a).channels.Keys == s.channels.Keys
  {
    if a.DoRun? && Runnable(s.tasklets[a.t]) {
      PlacedIsShaped(s);
      RunEffect(s, a.t);
    } else if a.DoKill? && s.tasklets[a.t].blockedOn.Some? {
      KillKeys(s, a.t);
    }
  }

  lemma KillKeys(s: State, t: Tid)
    requires Placed(s) && t in s.tasklets && t != MAIN && s.tasklets[t].blockedOn.Some?
    ensures s.tasklets[t].blockedOn.value in s.channels && KillPending(s, t).channels.Keys == s.channels.Keys
  {
    assert Directed(s, t) && TaskletOk(s.tasklets[t], false, t == s.current);
    if s.tasklets[t].alive && !s.tasklets[t].killPending { KillBlockedEffect(s, t, s.tasklets[t].blockedOn.value); }
  }

  lemma TransferKeys(s: State, a: Action)
    requires Placed(s) && Allowed(s, a) && IsTransfer(a)
    ensures TransferAct(s, a).channels.Keys == s.channels.Keys
  {
    PlacedIsShaped(s);
    CurrentReady(s);
    match a
    case DoSend(c, m) => SendKeys(s, c, m);
    case DoReceive(c) => ReceiveKeys(s, c);
  }

  lemma SendMatchedKeys(s: State, c: Cid, m: Message)
    requires Shaped(s) && c in s.channels && s.channels[c].receivers != []
    requires s.channels[c].receivers[0] in s.tasklets && s.channels[c].receivers[0] != s.current
    ensures Send(s, c, m).channels.Keys == s.channels.Keys
  {
    if s.channels[c].preference == Receiver { SendHandsOffEffect(s, c, m); } else { SendGoesOnEffect(s, c, m); }
  }

  lemma SendKeys(s: State, c: Cid, m: Message)
    requires Placed(s) && Running(s) && Shaped(s) && c in s.channels
    requires s.channels[c].receivers != [] ==> s.channels[c].receivers[0] in s.tasklets
    ensures Send(s, c, m).channels.Keys == s.channels.Keys
  {
    if s.channels[c].receivers != [] {
      WaitingReceiver(s, c);
      SendMatchedKeys(s, c, m);
    } else if !s.channels[c].closed && !s.channels[c].closing {
      SendBlocksEffect(s, c, m);
    }
  }

  lemma ReceiveKeys(s: State, c: Cid)
    requires Placed(s) && Running(s) && Shaped(s) && c in s.channels
    requires s.channels[c].senders != [] ==> s.channels[c].senders[0] in s.tasklets
    ensures Receive(s, c).channels.Keys == s.channels.Keys
  {
    if s.channels[c].senders != [] {
      WaitingSender(s, c);
      ReceiveMatchedChannels(s, c);
    } else if s.channels[c].closed || s.channels[c].closing {
      ReceiveRefusedChannels(s, c);
    } else {
      ReceiveBlocksEffect(s, c);
    }
  }

  lemma LoopKeys(s: State, a: Action)
    requires Placed(s) && Allowed(s, a) && !IsQueueCall(a) && !IsTransfer(a) && !IsChannelCall(a)
    ensures LoopAct(s, a).channels.Keys == s.channels.Keys
  {
    match a
    case DoSchedule => PlacedIsShaped(s); ScheduleEffect(s, false);
    case DoScheduleRemove => PlacedIsShaped(s); ScheduleEffect(s, true);
    case DoFinish => FinishEffect(s);
    case DoSwitch(t) => SwitchKeys(s, t);
    case DoMainReturn(ok) =>
      assert TaskletOk(s.tasklets[MAIN], true, true);
      ResumeEffect(s, MAIN, ok);
  }

  lemma SwitchKeys(s: State, t: Tid)
    requires Placed(s) && t in s.queue && t != MAIN
    ensures t in s.tasklets && (InChannelCall(s.tasklets[t].at) ==> s.tasklets[t].at.c in s.channels)
    ensures Switch(s, t).channels.Keys == s.channels.Keys
  {
    Switchable(s, t);
    if !s.tasklets[t].started && s.tasklets[t].exception { StillbornEffect(s, t); } else { SwitchEffect(s, t); }
  }

  lemma {:induction false} DrainedThrough(run: seq<State>, n: nat, c: Cid)
    requires n < |run| && Drained(run[0], c)
    requires forall k :: 0 <= k < n ==> Drained(run[k], c) ==> Drained(run[k + 1], c)
    ensures Drained(run[n], c)
  {
    if n > 0 {
      DrainedThrough(run, n - 1, c);
      assert Drained(run[n - 1 + 1], c);
    }
  }

  /** In every state of every run a closing channel that nobody is blocked on is closed, unless a tasklet
      killed while it was blocked there has not resumed yet. */
  lemma DrainedIsClosed(run: seq<State>, log: seq<Action>, n: nat, c: Cid)
    requires IsRun(run, log) && n < |run| && c in run[n].channels && run[n].channels[c].closing
    requires run[n].channels[c].senders == [] && run[n].channels[c].receivers == []
    ensures run[n].channels[c].closed || exists t :: t in run[n].tasklets && Unwinding(run[n].tasklets[t], c)
  {
    FirstState(run, log);
    forall k | 0 <= k < n ensures Drained(run[k], c) ==> Drained(run[k + 1], c) {
      if Drained(run[k], c) { DrainedAt(run, log, k, c); }
    }
    DrainedThrough(run, n, c);
  }

  /** The exception is real: the kill of the only tasklet blocked on a closing channel leaves it closing,
      empty and not closed; the switch to that tasklet closes it, if nothing else has happened to it. */
  lemma KilledWaiterKeepsOpen(s: State, t: Tid, c: Cid)
    requires Placed(s) && Allowed(s, DoKill(t)) && s.tasklets[t].blockedOn == Some(c) && s.tasklets[t].alive
    requires !s.tasklets[t].killPending && c in s.channels && s.channels[c].closing
    requires s.channels[c].senders == [t] || s.channels[c].receivers == [t]
    ensures var s' := Act(s, DoKill(t));
            && c in s'.channels && s'.channels[c].closing && !s'.channels[c].closed
            && s'.channels[c].senders == [] && s'.channels[c].receivers == []
  {
    assert ChannelOk(s.channels[c]);
    assert [] + [t] + [] == [t];
    KillOfBlocked(s, t, c, [], []);
  }

  lemma ReturnedWaiterCloses(s: State, t: Tid, c: Cid, s': State)
    requires Placed(s) && Allowed(s, DoSwitch(t)) && s' == Act(s, DoSwitch(t)) && t in s.tasklets
    requires Unwinding(s.tasklets[t], c) && c in s.channels && s.channels[c].closing
    requires s.channels[c].senders == [] && s.channels[c].receivers == []
    ensures c in s'.channels && s'.channels[c].closed
  {
    ActMoves(s, DoSwitch(t), c);
    SwitchMayClose(s, t, c);
  }
}
