/** What holds in every state of every run of the scheduler. */
module SchedulerTheorems {
  import opened Options
  import opened Flags
  import opened Lists
  import opened Scheduler
  import opened SchedulerInvariant
  import opened SchedulerLists
  import opened SchedulerSteps
  import opened SchedulerEffects
  import opened SchedulerPlacement
  import opened Rendezvous
  import opened RendezvousSteps
  import opened TransferSlots
  import opened ChannelSteps
  import opened TransferMarks

  lemma {:induction false} StepAt(run: seq<State>, log: seq<Action>, k: nat)
    requires IsRun(run, log) && k < |log|
    ensures Placed(run[k]) && Allowed(run[k], log[k]) && run[k + 1] == Act(run[k], log[k])
    decreases |run|
  {
    if k < |log| - 1 {
      StepAt(run[..|run| - 1], log[..|log| - 1], k);
    }
  }

  // ---- Placement ----

  datatype Place = InQueue(i: nat) | AmongSenders(c: Cid, i: nat) | AmongReceivers(c: Cid, i: nat)

  ghost predicate Holds(s: State, p: Place, t: Tid) {
    match p
    case InQueue(i) => i < |s.queue| && s.queue[i] == t
    case AmongSenders(c, i) => c in s.channels && i < |s.channels[c].senders| && s.channels[c].senders[i] == t
    case AmongReceivers(c, i) => c in s.channels && i < |s.channels[c].receivers| && s.channels[c].receivers[i] == t
  }

  lemma PlaceFlags(s: State, t: Tid, p: Place)
    requires Placed(s) && Holds(s, p, t)
    ensures t in s.tasklets
    ensures p.InQueue? ==> s.tasklets[t].scheduled
    ensures p.AmongSenders? ==> s.tasklets[t].blockedOn == Some(p.c) && s.tasklets[t].direction == Sender
    ensures p.AmongReceivers? ==> s.tasklets[t].blockedOn == Some(p.c) && s.tasklets[t].direction == Receiver
  {
    match p
    case InQueue(i) => assert t in s.queue;
    case AmongSenders(c, i) => assert t in s.channels[c].senders; assert Listed(s, c, t);
    case AmongReceivers(c, i) => assert t in s.channels[c].receivers; assert Listed(s, c, t);
  }

  lemma SamePlace(s: State, t: Tid, p: Place, q: Place)
    requires Placed(s) && t != MAIN && Holds(s, p, t) && Holds(s, q, t)
    ensures p == q
  {
    PlaceFlags(s, t, p);
    PlaceFlags(s, t, q);
    assert TaskletOk(s.tasklets[t], false, t == s.current);
    if !p.InQueue? { assert ChannelOk(s.channels[p.c]); }
  }

  lemma FlagsPlace(s: State, t: Tid)
    requires Placed(s) && t in s.tasklets
    ensures s.tasklets[t].scheduled ==> exists i :: Holds(s, InQueue(i), t)
    ensures var x := s.tasklets[t];
            x.blockedOn.Some? ==>
              var c := x.blockedOn.value;
              exists i :: Holds(s, AmongSenders(c, i), t) || Holds(s, AmongReceivers(c, i), t)
  {
    var x := s.tasklets[t];
    if x.scheduled {
      assert Holds(s, InQueue(IndexOf(s.queue, t)), t);
    }
    if x.blockedOn.Some? {
      assert Directed(s, t) && Listed(s, x.blockedOn.value, t);
      var ch := s.channels[x.blockedOn.value];
      if x.direction == Sender {
        assert Holds(s, AmongSenders(x.blockedOn.value, IndexOf(ch.senders, t)), t);
      } else {
        assert Holds(s, AmongReceivers(x.blockedOn.value, IndexOf(ch.receivers, t)), t);
      }
    }
  }

  /** In every state of every run a tasklet other than main is in at most one place: once in the
      run queue, once on one blocked list of one channel, or nowhere; its flags say which; and a
      dead tasklet is nowhere. */
  lemma OnePlace(run: seq<State>, log: seq<Action>, n: nat, t: Tid)
    requires IsRun(run, log) && n < |run| && t != MAIN && t in run[n].tasklets
    ensures var (s, x) := (run[n], run[n].tasklets[t]);
            && (forall p, q :: Holds(s, p, t) && Holds(s, q, t) ==> p == q)
            && (x.scheduled <==> exists i :: Holds(s, InQueue(i), t))
            && (x.blockedOn.Some? <==>
                  exists c, i :: Holds(s, AmongSenders(c, i), t) || Holds(s, AmongReceivers(c, i), t))
            && (!x.alive ==> forall p :: !Holds(s, p, t))
  {
    RunPlacedThroughout(run, log, n);
    OnePlaceOf(run[n], t);
  }

  lemma OnePlaceOf(s: State, t: Tid)
    requires Placed(s) && t != MAIN && t in s.tasklets
    ensures var x := s.tasklets[t];
            && (forall p, q :: Holds(s, p, t) && Holds(s, q, t) ==> p == q)
            && (x.scheduled <==> exists i :: Holds(s, InQueue(i), t))
            && (x.blockedOn.Some? <==>
                  exists c, i :: Holds(s, AmongSenders(c, i), t) || Holds(s, AmongReceivers(c, i), t))
            && (!x.alive ==> forall p :: !Holds(s, p, t))
  {
    var x := s.tasklets[t];
    forall p, q | Holds(s, p, t) && Holds(s, q, t) ensures p == q { SamePlace(s, t, p, q); }
    forall p | Holds(s, p, t)
      ensures p.InQueue? ==> x.scheduled
      ensures !p.InQueue? ==> x.blockedOn.Some?
      ensures x.alive
    {
      PlaceFlags(s, t, p);
      assert TaskletOk(x, false, t == s.current);
    }
    FlagsPlace(s, t);
  }

  // ---- Channels ----

  /** In every state at most one blocked list is non-empty, the balance says which and how long it
      is, and a closed channel is closing and blocks nobody. */
  lemma ChannelsExclusive(run: seq<State>, log: seq<Action>, n: nat, c: Cid)
    requires IsRun(run, log) && n < |run| && c in run[n].channels
    ensures var ch := run[n].channels[c];
            && (ch.balance > 0 <==> ch.senders != []) && (ch.balance < 0 <==> ch.receivers != [])
            && ch.balance == |ch.senders| - |ch.receivers|
            && (ch.closed ==> ch.closing && ch.senders == [] == ch.receivers)
  {
    RunPlacedThroughout(run, log, n);
    assert ChannelOk(run[n].channels[c]);
  }

  lemma ShrinksOn(a: seq<Tid>, b: seq<Tid>, c: seq<Tid>)
    requires Shrinks(a, b) && Shrinks(b, c)
    ensures Shrinks(a, c)
  {}

  /** If `c` is closing it stays so, and nobody joins its lists. */
  ghost predicate Drains(s: State, s': State, c: Cid) {
    c in s.channels && s.channels[c].closing ==>
      && c in s'.channels && s'.channels[c].closing && (s.channels[c].closed ==> s'.channels[c].closed)
      && Shrinks(s.channels[c].senders, s'.channels[c].senders)
      && Shrinks(s.channels[c].receivers, s'.channels[c].receivers)
  }

  lemma DrainsAt(run: seq<State>, log: seq<Action>, k: nat, c: Cid)
    requires IsRun(run, log) && k < |log| && log[k] != DoOpen(c)
    ensures Drains(run[k], run[k + 1], c)
  {
    StepAt(run, log, k);
    if c in run[k].channels { ActMoves(run[k], log[k], c); }
  }

  lemma {:induction false} ChainDrains(run: seq<State>, i: nat, j: nat, c: Cid)
    requires i <= j < |run| && c in run[i].channels && run[i].channels[c].closing
    requires forall k :: i <= k < j ==> Drains(run[k], run[k + 1], c)
    ensures Drains(run[i], run[j], c)
    decreases j
  {
    if i < j {
      ChainDrains(run, i, j - 1, c);
      assert Drains(run[j - 1], run[j - 1 + 1], c);
      ShrinksOn(run[i].channels[c].senders, run[j - 1].channels[c].senders, run[j].channels[c].senders);
      ShrinksOn(run[i].channels[c].receivers, run[j - 1].channels[c].receivers, run[j].channels[c].receivers);
    }
  }

  /** From a close until the next open nobody joins the blocked lists. */
  lemma ClosingDrains(run: seq<State>, log: seq<Action>, i: nat, j: nat, c: Cid)
    requires IsRun(run, log) && i <= j < |run| && c in run[i].channels && run[i].channels[c].closing
    requires forall k :: i <= k < j ==> log[k] != DoOpen(c)
    ensures c in run[j].channels && run[j].channels[c].closing
    ensures run[i].channels[c].closed ==> run[j].channels[c].closed
    ensures Shrinks(run[i].channels[c].senders, run[j].channels[c].senders)
    ensures Shrinks(run[i].channels[c].receivers, run[j].channels[c].receivers)
  {
    forall k | i <= k < j ensures Drains(run[k], run[k + 1], c) { DrainsAt(run, log, k, c); }
    ChainDrains(run, i, j, c);
  }

  // ---- Rendezvous ----

  /** The histories of a channel are the calls made on it and not cancelled while blocked. */
  lemma HistoryFollowsCalls(run: seq<State>, log: seq<Action>, k: nat, c: Cid)
    requires IsRun(run, log) && k < |log| && c in run[k].channels
    ensures c in run[k + 1].channels && HistoryMoves(run[k], log[k], c, run[k].channels[c], run[k + 1].channels[c])
  {
    StepAt(run, log, k);
    ActMoves(run[k], log[k], c);
  }

  /** In every state the surviving sends and receives of a channel are paired in call order: the
      k-th receive has returned the message of the k-th send, or was interrupted with it at hand,
      or holds it and is about to return it; the calls left over are exactly those blocked. */
  lemma RendezvousInOrder(run: seq<State>, log: seq<Action>, n: nat, c: Cid)
    requires IsRun(run, log) && n < |run| && c in run[n].channels
    ensures var (s, ch) := (run[n], run[n].channels[c]);
            && |ch.sends| - |ch.senders| == |ch.receives| - |ch.receivers| == Pairs(ch) >= 0
            && Logged(ch, s.nextCall)
            && (forall k :: 0 <= k < Pairs(ch) ==> Matched(s, ch.receives[k], ch.sends[k].message))
            && (forall j :: 0 <= j < |ch.senders| ==> SenderLogged(ch, j, s.tasklets))
            && (forall j :: 0 <= j < |ch.receivers| ==> ReceiverLogged(ch, j, s.tasklets))
  {
    RunAgreedThroughout(run, log, n);
    assert Books(run[n], c);
  }

  ghost predicate GentleRun(run: seq<State>, log: seq<Action>) {
    IsRun(run, log) && forall k :: 0 <= k < |log| ==> Gentle(run[k], log[k])
  }

  lemma GentleStep(s: State, a: Action, s': State)
    requires Placed(s) && Allowed(s, a) && Tidy(s, true) && Gentle(s, a) && s' == Act(s, a)
    ensures Tidy(s', true)
  {
    ActTidy(s, a, true);
    GentleNeverLeaks(s, a);
  }

  lemma GentleAdvance(run: seq<State>, log: seq<Action>, k: nat)
    requires GentleRun(run, log) && k < |log| && Tidy(run[k], true)
    ensures Tidy(run[k + 1], true)
  {
    assert Gentle(run[k], log[k]);
    StepAt(run, log, k);
    GentleStep(run[k], log[k], run[k + 1]);
  }

  lemma {:induction false} TidyThrough(run: seq<State>, n: nat)
    requires n < |run| && Tidy(run[0], true)
    requires forall k :: 0 <= k < n ==> Tidy(run[k], true) ==> Tidy(run[k + 1], true)
    ensures Tidy(run[n], true)
  {
    if n > 0 {
      TidyThrough(run, n - 1);
      assert Tidy(run[n - 1 + 1], true);
    }
  }

  lemma GentleTidy(run: seq<State>, log: seq<Action>, n: nat)
    requires GentleRun(run, log) && n < |run|
    ensures Tidy(run[n], true)
  {
    FirstState(run, log);
    forall k | 0 <= k < n ensures Tidy(run[k], true) ==> Tidy(run[k + 1], true) {
      if Tidy(run[k], true) { GentleAdvance(run, log, k); }
    }
    TidyThrough(run, n);
  }

  lemma {:induction false} FirstState(run: seq<State>, log: seq<Action>)
    requires IsRun(run, log)
    ensures run[0] == INITIAL
    decreases |run|
  {
    if log != [] {
      FirstState(run[..|run| - 1], log[..|log| - 1]);
    }
  }

  lemma OutcomeOrPending(s: State, call: Call, m: Message)
    requires CallsOk(s) && Matched(s, call, m)
    ensures Settled(s.outcomes, call, m)
         || (call !in s.outcomes && exists t :: t in s.tasklets && HoldsFor(s.tasklets[t], call, m))
  {
    if !Settled(s.outcomes, call, m) {
      var t :| t in s.tasklets && HoldsFor(s.tasklets[t], call, m);
      assert CallOk(s.tasklets[t], s.nextCall, s.outcomes);
    }
  }

  /** If interruptions hit only tasklets whose message has not arrived, every paired receive that
      is over returned exactly the message of its partner. */
  lemma NothingLost(run: seq<State>, log: seq<Action>, n: nat, c: Cid, k: nat)
    requires GentleRun(run, log) && n < |run| && c in run[n].channels && k < Pairs(run[n].channels[c])
    ensures var (s, ch) := (run[n], run[n].channels[c]);
            && k < |ch.sends| && k < |ch.receives|
            && if ch.receives[k] in s.outcomes then s.outcomes[ch.receives[k]] == Got(ch.sends[k].message)
               else exists t :: t in s.tasklets && HoldsFor(s.tasklets[t], ch.receives[k], ch.sends[k].message)
  {
    var (s, ch) := (run[n], run[n].channels[c]);
    RendezvousInOrder(run, log, n, c);
    RunAgreedThroughout(run, log, n);
    GentleTidy(run, log, n);
    assert Matched(s, ch.receives[k], ch.sends[k].message);
    OutcomeOrPending(s, ch.receives[k], ch.sends[k].message);
  }

  /** The tasklet whose transfer slot the call fills. */
  function SlotFilledBy(s: State, a: Action): Option<Tid> {
    match a
    case DoSend(c, _) =>
      if c !in s.channels || Refused(s.channels[c], a) then None
      else if s.channels[c].receivers != [] then Some(s.channels[c].receivers[0]) else Some(s.current)
    case DoReceive(c) => if c in s.channels && s.channels[c].senders != [] then Some(s.current) else None
    case _ => None
  }

  lemma CleanTarget(s: State, a: Action)
    requires Placed(s) && Allowed(s, a) && Tidy(s, false) && SlotFilledBy(s, a).Some?
    ensures SlotFilledBy(s, a).value in s.tasklets && s.tasklets[SlotFilledBy(s, a).value].slot.None?
  {
    CurrentReady(s);
    assert TidyRecord(s.tasklets[s.current], false);
    if a.DoSend? && s.channels[a.c].receivers != [] {
      WaitingReceiver(s, a.c);
      assert TidyRecord(s.tasklets[s.channels[a.c].receivers[0]], false);
    }
  }

  /** The slot is empty at every moment a message is put into it. */
  lemma SlotEmptyWhenFilled(run: seq<State>, log: seq<Action>, k: nat)
    requires GentleRun(run, log) && k < |log| && SlotFilledBy(run[k], log[k]).Some?
    ensures var (s, t) := (run[k], SlotFilledBy(run[k], log[k]).value);
            t in s.tasklets && s.tasklets[t].slot.None?
  {
    GentleTidy(run, log, k);
    StepAt(run, log, k);
    CleanTarget(run[k], log[k]);
  }

  // ---- Where the code falls short ----

  /** A receiver matched under sender preference and killed before it resumes: the loop can switch to
      it, it comes back running its own code with its slot still full, and its next send that blocks
      puts a message into a full slot. */
  lemma KilledHandoffLeaks(s: State, t: Tid, s': State)
    requires Placed(s) && Looping(s) && Tidy(s, false) && t in s.queue && t != MAIN
    requires s' == Act(s, DoSwitch(t)) && s.tasklets[t].at.InReceiveHandoff? && s.tasklets[t].exception
    ensures s'.current == t && Running(s') && !Tidy(s', false)
    ensures s'.tasklets[t].slot == s.tasklets[t].slot && s'.tasklets[t].slot.Some?
    ensures forall c, m :: c in s'.channels && Blocks(s'.channels[c]) ==> SlotFilledBy(s', DoSend(c, m)) == Some(t)
  {
    HandoffResumes(s, t, s');
    SlotNotEmpty(s', t);
  }

  /** A tasklet that runs its own code and still holds a message. */
  lemma SlotNotEmpty(s: State, t: Tid)
    requires t in s.tasklets && s.tasklets[t].at == Idle && s.tasklets[t].slot.Some?
    ensures !Tidy(s, false)
  {
    assert !TidyRecord(s.tasklets[t], false);
  }

  /** A send on the channel blocks. */
  predicate Blocks(ch: Channel) {
    ch.receivers == [] && !ch.closing && !ch.closed
  }

  lemma HandoffResumes(s: State, t: Tid, s': State)
    requires Placed(s) && Looping(s) && t in s.queue && t != MAIN && s' == Act(s, DoSwitch(t))
    requires s.tasklets[t].at.InReceiveHandoff? && s.tasklets[t].exception
    ensures s.tasklets[t].started && s'.current == t && Running(s')
    ensures s'.tasklets[t].slot == s.tasklets[t].slot && s'.tasklets[t].slot.Some?
  {
    Switchable(s, t);
    SwitchEffect(s, t);
  }

  /** A tasklet that ends its turn with a transfer still marked as in progress is kept alive
      although its callable has returned, and only such a tasklet is. */
  lemma FinishedIsDeadUnlessTransferring(s: State)
    requires Placed(s) && s.current != MAIN
    ensures var (me, s') := (s.current, Finish(s));
            && s'.tasklets[me].at == Finished
            && (s'.tasklets[me].alive <==> s.tasklets[me].alive && s.tasklets[me].transferring)
  {
    FinishEffect(s);
    assert TaskletOk(s.tasklets[s.current], false, true);
  }

  /** A refused send leaves that mark behind, a refused receive does not. */
  lemma RefusedSendLeavesMark(s: State, c: Cid, m: Message)
    requires Placed(s) && Running(s) && c in s.channels
    ensures Shaped(s) && (forall t :: t in s.channels[c].senders || t in s.channels[c].receivers ==> t in s.tasklets)
    ensures Refused(s.channels[c], DoSend(c, m)) ==> Send(s, c, m).tasklets[s.current].transferring
    ensures Refused(s.channels[c], DoReceive(c)) ==> !Receive(s, c).tasklets[s.current].transferring
  {
    PlacedIsShaped(s);
    CurrentReady(s);
    ReceiveRefusedStruct(s, c);
  }

  lemma UnmarkedAt(run: seq<State>, log: seq<Action>, k: nat)
    requires IsRun(run, log) && k < |log| && !LeavesMark(run[k], log[k])
    ensures Unmarked(run[k]) ==> Unmarked(run[k + 1])
  {
    StepAt(run, log, k);
    if Unmarked(run[k]) { MarksClearUnless(run[k], log[k]); }
  }

  lemma {:induction false} UnmarkedThrough(run: seq<State>, n: nat)
    requires n < |run| && Unmarked(run[0])
    requires forall k :: 0 <= k < n ==> Unmarked(run[k]) ==> Unmarked(run[k + 1])
    ensures Unmarked(run[n])
  {
    if n > 0 {
      UnmarkedThrough(run, n - 1);
      assert Unmarked(run[n - 1 + 1]);
    }
  }

  /** In a run without refused sends and without handoffs that come back with an exception, a tasklet
      whose callable has returned is dead. */
  lemma FinishedIsDead(run: seq<State>, log: seq<Action>, n: nat, t: Tid)
    requires IsRun(run, log) && n < |run| && t in run[n].tasklets && run[n].tasklets[t].at == Finished
    requires forall k :: 0 <= k < n ==> !LeavesMark(run[k], log[k])
    ensures !run[n].tasklets[t].alive
  {
    FirstState(run, log);
    forall k | 0 <= k < n ensures Unmarked(run[k]) ==> Unmarked(run[k + 1]) { UnmarkedAt(run, log, k); }
    UnmarkedThrough(run, n);
    assert MarkRecord(run[n].tasklets[t]);
  }

  /** A tasklet flagged for rescheduling, as `insert` on a scheduled tasklet leaves it, must not
      block: it would end up in the run queue and on a blocked list, flagged as not blocked.
      Blocking keeps flags and lists in agreement exactly when no such flag is set. */
  lemma BlockingNeedsNoReschedule(s: State, c: Cid, m: Message)
    requires Struct(s) && s.current != MAIN && c in s.channels && s.tasklets[s.current].blockedOn.None?
    requires s.channels[c].receivers == [] && !s.channels[c].closed
    ensures Struct(SendBlocks(s, c, m)) <==> s.tasklets[s.current].reschedule == Stay
    ensures s.tasklets[s.current].reschedule != Stay ==>
              var s' := SendBlocks(s, c, m); s.current in s'.queue && s.current in s'.channels[c].senders
  {
    var me := s.current;
    if s.tasklets[me].reschedule == Stay {
      SendBlocksStruct(s, c, m);
    } else {
      SendBlocksEffect(s, c, m);
      AfterTurnMembers(s.queue, me, s.tasklets[me].reschedule);
      assert SendBlocks(s, c, m).channels[c].senders[|s.channels[c].senders|] == me;
      assert !Listed(SendBlocks(s, c, m), c, me);
    }
  }

  /** The same for a receive that blocks. */
  lemma BlockingReceiveNeedsNoReschedule(s: State, c: Cid)
    requires Struct(s) && s.current != MAIN && c in s.channels && s.tasklets[s.current].blockedOn.None?
    requires s.channels[c].senders == [] && !s.channels[c].closed
    ensures Struct(ReceiveBlocks(s, c)) <==> s.tasklets[s.current].reschedule == Stay
    ensures s.tasklets[s.current].reschedule != Stay ==>
              var s' := ReceiveBlocks(s, c); s.current in s'.queue && s.current in s'.channels[c].receivers
  {
    var me := s.current;
    if s.tasklets[me].reschedule == Stay {
      ReceiveBlocksStruct(s, c);
    } else {
      ReceiveBlocksEffect(s, c);
      AfterTurnMembers(s.queue, me, s.tasklets[me].reschedule);
      assert ReceiveBlocks(s, c).channels[c].receivers[|s.channels[c].receivers|] == me;
      assert !Listed(ReceiveBlocks(s, c), c, me);
    }
  }

  /** `insert` of the running tasklet, which is scheduled, and then a send or a receive that blocks:
      the tasklet is queued to run and on a blocked list at once, and flagged as not blocked. */
  lemma InsertedThenBlocked(s: State, c: Cid, m: Message, s1: State)
    requires Placed(s) && Running(s) && s.current != MAIN && c in s.channels && !s.channels[c].closed
    requires s1 == InsertCall(s, s.current) && c in s1.channels && s1.current in s1.tasklets
    ensures s1.current == s.current && Struct(s1) && s1.channels == s.channels
    ensures s.channels[c].receivers == [] ==> BrokenPlace(SendBlocks(s1, c, m), s.current)
    ensures s.channels[c].senders == [] ==> BrokenPlace(ReceiveBlocks(s1, c), s.current)
  {
    CurrentReady(s);
    InsertStruct(s, s.current);
    if s.channels[c].receivers == [] { FlaggedSend(s1, c, m); }
    if s.channels[c].senders == [] { FlaggedReceive(s1, c); }
  }

  /** In the run queue and on a blocked list, and flagged as not blocked. */
  ghost predicate BrokenPlace(s: State, t: Tid) {
    && t in s.queue && t in s.tasklets && s.tasklets[t].blockedOn.None?
    && exists c :: c in s.channels && (t in s.channels[c].senders || t in s.channels[c].receivers)
  }

  lemma FlaggedSend(s: State, c: Cid, m: Message)
    requires Struct(s) && s.current != MAIN && c in s.channels && s.tasklets[s.current].blockedOn.None?
    requires s.tasklets[s.current].reschedule == Back && s.channels[c].receivers == [] && !s.channels[c].closed
    ensures BrokenPlace(SendBlocks(s, c, m), s.current)
  {
    SendBlocksEffect(s, c, m);
    AfterTurnMembers(s.queue, s.current, Back);
    assert SendBlocks(s, c, m).channels[c].senders[|s.channels[c].senders|] == s.current;
  }

  lemma FlaggedReceive(s: State, c: Cid)
    requires Struct(s) && s.current != MAIN && c in s.channels && s.tasklets[s.current].blockedOn.None?
    requires s.tasklets[s.current].reschedule == Back && s.channels[c].senders == [] && !s.channels[c].closed
    ensures BrokenPlace(ReceiveBlocks(s, c), s.current)
  {
    ReceiveBlocksEffect(s, c);
    AfterTurnMembers(s.queue, s.current, Back);
    assert ReceiveBlocks(s, c).channels[c].receivers[|s.channels[c].receivers|] == s.current;
  }
}
