/** How runnables move between queues: what one call of `steal` takes, where a search finds its
    runnable, how often a runner steals, and what a dropped runner gives back. */
module ExecutorStealing {
  import opened Options
  import opened Executor
  import opened ExecutorInvariant
  import opened ExecutorSteps
  import opened ExecutorTasks
  import opened ExecutorFairness
  import opened ExecutorProgress
  import opened ExecutorTheorems

  // ---- Scans look at others only ----

  predicate VictimsOf(pc: Pc, p: Pid) {
    && (pc.SearchOthers? ==> p !in pc.rest)
    && (Stealing(pc) && pc.why.Scan? ==> p !in pc.why.rest && pc.src.Victim?)
    && (Stealing(pc) ==> pc.src != Victim(p))
  }

  ghost predicate ScansOthers(s: State) {
    forall p :: 0 <= p < |s.procs| ==> VictimsOf(s.procs[p].pc, p)
  }

  lemma StealStepScans(s: State, p: Pid)
    requires p < |s.procs| && VictimsOf(s.procs[p].pc, p)
    ensures s.procs[p].pc.StealLen? ==> VictimsOf(StealLenStep(s, p).procs[p].pc, p)
    ensures s.procs[p].pc.StealRoom? && |s.procs[p].local| <= LOCAL_CAPACITY ==>
              VictimsOf(StealRoomStep(s, p).procs[p].pc, p)
    ensures s.procs[p].pc.StealPush? && s.procs[p].pc.left > 0 ==> VictimsOf(StealPushStep(s, p).procs[p].pc, p)
  {}

  lemma AfterStealScans(s: State, p: Pid)
    requires p < |s.procs| && VictimsOf(s.procs[p].pc, p) && s.procs[p].pc.StealLoop?
    ensures VictimsOf(AfterSteal(s, p, s.procs[p].pc.why).procs[p].pc, p)
  {}

  lemma StealLoopScans(s: State, p: Pid)
    requires p < |s.procs| && VictimsOf(s.procs[p].pc, p) && s.procs[p].pc.StealLoop?
    ensures VictimsOf(StealLoopStep(s, p).procs[p].pc, p)
  {
    AfterStealScans(s, p);
  }

  lemma SearchStepScans(s: State, p: Pid, others: seq<Pid>)
    requires p < |s.procs| && VictimsOf(s.procs[p].pc, p)
    ensures s.procs[p].pc.SearchOthers? ==> VictimsOf(SearchOthersStep(s, p).procs[p].pc, p)
    ensures ScanOrder(s, p, others) ==> VictimsOf(SearchGlobalStep(s, p, others).procs[p].pc, p)
    ensures VictimsOf(TickStep(s, p).procs[p].pc, p)
  {}

  lemma StealingStepScans(s: State, p: Pid, s': State)
    requires p < |s.procs| && ProcStep(s, p, s') && VictimsOf(s.procs[p].pc, p) && Stealing(s.procs[p].pc)
    ensures |s'.procs| == |s.procs| && VictimsOf(s'.procs[p].pc, p)
  {
    if s.procs[p].pc.StealLoop? { StealLoopScans(s, p); } else { StealStepScans(s, p); }
  }

  lemma OwnStepScans(s: State, p: Pid, s': State)
    requires p < |s.procs| && ProcStep(s, p, s') && VictimsOf(s.procs[p].pc, p)
    ensures |s'.procs| == |s.procs| && VictimsOf(s'.procs[p].pc, p)
  {
    var pc := s.procs[p].pc;
    if Stealing(pc) {
      StealingStepScans(s, p, s');
    } else if MayScan(pc) {
      SearchingStepScans(s, p, s');
    } else {
      QuietStepScans(s, p, s');
    }
  }

  lemma SearchingStepScans(s: State, p: Pid, s': State)
    requires p < |s.procs| && ProcStep(s, p, s') && VictimsOf(s.procs[p].pc, p)
    requires s.procs[p].pc.SearchOthers? || s.procs[p].pc.SearchGlobal? || s.procs[p].pc.Tick?
    ensures |s'.procs| == |s.procs| && VictimsOf(s'.procs[p].pc, p)
  {
    var others := [];
    if s.procs[p].pc.SearchGlobal? {
      others :| ScanOrder(s, p, others) && s' == SearchGlobalStep(s, p, others);
    }
    SearchStepScans(s, p, others);
  }

  predicate MayScan(pc: Pc) {
    Stealing(pc) || pc.SearchOthers? || pc.SearchGlobal? || pc.Tick?
  }

  predicate Unscanning(s: State, p: Pid, s': State)
    requires p < |s.procs|
  {
    |s'.procs| == |s.procs| && !Stealing(s'.procs[p].pc) && !s'.procs[p].pc.SearchOthers?
  }

  lemma NotifyUnscanning(s: State, p: Pid)
    requires p < |s.procs|
    ensures s.procs[p].pc.Cas? ==> Unscanning(s, p, CasStep(s, p))
    ensures s.procs[p].pc.PopSleeper? ==> Unscanning(s, p, PopSleeperStep(s, p))
    ensures s.procs[p].pc.WakeUp? ==> Unscanning(s, p, WakeUpStep(s, p))
  {}

  lemma MutateUnscanning(s: State, p: Pid)
    requires p < |s.procs|
    ensures Unscanning(s, p, SleepMutateStep(s, p))
    ensures (s.procs[p].id != 0 ==> s.registry.count > 0) ==> Unscanning(s, p, FoundStep(s, p))
    ensures s.registry.count > 0 ==> Unscanning(s, p, DropMutateStep(s, p))
  {}

  predicate QueuePc(pc: Pc) {
    pc.Push? || pc.TryPop? || pc.Search? || pc.HasTask? || pc.DrainPop? || pc.DrainPush?
  }

  lemma QueueUnscanning(s: State, p: Pid, s': State)
    requires p < |s.procs| && ProcStep(s, p, s') && QueuePc(s.procs[p].pc)
    ensures Unscanning(s, p, s')
  {}

  lemma RestUnscanning(s: State, p: Pid, s': State)
    requires p < |s.procs| && ProcStep(s, p, s')
    requires s.procs[p].pc.Resting? || s.procs[p].pc.Parked? || HoldsLock(s.procs[p].pc)
    ensures Unscanning(s, p, s')
  {}

  lemma QuietStepScans(s: State, p: Pid, s': State)
    requires p < |s.procs| && ProcStep(s, p, s') && !MayScan(s.procs[p].pc)
    ensures |s'.procs| == |s.procs| && VictimsOf(s'.procs[p].pc, p)
  {
    var pc := s.procs[p].pc;
    if NotifyPc(pc) { NotifyUnscanning(s, p); }
    else if pc.SleepMutate? || pc.Found? || pc.DropMutate? { MutateUnscanning(s, p); }
    else if QueuePc(pc) { QueueUnscanning(s, p, s'); }
    else { RestUnscanning(s, p, s'); }
    assert Unscanning(s, p, s');
  }

  lemma StepScans(s: State, s': State)
    requires ScansOthers(s) && Next(s, s')
    ensures ScansOthers(s')
  {
    if EnterStep(s, s') {
      var pr := EnterEffect(s, s');
    } else {
      var p: Pid :| 0 <= p < |s.procs| && ProcStep(s, p, s');
      OwnStepScans(s, p, s');
      forall r | 0 <= r < |s'.procs| ensures VictimsOf(s'.procs[r].pc, r) {
        if r != p { OtherStepTouches(s, p, r, s'); }
      }
    }
  }

  lemma {:induction false} ExecutionScans(run: seq<State>)
    requires IsExecution(run)
    ensures ScansOthers(run[|run| - 1])
  {
    if |run| > 1 {
      var before := run[..|run| - 1];
      assert before[0] == run[0] && before[|before| - 1] == run[|run| - 2];
      ExecutionScans(before);
      StepScans(run[|run| - 2], run[|run| - 1]);
    }
  }

  // ---- One call of `steal` ----

  function Items(s: State, src: Source): seq<Task> {
    match src
    case Global => s.global
    case Victim(v) => if v < |s.procs| then s.procs[v].local else []
  }

  /** Half of the source, rounded up, but no more than fits into a queue of 512. */
  function Share(source: seq<Task>, local: seq<Task>): int {
    var (half, room) := ((|source| + 1) / 2, 512 - |local|);
    if half <= room then half else room
  }

  /** Apart from its queues, the state is as it was when the call began. */
  predicate Elsewhere(s: State, s': State, p: Pid, src: Source) {
    && |s'.procs| == |s.procs|
    && (forall q :: 0 <= q < |s.procs| && q != p && src != Victim(q) ==> s'.procs[q] == s.procs[q])
    && (src.Victim? && src.v < |s.procs| && src.v != p ==>
          s'.procs[src.v] == s.procs[src.v].(local := s'.procs[src.v].local))
    && (src != Global ==> s'.global == s.global) && s'.pushed == s.pushed && s'.notified == s.notified
    && s'.registry == s.registry && s'.lock == s.lock && s'.entered == s.entered && s'.ran == s.ran
  }

  /** `m` runnables have been moved since the call began in state `s`. */
  predicate Moved(s: State, s': State, p: Pid, src: Source, m: nat)
    requires p < |s.procs| && p < |s'.procs| && s.procs[p].pc.StealLen?
  {
    var (source, local, pr) := (Items(s, src), s.procs[p].local, s'.procs[p]);
    && m <= Share(source, local) && m <= |source| && pr.local == local + source[..m]
    && pr.hand == s.procs[p].hand && pr.runner == s.procs[p].runner
    && Stealing(pr.pc) && pr.pc.src == src && pr.pc.why == s.procs[p].pc.why
    && match pr.pc
       case StealLen(_, _) => m == 0 && Items(s', src) == source
       case StealRoom(_, want, _) => m == 0 && Items(s', src) == source && want == (|source| + 1) / 2
       case StealLoop(_, left, _) => left == Share(source, local) - m && Items(s', src) == source[m..]
       case StealPush(_, left, _, item) =>
         left == Share(source, local) - m > 0 && m < |source| && item == source[m]
         && Items(s', src) == source[m + 1..]
  }

  /** The call that began in `s` goes on in `s'`. */
  ghost predicate Underway(s: State, s': State, p: Pid, src: Source, m: nat) {
    && p < |s.procs| && s.procs[p].pc.StealLen? && src != Victim(p) && |s.procs[p].local| <= 512
    && Elsewhere(s, s', p, src) && Moved(s, s', p, src, m)
  }

  /** The loop of `steal` is over. */
  predicate Exits(s: State, p: Pid)
    requires p < |s.procs|
  {
    s.procs[p].pc.StealLoop? && (s.procs[p].pc.left == 0 || SourceLen(s, s.procs[p].pc.src) == 0)
  }

  lemma BeginsUnderway(s: State, p: Pid, src: Source)
    requires p < |s.procs| && s.procs[p].pc.StealLen? && s.procs[p].pc.src == src && src != Victim(p)
    requires |s.procs[p].local| <= 512
    ensures Underway(s, s, p, src, 0)
  {}

  lemma CountUnderway(first: State, s: State, p: Pid, src: Source, m: nat)
    requires Underway(first, s, p, src, m)
    ensures s.procs[p].pc.StealLen? ==> Underway(first, StealLenStep(s, p), p, src, m)
    ensures s.procs[p].pc.StealRoom? && |s.procs[p].local| <= 512 ==> Underway(first, StealRoomStep(s, p), p, src, m)
  {}

  lemma PopUnderway(first: State, s: State, p: Pid, src: Source, m: nat)
    requires Underway(first, s, p, src, m) && s.procs[p].pc.StealLoop? && !Exits(s, p)
    ensures Underway(first, StealLoopStep(s, p), p, src, m)
  {
    var source := Items(first, src);
    assert source[m..][0] == source[m] && source[m..][1..] == source[m + 1..];
  }

  lemma PushUnderway(first: State, s: State, p: Pid, src: Source, m: nat)
    requires Underway(first, s, p, src, m) && s.procs[p].pc.StealPush?
    ensures Underway(first, StealPushStep(s, p), p, src, m + 1)
  {
    var source := Items(first, src);
    assert source[..m + 1] == source[..m] + [source[m]];
  }

  lemma StealGoesOn(first: State, s: State, p: Pid, src: Source, m: nat, s': State) returns (m': nat)
    requires Underway(first, s, p, src, m) && ProcStep(s, p, s') && !Exits(s, p)
    ensures Underway(first, s', p, src, m')
  {
    m' := m;
    match s.procs[p].pc
    case StealLen(_, _) => CountUnderway(first, s, p, src, m);
    case StealRoom(_, _, _) => CountUnderway(first, s, p, src, m);
    case StealLoop(_, _, _) => PopUnderway(first, s, p, src, m);
    case StealPush(_, _, _, _) => PushUnderway(first, s, p, src, m); m' := m + 1;
  }

  /** All steps are steps of `p`, and `steal` is left only after the last state. */
  ghost predicate StealAlone(run: seq<State>, p: Pid) {
    && run != []
    && forall k :: 0 <= k < |run| - 1 ==> p < |run[k].procs| && !Exits(run[k], p) && ProcStep(run[k], p, run[k + 1])
  }

  lemma {:induction false} StealAloneUnderway(run: seq<State>, p: Pid, src: Source) returns (m: nat)
    requires StealAlone(run, p) && Underway(run[0], run[0], p, src, 0)
    ensures Underway(run[0], run[|run| - 1], p, src, m)
    decreases |run|
  {
    m := 0;
    if |run| > 1 {
      var n := |run| - 1;
      m := StealAloneUnderway(run[..n], p, src);
      m := StealGoesOn(run[0], run[n - 1], p, src, m, run[n]);
    }
  }

  /** What one undisturbed call of `steal` does: half of the source, rounded up, or as much as there is
      room for in a queue of 512, has moved from the head of the source to the end of the runner's
      queue, and nothing else has changed. */
  predicate TookHalf(s: State, s': State, p: Pid, src: Source)
    requires p < |s.procs| && p < |s'.procs|
  {
    var (source, local) := (Items(s, src), s.procs[p].local);
    var (half, room) := ((|source| + 1) / 2, 512 - |local|);
    var k := if half <= room then half else room;
    && 0 <= k <= |source| && s'.procs[p].local == local + source[..k] && Items(s', src) == source[k..]
    && Elsewhere(s, s', p, src)
    && s'.procs[p].hand == s.procs[p].hand && s'.procs[p].runner == s.procs[p].runner
  }

  lemma StealOver(first: State, s: State, p: Pid, src: Source, m: nat)
    requires Underway(first, s, p, src, m) && Exits(s, p)
    ensures TookHalf(first, s, p, src)
  {
    var source := Items(first, src);
    assert |source[m..]| == |source| - m;
  }

  lemma AloneTakesHalf(run: seq<State>, p: Pid, src: Source)
    requires StealAlone(run, p) && p < |run[0].procs| && p < |run[|run| - 1].procs| && Exits(run[|run| - 1], p)
    requires run[0].procs[p].pc.StealLen? && src == run[0].procs[p].pc.src != Victim(p)
    requires |run[0].procs[p].local| <= 512
    ensures TookHalf(run[0], run[|run| - 1], p, src)
  {
    BeginsUnderway(run[0], p, src);
    var m := StealAloneUnderway(run, p, src);
    StealOver(run[0], run[|run| - 1], p, src, m);
  }

  /** At any moment `i` of any execution: a call of `steal` that nobody interferes with has taken half
      when its loop ends, and its source is not the runner's own queue. */
  lemma StealTakesHalf(run: seq<State>, i: nat, p: Pid, tail: seq<State>)
    requires IsExecution(run) && i < |run| && p < |run[i].procs| && run[i].procs[p].pc.StealLen?
    requires tail == run[i..] && StealAlone(tail, p)
    requires p < |run[|run| - 1].procs| && Exits(run[|run| - 1], p)
    ensures TookHalf(run[i], run[|run| - 1], p, run[i].procs[p].pc.src) && run[i].procs[p].pc.src != Victim(p)
  {
    StealBegins(run, i, p);
    assert tail[0] == run[i] && tail[|tail| - 1] == run[|run| - 1];
    AloneTakesHalf(tail, p, run[i].procs[p].pc.src);
  }

  lemma StealBegins(run: seq<State>, i: nat, p: Pid)
    requires IsExecution(run) && i < |run| && p < |run[i].procs| && run[i].procs[p].pc.StealLen?
    ensures run[i].procs[p].pc.src != Victim(p) && |run[i].procs[p].local| <= 512
  {
    PrefixIsExecution(run, i);
    var prefix := run[..i + 1];
    assert prefix[|prefix| - 1] == run[i];
    ExecutionScans(prefix);
    ExecutionInv(prefix);
    assert VictimsOf(run[i].procs[p].pc, p) && ProcOk(run[i].procs[p]);
  }

  function StepsLeft(pc: Pc): nat {
    match pc
    case StealLen(_, _) => 1030
    case StealRoom(_, _, _) => 1029
    case StealLoop(_, left, _) => 2 * left + 1
    case StealPush(_, left, _, _) => 2 * left
    case _ => 0
  }

  /** Left alone, a call of `steal` comes to its end. */
  lemma {:induction false} StealEnds(first: State, s: State, p: Pid, src: Source, m: nat) returns (run: seq<State>)
    requires Underway(first, s, p, src, m)
    ensures StealAlone(run, p) && run[0] == s && p < |run[|run| - 1].procs| && Exits(run[|run| - 1], p)
    decreases StepsLeft(s.procs[p].pc)
  {
    if Exits(s, p) {
      run := [s];
    } else {
      var s' := NextSteal(s, p);
      var m' := StealGoesOn(first, s, p, src, m, s');
      var rest := StealEnds(first, s', p, src, m');
      run := [s] + rest;
      assert forall k :: 0 < k < |run| ==> run[k] == rest[k - 1];
    }
  }

  lemma NextSteal(s: State, p: Pid) returns (s': State)
    requires p < |s.procs| && Stealing(s.procs[p].pc) && !Exits(s, p) && |s.procs[p].local| <= 512
    requires s.procs[p].pc.StealPush? ==> s.procs[p].pc.left > 0
    ensures ProcStep(s, p, s') && p < |s'.procs| && StepsLeft(s'.procs[p].pc) < StepsLeft(s.procs[p].pc)
  {
    match s.procs[p].pc
    case StealLen(_, _) => s' := StealLenStep(s, p);
    case StealRoom(_, _, _) => s' := StealRoomStep(s, p);
    case StealLoop(_, _, _) => s' := StealLoopStep(s, p);
    case StealPush(_, _, _, _) => s' := StealPushStep(s, p);
  }

  // ---- Where a runnable comes from ----

  /** A process that gets a runnable in hand takes the oldest one of its own queue, and only when that
      is empty the oldest one of the global queue. */
  predicate TakesOldest(s: State, p: Pid, s': State)
    requires p < |s.procs|
  {
    p < |s'.procs| &&
    var (pr, pr') := (s.procs[p], s'.procs[p]);
    pr.hand.None? && pr'.hand.Some? ==>
      if pr.local != []
      then pr'.hand == Some(pr.local[0]) && pr'.local == pr.local[1..] && s'.global == s.global
      else s.global != [] && pr'.hand == Some(s.global[0]) && s'.global == s.global[1..] && pr'.local == []
  }

  lemma HandFromOldest(s: State, p: Pid, s': State)
    requires p < |s.procs| && ProcOk(s.procs[p]) && ProcStep(s, p, s')
    ensures TakesOldest(s, p, s')
  {
    if MovesRunnables(s.procs[p].pc) {
      MovingTakesOldest(s, p, s');
    } else {
      var pr := PlainStep(s, p, s');
    }
  }

  lemma MovingTakesOldest(s: State, p: Pid, s': State)
    requires p < |s.procs| && ProcOk(s.procs[p]) && ProcStep(s, p, s') && MovesRunnables(s.procs[p].pc)
    ensures TakesOldest(s, p, s')
  {}

  /** In every execution: whoever gets a runnable in hand has taken the oldest one of its own queue,
      or of the global queue when its own is empty. */
  lemma OldestFirst(run: seq<State>, p: Pid, s': State)
    requires IsExecution(run) && p < |run[|run| - 1].procs| && ProcStep(run[|run| - 1], p, s')
    ensures TakesOldest(run[|run| - 1], p, s')
  {
    ExecutionInv(run);
    assert ProcOk(run[|run| - 1].procs[p]);
    HandFromOldest(run[|run| - 1], p, s');
  }

  function InHand(pr: Proc): seq<Task> {
    if pr.hand.Some? then [pr.hand.value] else []
  }

  predicate Draining(pc: Pc) {
    pc.DrainPop? || pc.DrainPush? || (NotifyPc(pc) && pc.after.Drain?)
  }

  /** A runner that is dropped gives its queue back in order: its steps move the runnables from the
      head of its queue to the end of the global queue and neither lose nor reorder one. */
  lemma DrainsInOrder(run: seq<State>, p: Pid, s': State)
    requires IsExecution(run) && p < |run[|run| - 1].procs| && ProcStep(run[|run| - 1], p, s')
    requires Draining(run[|run| - 1].procs[p].pc)
    ensures var s := run[|run| - 1];
            && p < |s'.procs|
            && s'.global + InHand(s'.procs[p]) + s'.procs[p].local == s.global + InHand(s.procs[p]) + s.procs[p].local
            && (Draining(s'.procs[p].pc) || s'.procs[p].local == [])
  {
    ExecutionInv(run);
    assert ProcOk(run[|run| - 1].procs[p]);
    DrainStepInOrder(run[|run| - 1], p, s');
  }

  lemma DrainStepInOrder(s: State, p: Pid, s': State)
    requires p < |s.procs| && ProcOk(s.procs[p]) && ProcStep(s, p, s') && Draining(s.procs[p].pc)
    ensures p < |s'.procs|
    ensures s'.global + InHand(s'.procs[p]) + s'.procs[p].local == s.global + InHand(s.procs[p]) + s.procs[p].local
    ensures Draining(s'.procs[p].pc) || s'.procs[p].local == []
  {
    if s.procs[p].pc.DrainPop? {
      DrainPopInOrder(s, p);
    } else if s.procs[p].pc.DrainPush? {
      DrainPushInOrder(s, p);
    } else {
      DrainNotifies(s, p, s');
    }
  }

  lemma DrainPopInOrder(s: State, p: Pid)
    requires p < |s.procs| && s.procs[p].hand.None?
    ensures var (pr, pr') := (s.procs[p], DrainPopStep(s, p).procs[p]);
            && DrainPopStep(s, p).global == s.global && InHand(pr') + pr'.local == InHand(pr) + pr.local
            && s.global + InHand(pr') + pr'.local == s.global + InHand(pr) + pr.local
            && (Draining(pr'.pc) || pr'.local == [])
  {
    var (pr, pr') := (s.procs[p], DrainPopStep(s, p).procs[p]);
    if pr.local != [] { assert pr.local == [pr.local[0]] + pr.local[1..]; }
    assert s.global + InHand(pr') + pr'.local == s.global + (InHand(pr') + pr'.local);
    assert s.global + InHand(pr) + pr.local == s.global + (InHand(pr) + pr.local);
  }

  lemma DrainPushInOrder(s: State, p: Pid)
    requires p < |s.procs| && s.procs[p].hand.Some?
    ensures var (pr, pr') := (s.procs[p], PushStep(s, p, Drain).procs[p]);
            PushStep(s, p, Drain).global + InHand(pr') + pr'.local == s.global + InHand(pr) + pr.local
            && Draining(pr'.pc)
  {}

  lemma DrainNotifies(s: State, p: Pid, s': State)
    requires p < |s.procs| && ProcStep(s, p, s') && NotifyPc(s.procs[p].pc) && s.procs[p].pc.after.Drain?
    ensures p < |s'.procs| && s'.global == s.global && s'.procs[p].hand == s.procs[p].hand
    ensures s'.procs[p].local == s.procs[p].local && Draining(s'.procs[p].pc)
  {}

  // ---- The periodic steal ----

  /** In every execution a runner steals from the global queue after its 64th, 128th, ... tick, and
      after no other. */
  lemma StealsEvery64Ticks(run: seq<State>, p: Pid, s': State)
    requires IsExecution(run) && p < |run[|run| - 1].procs| && ProcStep(run[|run| - 1], p, s')
    requires run[|run| - 1].procs[p].pc.Tick?
    ensures p < |s'.procs| && s'.procs[p].bumps == run[|run| - 1].procs[p].bumps + 1
    ensures s'.procs[p].pc == if s'.procs[p].bumps % 64 == 0 then StealLen(Global, OnTick) else HasTask
  {
    ExecutionInv(run);
    assert ProcOk(run[|run| - 1].procs[p]);
    TicksOn(run[|run| - 1], p, s');
  }

  lemma TicksOn(s: State, p: Pid, s': State)
    requires p < |s.procs| && ProcOk(s.procs[p]) && ProcStep(s, p, s') && s.procs[p].pc.Tick?
    ensures p < |s'.procs| && s'.procs[p].bumps == s.procs[p].bumps + 1
    ensures s'.procs[p].pc == if s'.procs[p].bumps % 64 == 0 then StealLen(Global, OnTick) else HasTask
  {
    TickLeadsTo(s, p);
  }

  lemma TickLeadsTo(s: State, p: Pid)
    requires p < |s.procs| && s.procs[p].ticks == s.procs[p].bumps % TICKS_MODULUS
    ensures var (pr, pr') := (s.procs[p], TickStep(s, p).procs[p]);
            && pr'.bumps == pr.bumps + 1
            && pr'.pc == if (pr.bumps + 1) % 64 == 0 then StealLen(Global, OnTick) else HasTask
  {
    WrappedTick(s.procs[p].bumps);
  }

  // ---- The flag ----

  /** The exchange of `p` finds the flag down, so that `p` goes on to notify a sleeper. */
  ghost predicate ExchangeSucceeds(s: State, p: Pid, s': State) {
    p < |s.procs| && p < |s'.procs| && s.procs[p].pc.Cas? && s'.procs[p].pc.PopSleeper?
  }

  predicate FlagAfter(s: State, pc: Pc) {
    if HoldsLock(pc) then s.registry.count == 0 || |s.registry.wakers| < s.registry.count else s.notified || pc.Cas?
  }

  /** What a step does to the flag: an exchange raises it, the end of a critical section recomputes it,
      and nothing else touches it. */
  lemma FlagStep(s: State, p: Pid, s': State)
    requires p < |s.procs| && ProcStep(s, p, s')
    ensures s'.notified == FlagAfter(s, s.procs[p].pc)
    ensures ExchangeSucceeds(s, p, s') <==> s.procs[p].pc.Cas? && !s.notified
  {
    if SectionPc(s.procs[p].pc) { SectionFlag(s, p, s'); } else { PlainFlag(s, p, s'); }
  }

  lemma SectionFlag(s: State, p: Pid, s': State)
    requires p < |s.procs| && ProcStep(s, p, s') && SectionPc(s.procs[p].pc)
    ensures s'.notified == FlagAfter(s, s.procs[p].pc)
    ensures ExchangeSucceeds(s, p, s') <==> s.procs[p].pc.Cas? && !s.notified
  {}

  lemma PlainFlag(s: State, p: Pid, s': State)
    requires p < |s.procs| && ProcStep(s, p, s') && !SectionPc(s.procs[p].pc)
    ensures s'.notified == s.notified
  {}

  /** The step ends a critical section with somebody asleep and nobody notified. */
  ghost predicate Lowers(s: State, who: Option<Pid>, s': State) {
    && who.Some? && who.value < |s.procs| && HoldsLock(s.procs[who.value].pc)
    && 0 < s.registry.count <= |s.registry.wakers| && !s'.notified
  }

  lemma FlagStays(s: State, who: Option<Pid>, s': State)
    requires StepBy(s, who, s') && s.notified
    ensures s'.notified || Lowers(s, who, s')
    ensures who.Some? ==> !ExchangeSucceeds(s, who.value, s')
  {
    if who.Some? { FlagStep(s, who.value, s'); } else { var pr := EnterEffect(s, s'); }
  }

  lemma {:induction false} FlagUntilLowered(run: seq<State>, who: seq<Option<Pid>>, i: nat, j: nat)
    requires RunBy(run, who) && i <= j < |run| && run[i].notified
    requires forall k :: i <= k < j ==> !Lowers(run[k], who[k], run[k + 1])
    ensures run[j].notified
    decreases j
  {
    if i < j {
      FlagUntilLowered(run, who, i, j - 1);
      assert StepBy(run[j - 1], who[j - 1], run[j - 1 + 1]);
      FlagStays(run[j - 1], who[j - 1], run[j]);
    }
  }

  /** No thundering herd: between two exchanges that go on to notify a sleeper, some critical section
      has ended with a sleeper in the registry and every sleeper still listed with its waker. */
  lemma ExchangesAlternate(run: seq<State>, who: seq<Option<Pid>>, i: nat, j: nat, p: Pid, q: Pid)
    requires RunBy(run, who) && i < j < |who| && who[i] == Some(p) && who[j] == Some(q)
    requires ExchangeSucceeds(run[i], p, run[i + 1]) && ExchangeSucceeds(run[j], q, run[j + 1])
    ensures exists k :: i < k < j && Lowers(run[k], who[k], run[k + 1])
  {
    assert StepBy(run[i], who[i], run[i + 1]) && StepBy(run[j], who[j], run[j + 1]);
    FlagStep(run[i], p, run[i + 1]);
    FlagStep(run[j], q, run[j + 1]);
    if forall k :: i < k < j ==> !Lowers(run[k], who[k], run[k + 1]) {
      FlagUntilLowered(run, who, i + 1, j);
    }
  }
}
