/** The main results about the executor, for every run from its initial state. */
module ExecutorTheorems {
  import opened Sleepers
  import opened Executor
  import opened ExecutorInvariant
  import opened ExecutorSteps
  import opened ExecutorTasks
  import opened ExecutorFairness

  ghost predicate IsExecution(run: seq<State>) {
    IsRun(run) && run[0] == INITIAL
  }

  lemma ExecutionInv(run: seq<State>)
    requires IsExecution(run)
    ensures Inv(run[|run| - 1])
  {
    InitialInv();
    RunKeepsInv(run);
  }

  // ---- No lost wake-up ----

  /** A process that will not take a step of its own accord: it has ended, nobody is polling it,
      it is busy running a task, or it is parked and its waker has not been woken. */
  predicate Stalled(pr: Proc) {
    pr.pc.Gone? || pr.pc.Resting? || pr.pc.HasTask? || pr.pc == Parked(false)
  }

  /** Whenever the global queue holds a runnable while a ticker is registered as sleeping, some
      process is bound to search again or to notify. When that process is a parked ticker, its
      latest waker has been woken, or a notifier is on its way to wake it. */
  lemma NoLostWakeUp(run: seq<State>) returns (p: Pid)
    requires IsExecution(run)
    requires var s := run[|run| - 1];
             s.global != [] && exists q :: 0 <= q < |s.procs| && s.procs[q].id != 0
    ensures var s := run[|run| - 1];
            && p < |s.procs| && WillAct(s, p)
            && (s.procs[p].pc.Parked? ==> s.procs[p].pc.poked || BeingWoken(s, s.procs[p].waker))
  {
    ExecutionInv(run);
    p := SomebodyActs(run[|run| - 1]);
  }

  /** The flag is up only if nobody sleeps, or a sleeper has been notified, or a notifier is between
      its exchange and its pop, or a ticker is between its update of the registry and its store. */
  lemma FlagIsJustified(run: seq<State>)
    requires IsExecution(run) && run[|run| - 1].notified
    ensures var s := run[|run| - 1];
            s.registry.count == 0 || exists p: Pid :: p < |s.procs| && Justifies(s, p)
  {
    ExecutionInv(run);
  }

  lemma SomebodyActs(s: State) returns (p: Pid)
    requires Inv(s) && s.global != [] && exists q :: 0 <= q < |s.procs| && s.procs[q].id != 0
    ensures p < |s.procs| && WillAct(s, p)
    ensures s.procs[p].pc.Parked? ==> s.procs[p].pc.poked || BeingWoken(s, s.procs[p].waker)
  {
    SleeperCounted(s);
    p :| p < |s.procs| && WillAct(s, p);
    if s.procs[p].pc.Parked? {
      ActingParked(s, p);
    }
  }

  lemma SleeperCounted(s: State)
    requires InvIds(s) && exists q :: 0 <= q < |s.procs| && s.procs[q].id != 0
    ensures s.registry.count > 0
  {
    var q :| 0 <= q < |s.procs| && s.procs[q].id != 0;
    assert s.procs[q].id in LiveIds(s.procs);
  }

  lemma ActingParked(s: State, p: Pid)
    requires InvParked(s) && p < |s.procs| && WillAct(s, p) && s.procs[p].pc.Parked?
    ensures NotifiedSleeper(s, p) && (s.procs[p].pc.poked || BeingWoken(s, s.procs[p].waker))
  {
    assert ParkedOk(s, p);
    ListedIsNotNotified(s.registry.wakers, s.procs[p].id, s.procs[p].waker);
  }

  lemma ListedIsNotNotified(wakers: seq<Entry>, id: nat, w: Waker)
    ensures (id, w) in wakers ==> id in WakerIds(wakers)
  {}

  /** The executor never goes quiet with work waiting for a sleeper: when every process is stalled
      and at least one ticker is parked, the global queue is empty, the local queue of every
      parked runner is empty, and no parked ticker has missed a notification. */
  lemma QuiescentMeansNoWork(run: seq<State>, q: Pid)
    requires IsExecution(run)
    requires var s := run[|run| - 1];
             && q < |s.procs| && s.procs[q].pc.Parked?
             && forall p :: 0 <= p < |s.procs| ==> Stalled(s.procs[p])
    ensures var s := run[|run| - 1];
            && s.global == []
            && s.procs[q].local == []
            && (s.procs[q].id, s.procs[q].waker) in s.registry.wakers
  {
    ExecutionInv(run);
    Quiet(run[|run| - 1], q);
  }

  lemma Quiet(s: State, q: Pid)
    requires Inv(s) && q < |s.procs| && s.procs[q].pc.Parked?
    requires forall p :: 0 <= p < |s.procs| ==> Stalled(s.procs[p])
    ensures s.global == [] && s.procs[q].local == [] && (s.procs[q].id, s.procs[q].waker) in s.registry.wakers
  {
    assert ProcOk(s.procs[q]);
    NobodyBeingWoken(s);
    assert ParkedOk(s, q);
    if s.global != [] {
      var p := SomebodyActs(s);
      StalledActor(s, p);
    }
  }

  lemma NobodyBeingWoken(s: State)
    requires forall p :: 0 <= p < |s.procs| ==> Stalled(s.procs[p])
    ensures forall w :: !BeingWoken(s, w)
  {}

  lemma StalledActor(s: State, p: Pid)
    requires InvProcs(s) && p < |s.procs| && WillAct(s, p) && Stalled(s.procs[p])
    ensures s.procs[p].pc == Parked(false)
  {
    assert ProcOk(s.procs[p]);
  }

  // ---- Nobody gets stuck ----

  /** A process can take a step on its own. */
  ghost predicate Enabled(s: State, p: Pid) {
    p < |s.procs| && exists s' :: ProcStep(s, p, s')
  }

  /** A process that is not stalled can take a step, or waits for the mutex and the process that
      holds it can. */
  lemma AlwaysEnabled(s: State, p: Pid)
    requires Inv(s) && p < |s.procs| && !Stalled(s.procs[p])
    ensures Enabled(s, p) || (s.lock.Some? && Enabled(s, s.lock.value))
  {
    if s.lock.None? {
      GuardsHold(s, p);
      EnabledWhenFree(s, p);
    } else {
      var h := s.lock.value;
      assert HoldsLock(s.procs[h].pc);
      HolderEnabled(s, h);
    }
  }

  lemma HolderEnabled(s: State, h: Pid)
    requires h < |s.procs| && HoldsLock(s.procs[h].pc)
    ensures Enabled(s, h)
  {
    match s.procs[h].pc
    case SleepStore => assert ProcStep(s, h, StoreStep(s, h, Executor.Search));
    case WakeStore => assert ProcStep(s, h, StoreStep(s, h, Executor.Cas(Deliver)));
    case DropStore(b) => assert ProcStep(s, h, StoreStep(s, h, if b then Executor.Cas(Return) else Executor.Gone));
  }

  /** What the code takes for granted holds whenever it is reached: `steal` computes its room
      without underflow and its push never fails, a runnable is in hand wherever one is used, and
      the registry counts every ticker that leaves it. */
  lemma GuardsHold(s: State, p: Pid)
    requires Inv(s) && p < |s.procs|
    ensures var pr := s.procs[p];
            && (pr.pc.StealRoom? ==> |pr.local| <= LOCAL_CAPACITY)
            && (pr.pc.StealPush? ==> pr.pc.left > 0 && |pr.local| < LOCAL_CAPACITY)
            && (pr.pc.Push? || pr.pc.DrainPush? || pr.pc.HasTask? ==> pr.hand.Some?)
            && (pr.pc.DropMutate? || (pr.pc.Found? && pr.id != 0) ==> s.registry.count > 0)
  {
    assert ProcOk(s.procs[p]);
    if s.procs[p].id != 0 {
      SleeperCounted(s);
    }
  }

  lemma EnabledWhenFree(s: State, p: Pid)
    requires p < |s.procs| && s.lock.None? && !Stalled(s.procs[p]) && !HoldsLock(s.procs[p].pc)
    requires var pr := s.procs[p];
             && (pr.pc.StealRoom? ==> |pr.local| <= LOCAL_CAPACITY)
             && (pr.pc.StealPush? ==> pr.pc.left > 0)
             && (pr.pc.Push? || pr.pc.DrainPush? ==> pr.hand.Some?)
             && (pr.pc.DropMutate? || (pr.pc.Found? && pr.id != 0) ==> s.registry.count > 0)
    ensures Enabled(s, p)
  {
    var pr := s.procs[p];
    match pr.pc
    case Push => assert ProcStep(s, p, PushStep(s, p, Return));
    case TryPop => assert ProcStep(s, p, TryPopStep(s, p));
    case Cas(_) => assert ProcStep(s, p, CasStep(s, p));
    case PopSleeper(_) => assert ProcStep(s, p, PopSleeperStep(s, p));
    case WakeUp(_, _) => assert ProcStep(s, p, WakeUpStep(s, p));
    case Search => assert ProcStep(s, p, SearchStep(s, p));
    case SearchGlobal => assert ScanOrder(s, p, []) && ProcStep(s, p, SearchGlobalStep(s, p, []));
    case SearchOthers(_) => assert ProcStep(s, p, SearchOthersStep(s, p));
    case StealLen(_, _) => assert ProcStep(s, p, StealLenStep(s, p));
    case StealRoom(_, _, _) => assert ProcStep(s, p, StealRoomStep(s, p));
    case StealLoop(_, _, _) => assert ProcStep(s, p, StealLoopStep(s, p));
    case StealPush(_, _, _, _) => assert ProcStep(s, p, StealPushStep(s, p));
    case Found => assert ProcStep(s, p, FoundStep(s, p));
    case SleepMutate => assert ProcStep(s, p, SleepMutateStep(s, p));
    case Parked(_) => assert ProcStep(s, p, PollStep(s, p, 0));
    case Tick => assert ProcStep(s, p, TickStep(s, p));
    case DrainPop => assert ProcStep(s, p, DrainPopStep(s, p));
    case DrainPush => assert ProcStep(s, p, PushStep(s, p, Drain));
    case DropMutate => assert ProcStep(s, p, DropMutateStep(s, p));
  }

  // ---- Sleeper identity ----

  /** In every reachable state no id is 0 or held by two tickers, held and reclaimed ids partition
      1..count+|freeIds| without repetition, wakers belong to distinct held ids, and at most one
      sleeper is notified. */
  lemma SleeperIdentity(run: seq<State>)
    requires IsExecution(run)
    ensures var s := run[|run| - 1];
            && (forall p, q :: 0 <= p < q < |s.procs| && s.procs[p].id != 0 ==> s.procs[p].id != s.procs[q].id)
            && LiveIds(s.procs) !! FreeIds(s.registry.freeIds)
            && LiveIds(s.procs) + FreeIds(s.registry.freeIds) == IdsUpTo(s.registry.count + |s.registry.freeIds|)
            && |LiveIds(s.procs)| == s.registry.count
            && (forall i, j :: 0 <= i < j < |s.registry.freeIds| ==> s.registry.freeIds[i] != s.registry.freeIds[j])
            && (forall i, j :: 0 <= i < j < |s.registry.wakers| ==> s.registry.wakers[i].0 != s.registry.wakers[j].0)
            && WakerIds(s.registry.wakers) <= LiveIds(s.procs)
            && (s.registry.count == |s.registry.wakers| || s.registry.count == |s.registry.wakers| + 1)
  {
    ExecutionInv(run);
  }

  lemma SingleNotification(run: seq<State>, p: Pid, q: Pid)
    requires IsExecution(run)
    requires var s := run[|run| - 1];
             p < |s.procs| && q < |s.procs| && NotifiedSleeper(s, p) && NotifiedSleeper(s, q)
    ensures p == q
  {
    ExecutionInv(run);
    OnlyOneNotified(run[|run| - 1], p, q);
  }

  lemma OnlyOneNotified(s: State, p: Pid, q: Pid)
    requires InvIds(s) && p < |s.procs| && q < |s.procs| && NotifiedSleeper(s, p) && NotifiedSleeper(s, q)
    ensures p == q
  {
    HeldIsLive(s.procs, p);
    HeldIsLive(s.procs, q);
    AtMostOneNotified(s.registry, LiveIds(s.procs), s.procs[p].id, s.procs[q].id);
  }

  // ---- Conservation ----

  /** Every runnable that was scheduled is in the executor's possession or has been run, each as
      often as it was scheduled. */
  lemma {:induction false} RunnablesConserved(run: seq<State>, t: Task)
    requires IsExecution(run)
    ensures Conserved(run[|run| - 1], t)
  {
    if |run| > 1 {
      var (before, s, s') := (run[..|run| - 1], run[|run| - 2], run[|run| - 1]);
      assert before[0] == run[0] && before[|before| - 1] == s;
      RunnablesConserved(before, t);
      ExecutionInv(before);
      assert Conserved(s', t) by { StepConserves(s, s', t); }
    }
  }

  /** A runner that is gone, or parked, has left nothing behind in its local queue. */
  lemma NothingLeftBehind(run: seq<State>, p: Pid, t: Task)
    requires IsExecution(run) && p < |run[|run| - 1].procs|
    requires run[|run| - 1].procs[p].pc.Gone? || run[|run| - 1].procs[p].pc.Parked?
    ensures run[|run| - 1].procs[p].local == [] && Held(run[|run| - 1].procs[p], t) == 0
  {
    ExecutionInv(run);
    assert ProcOk(run[|run| - 1].procs[p]);
  }

  // ---- Fairness ----

  lemma {:induction false} SuffixIsRun(run: seq<State>, i: nat)
    requires IsRun(run) && i < |run|
    ensures IsRun(run[i..])
  {
    if i < |run| - 1 {
      var (n, before) := (|run| - 1, run[..|run| - 1]);
      SuffixIsRun(before, i);
      assert run[i..][..|run[i..]| - 1] == before[i..];
      assert run[i..][|run[i..]| - 2] == run[n - 1] && run[i..][|run[i..]| - 1] == run[n];
    }
  }

  lemma PrefixIsExecution(run: seq<State>, i: nat)
    requires IsExecution(run) && i < |run|
    ensures IsExecution(run[..i + 1])
    decreases |run|
  {
    if i < |run| - 1 {
      assert run[..|run| - 1][..i + 1] == run[..i + 1] && run[..|run| - 1][0] == run[0];
      PrefixIsExecution(run[..|run| - 1], i);
    } else {
      assert run[..i + 1] == run;
    }
  }

  lemma {:induction false} ExecutionQueue(run: seq<State>)
    requires IsExecution(run)
    ensures InvQueue(run[|run| - 1])
  {
    if |run| > 1 {
      var before := run[..|run| - 1];
      var (s, s') := (run[|run| - 2], run[|run| - 1]);
      assert before[0] == run[0] && before[|before| - 1] == s;
      ExecutionQueue(before);
      assert InvQueue(s') by { StepQueue(s, s'); }
    }
  }

  lemma StepQueue(s: State, s': State)
    requires InvQueue(s) && Next(s, s')
    ensures InvQueue(s')
  {
    StepOnQueue(s, s');
    StepKeepsQueue(s, s');
  }

  /** At any moment of any execution: the runnable at position `k` of the global queue has left it
      by the time any one active runner has made 64 * (k + 1) further ticks. */
  lemma WaitingIsBounded(run: seq<State>, i: nat, r: Pid, k: nat)
    requires IsExecution(run) && i < |run| && k < |run[i].global|
    requires RestingRunner(run[i], r) && RestingRunner(run[|run| - 1], r)
    requires run[|run| - 1].procs[r].bumps >= run[i].procs[r].bumps + 64 * (k + 1)
    ensures LeftQueue(run[i], run[|run| - 1], k)
  {
    PrefixIsExecution(run, i);
    var prefix := run[..i + 1];
    assert prefix[|prefix| - 1] == run[i];
    ExecutionInv(prefix);
    ExecutionQueue(prefix);
    SuffixIsRun(run, i);
    var suffix := run[i..];
    assert suffix[0] == run[i] && suffix[|suffix| - 1] == run[|run| - 1];
    BoundedWaiting(suffix, r, k);
  }
}
