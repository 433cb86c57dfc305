/** Bounded waiting in the global queue: on every 64th tick of a runner, the runner has popped the
    global queue in the course of the tick, or its local queue has room for the periodic steal. */
module ExecutorFairness {
  import opened Executor
  import opened ExecutorInvariant
  import opened ExecutorSteps
  import opened ExecutorTasks

  predicate TickSteal(pc: Pc) {
    Stealing(pc) && pc.why.OnTick?
  }

  /** Between finding a runnable and bumping the tick counter. */
  predicate BeforeBump(pc: Pc) {
    || pc.Found? || pc.WakeStore? || pc.Tick?
    || (NotifyPc(pc) && pc.after.Deliver?)
    || (Stealing(pc) && pc.why.AfterPop?)
  }

  /** A pop of the global queue that the current tick still has to make. */
  function Owed(pr: Proc): nat {
    if TickSteal(pr.pc) && !pr.took then 1 else 0
  }

  /** A pop of the global queue made for a tick that is not counted yet. */
  function Credit(pr: Proc): nat {
    if BeforeBump(pr.pc) && pr.took then 1 else 0
  }

  predicate HasRoom(pr: Proc) {
    && (!pr.took && (BeforeBump(pr.pc) || ((pr.pc.StealLen? || pr.pc.StealRoom?) && pr.pc.why.OnTick?))
        ==> |pr.local| < LOCAL_CAPACITY)
    && (pr.pc.StealRoom? ==> pr.pc.want > 0)
    && (Stealing(pr.pc) && !pr.pc.why.Scan? ==> pr.pc.src.Global?)
    && (pr.pc.StealLoop? && pr.pc.why.OnTick? && !pr.took ==> pr.pc.left > 0)
    && (Stealing(pr.pc) && pr.pc.why.AfterPop? ==> pr.took)
    && (pr.pc.StealPush? && pr.pc.why.OnTick? ==> pr.took)
    && (Stealing(pr.pc) && pr.pc.why.Scan? ==> pr.pc.src.Victim?)
    && (Seeking(pr.pc) ==> !pr.took)
  }

  predicate Seeking(pc: Pc) {
    pc.Search? || pc.SearchGlobal? || Scanning(pc) || pc.SleepMutate? || pc.SleepStore?
  }

  /** The account of runner `r` since the global queue had been popped `popped0` times and the
      runner had made `bumps0` ticks: at least one pop for every multiple of 64 passed. */
  ghost predicate Account(s: State, r: Pid, popped0: nat, bumps0: nat) {
    && r < |s.procs| && s.procs[r].runner && HasRoom(s.procs[r])
    && s.procs[r].bumps >= bumps0
    && s.popped + Owed(s.procs[r])
       >= popped0 + s.procs[r].bumps / TICKS_PER_STEAL - bumps0 / TICKS_PER_STEAL + Credit(s.procs[r])
  }

  lemma BumpCrosses(b: nat)
    ensures (b + 1) % TICKS_PER_STEAL == 0 ==> (b + 1) / TICKS_PER_STEAL == b / TICKS_PER_STEAL + 1
    ensures (b + 1) % TICKS_PER_STEAL != 0 ==> (b + 1) / TICKS_PER_STEAL == b / TICKS_PER_STEAL
  {}

  /** The wrapped counter meets a multiple of 64 exactly when the unwrapped one does. */
  lemma WrappedTick(b: nat)
    ensures (b % TICKS_MODULUS + 1) % TICKS_MODULUS % TICKS_PER_STEAL == (b + 1) % TICKS_PER_STEAL
  {
    var q := b / TICKS_MODULUS;
    assert b == q * TICKS_MODULUS + b % TICKS_MODULUS;
  }

  // ---- Steps of the runner itself ----

  /** Steps that only move the program counter keep the account when they stay on the same side
      of the bump and outside the periodic steal. */
  lemma Moves(s: State, r: Pid, s': State, popped0: nat, bumps0: nat)
    requires Account(s, r, popped0, bumps0) && |s'.procs| == |s.procs| && s'.popped >= s.popped
    requires var pr, pr' := s.procs[r], s'.procs[r];
             && pr'.runner && pr'.bumps == pr.bumps && HasRoom(pr')
             && Owed(pr') >= Owed(pr) && Credit(pr') <= Credit(pr)
    ensures Account(s', r, popped0, bumps0)
  {}

  ghost predicate Own(s: State, r: Pid) {
    r < |s.procs| && ProcOk(s.procs[r]) && s.procs[r].runner && HasRoom(s.procs[r])
  }

  /** What a step of the runner does to the quantities of the account. */
  ghost predicate Sound(s: State, r: Pid, s': State)
    requires r < |s.procs|
  {
    && |s'.procs| == |s.procs| && s'.procs[r].runner && HasRoom(s'.procs[r])
    && (|| (s'.procs[r].bumps == s.procs[r].bumps
            && s'.popped + Owed(s'.procs[r]) + Credit(s.procs[r])
               >= s.popped + Owed(s.procs[r]) + Credit(s'.procs[r]))
        || (s'.procs[r].bumps == s.procs[r].bumps + 1
            && s.procs[r].pc.Tick? && s'.popped == s.popped && Credit(s'.procs[r]) == 0
            && Owed(s'.procs[r]) + Credit(s.procs[r])
               >= if s'.procs[r].bumps % TICKS_PER_STEAL == 0 then 1 else 0))
  }

  lemma SoundKeepsAccount(s: State, r: Pid, s': State, popped0: nat, bumps0: nat)
    requires Account(s, r, popped0, bumps0) && Sound(s, r, s')
    ensures Account(s', r, popped0, bumps0)
  {
    BumpCrosses(s.procs[r].bumps);
  }

  /** A step inside a critical section or a notification: the queues, the tick and the side of
      the bump stay as they are. */
  ghost predicate Quiet(s: State, r: Pid, s': State)
    requires r < |s.procs|
  {
    && |s'.procs| == |s.procs| && s'.popped == s.popped
    && var pr, pr' := s.procs[r], s'.procs[r];
    && pr'.runner && pr'.bumps == pr.bumps && pr'.took == pr.took && pr'.local == pr.local
    && (BeforeBump(pr'.pc) <==> BeforeBump(pr.pc)) && !Stealing(pr.pc) && !Stealing(pr'.pc)
    && (Seeking(pr'.pc) ==> Seeking(pr.pc))
  }

  lemma QuietSound(s: State, r: Pid, s': State)
    requires Own(s, r) && Quiet(s, r, s')
    ensures Sound(s, r, s')
  {}

  lemma NotifyQuiet(s: State, r: Pid)
    requires r < |s.procs| && s.procs[r].runner
    ensures s.procs[r].pc.Cas? ==> Quiet(s, r, CasStep(s, r))
    ensures s.procs[r].pc.PopSleeper? ==> Quiet(s, r, PopSleeperStep(s, r))
  {}

  lemma StoreQuiet(s: State, r: Pid, pc: Pc)
    requires r < |s.procs| && s.procs[r].runner && EndsSection(s.procs[r].pc, pc)
    ensures Quiet(s, r, StoreStep(s, r, pc))
  {}

  lemma SleepQuiet(s: State, r: Pid)
    requires r < |s.procs| && s.procs[r].runner && s.procs[r].pc.SleepMutate?
    ensures Quiet(s, r, SleepMutateStep(s, r))
  {
    var pr, pr' := s.procs[r], SleepMutateStep(s, r).procs[r];
    assert pr' == pr.(pc := pr'.pc, id := pr'.id) && (pr'.pc == SleepStore || pr'.pc == Parked(false));
  }

  lemma MutateQuiet(s: State, r: Pid)
    requires r < |s.procs| && s.procs[r].runner
    ensures s.procs[r].pc.SleepMutate? ==> Quiet(s, r, SleepMutateStep(s, r))
    ensures s.procs[r].pc.DropMutate? && s.registry.count > 0 ==> Quiet(s, r, DropMutateStep(s, r))
  {
    if s.procs[r].pc.SleepMutate? { SleepQuiet(s, r); }
  }

  lemma SectionSound(s: State, r: Pid, s': State)
    requires Own(s, r) && ProcStep(s, r, s') && SectionPc(s.procs[r].pc)
    ensures Sound(s, r, s')
  {
    match s.procs[r].pc
    case WakeStore => StoreQuiet(s, r, Executor.Cas(Deliver)); QuietSound(s, r, s');
    case SleepStore => StoreQuiet(s, r, Executor.Search); QuietSound(s, r, s');
    case DropStore(b) => StoreQuiet(s, r, if b then Executor.Cas(Return) else Executor.Gone); QuietSound(s, r, s');
    case Cas(_) => NotifyQuiet(s, r); QuietSound(s, r, s');
    case PopSleeper(_) => NotifyQuiet(s, r); QuietSound(s, r, s');
    case _ => MutateQuiet(s, r); QuietSound(s, r, s');
  }

  lemma WakeUpSound(s: State, r: Pid)
    requires Own(s, r) && s.procs[r].pc.WakeUp?
    ensures Sound(s, r, WakeUpStep(s, r))
  {
    QuietSound(s, r, WakeUpStep(s, r));
  }

  lemma SearchLocalSound(s: State, r: Pid)
    requires Own(s, r) && s.procs[r].pc.Search?
    ensures Sound(s, r, SearchStep(s, r))
  {}

  lemma SearchGlobalSound(s: State, r: Pid, others: seq<Pid>)
    requires Own(s, r) && s.procs[r].pc.SearchGlobal?
    ensures Sound(s, r, SearchGlobalStep(s, r, others))
  {}

  lemma SearchOthersSound(s: State, r: Pid)
    requires Own(s, r) && s.procs[r].pc.SearchOthers?
    ensures Sound(s, r, SearchOthersStep(s, r))
  {}

  lemma FoundSound(s: State, r: Pid)
    requires Own(s, r) && s.procs[r].pc.Found? && (s.procs[r].id != 0 ==> s.registry.count > 0)
    ensures Sound(s, r, FoundStep(s, r))
  {}

  lemma StealLenSound(s: State, r: Pid)
    requires Own(s, r) && s.procs[r].pc.StealLen? && s.global != []
    ensures Sound(s, r, StealLenStep(s, r))
  {}

  lemma StealRoomSound(s: State, r: Pid)
    requires Own(s, r) && s.procs[r].pc.StealRoom? && |s.procs[r].local| <= LOCAL_CAPACITY
    ensures Sound(s, r, StealRoomStep(s, r))
  {}

  lemma StealPushSound(s: State, r: Pid)
    requires Own(s, r) && s.procs[r].pc.StealPush? && s.procs[r].pc.left > 0
    ensures Sound(s, r, StealPushStep(s, r))
  {}

  lemma AfterStealSound(s: State, r: Pid)
    requires Own(s, r) && s.procs[r].pc.StealLoop? && Owed(s.procs[r]) == 0
    ensures Sound(s, r, AfterSteal(s, r, s.procs[r].pc.why))
  {}

  lemma StealLoopSound(s: State, r: Pid)
    requires Own(s, r) && s.procs[r].pc.StealLoop? && s.global != []
    ensures Sound(s, r, StealLoopStep(s, r))
  {
    var pc := s.procs[r].pc;
    if pc.left == 0 || SourceLen(s, pc.src) == 0 {
      AfterStealSound(s, r);
    }
  }

  lemma TickSound(s: State, r: Pid)
    requires Own(s, r) && s.procs[r].pc.Tick?
    ensures Sound(s, r, TickStep(s, r))
  {
    WrappedTick(s.procs[r].bumps);
  }

  lemma RestSound(s: State, r: Pid, s': State)
    requires Own(s, r) && |s'.procs| == |s.procs| && s'.popped == s.popped
    requires s'.procs[r].runner && s'.procs[r].bumps == s.procs[r].bumps
    requires Owed(s.procs[r]) == 0 && Credit(s.procs[r]) == 0
    requires var pc := s'.procs[r].pc; !Stealing(pc) && !BeforeBump(pc) && (Seeking(pc) ==> !s'.procs[r].took)
    ensures Sound(s, r, s')
  {}

  lemma RestingSound(s: State, r: Pid, s': State)
    requires Own(s, r) && ProcStep(s, r, s')
    requires s.procs[r].pc.Resting? || s.procs[r].pc.Parked? || s.procs[r].pc.HasTask?
    ensures Sound(s, r, s')
  {
    RestSound(s, r, s');
  }

  lemma DrainSound(s: State, r: Pid, s': State)
    requires Own(s, r) && ProcStep(s, r, s')
    requires s.procs[r].pc.DrainPop? || s.procs[r].pc.DrainPush? || s.procs[r].pc.Push?
    ensures Sound(s, r, s')
  {
    RestSound(s, r, s');
  }

  lemma OwnStepSound(s: State, r: Pid, s': State)
    requires Own(s, r) && ProcStep(s, r, s') && s.global != []
    ensures Sound(s, r, s')
  {
    var pc := s.procs[r].pc;
    if SectionPc(pc) { SectionSound(s, r, s'); }
    else if pc.Resting? || pc.Parked? || pc.HasTask? { RestingSound(s, r, s'); }
    else if pc.DrainPop? || pc.DrainPush? || pc.Push? { DrainSound(s, r, s'); }
    else {
      match pc
      case WakeUp(_, _) => WakeUpSound(s, r);
      case Search => SearchLocalSound(s, r);
      case SearchGlobal =>
        var others :| ScanOrder(s, r, others) && s' == SearchGlobalStep(s, r, others);
        SearchGlobalSound(s, r, others);
      case SearchOthers(_) => SearchOthersSound(s, r);
      case StealLen(_, _) => StealLenSound(s, r);
      case StealRoom(_, _, _) => StealRoomSound(s, r);
      case StealLoop(_, _, _) => StealLoopSound(s, r);
      case StealPush(_, _, _, _) => StealPushSound(s, r);
      case Found => FoundSound(s, r);
      case Tick => TickSound(s, r);
      case _ =>
    }
  }

  // ---- Steps of the others ----

  /** What another process can do to a runner: take from its local queue, or wake it. */
  ghost predicate Touched(pr: Proc, pr': Proc) {
    || pr' == pr
    || (pr.local != [] && pr' == pr.(local := pr.local[1..]))
    || (pr.pc.Parked? && pr' == pr.(pc := Parked(true)))
  }

  lemma TouchedSound(s: State, r: Pid, s': State)
    requires Own(s, r) && |s'.procs| == |s.procs| && s'.popped >= s.popped && Touched(s.procs[r], s'.procs[r])
    ensures Sound(s, r, s')
  {}

  lemma MovingStepTouches(s: State, p: Pid, r: Pid, s': State)
    requires p < |s.procs| && r < |s.procs| && p != r && ProcStep(s, p, s') && MovesRunnables(s.procs[p].pc)
    ensures |s'.procs| == |s.procs| && Touched(s.procs[r], s'.procs[r])
  {}

  lemma OtherStepTouches(s: State, p: Pid, r: Pid, s': State)
    requires p < |s.procs| && r < |s.procs| && p != r && ProcStep(s, p, s')
    ensures |s'.procs| == |s.procs| && Touched(s.procs[r], s'.procs[r])
  {
    if MovesRunnables(s.procs[p].pc) {
      MovingStepTouches(s, p, r, s');
    } else {
      var pr := PlainStep(s, p, s');
    }
  }

  // ---- Whole runs ----

  lemma StepKeepsAccount(s: State, s': State, r: Pid, popped0: nat, bumps0: nat)
    requires InvProcs(s) && Next(s, s') && s.global != [] && s'.popped >= s.popped
    requires Account(s, r, popped0, bumps0)
    ensures Account(s', r, popped0, bumps0)
  {
    if EnterStep(s, s') {
      assert s'.procs[r] == s.procs[r] && s'.popped == s.popped;
    } else {
      var p: Pid :| 0 <= p < |s.procs| && ProcStep(s, p, s');
      assert Own(s, r);
      if p == r {
        OwnStepSound(s, r, s');
      } else {
        OtherStepTouches(s, p, r, s');
        TouchedSound(s, r, s');
      }
      SoundKeepsAccount(s, r, s', popped0, bumps0);
    }
  }

  /** As long as fewer than `k + 1` pops have happened, the account of the runner stays sound. */
  lemma {:induction false} RunKeepsAccount(run: seq<State>, r: Pid, k: nat)
    requires IsRun(run) && Inv(run[0]) && InvQueue(run[0])
    requires r < |run[0].procs| && run[0].procs[r].runner && run[0].procs[r].pc.Resting?
    requires k < |run[0].global|
    ensures var last := run[|run| - 1];
            && Inv(last) && InvQueue(last)
            && run[0].pushed <= last.pushed && run[0].popped <= last.popped
            && (last.popped <= run[0].popped + k ==> Account(last, r, run[0].popped, run[0].procs[r].bumps))
  {
    if |run| > 1 {
      var before := run[..|run| - 1];
      RunKeepsAccount(before, r, k);
      assert before[0] == run[0] && before[|before| - 1] == run[|run| - 2];
      AccountStep(run[0], run[|run| - 2], run[|run| - 1], r, k);
    }
  }

  lemma AccountStep(first: State, s: State, s': State, r: Pid, k: nat)
    requires Inv(s) && InvQueue(s) && Next(s, s')
    requires InvQueue(first) && r < |first.procs| && k < |first.global|
    requires first.pushed <= s.pushed && first.popped <= s.popped
    requires s.popped <= first.popped + k ==> Account(s, r, first.popped, first.procs[r].bumps)
    ensures Inv(s') && InvQueue(s')
    ensures first.pushed <= s'.pushed && first.popped <= s'.popped
    ensures s'.popped <= first.popped + k ==> Account(s', r, first.popped, first.procs[r].bumps)
  {
    NextKeepsInv(s, s');
    StepOnQueue(s, s');
    StepKeepsQueue(s, s');
    if s'.popped <= first.popped + k {
      StepKeepsAccount(s, s', r, first.popped, first.procs[r].bumps);
    }
  }

  predicate RestingRunner(s: State, r: Pid) {
    r < |s.procs| && s.procs[r].runner && s.procs[r].pc.Resting?
  }

  /** The runnable that was at position `k` of the global queue is no longer in it. */
  ghost predicate LeftQueue(first: State, last: State, k: nat)
    requires k < |first.global|
  {
    && first.popped + k < last.popped <= |last.pushed|
    && last.global == last.pushed[last.popped..]
    && last.pushed[first.popped + k] == first.global[k]
  }

  lemma ManyTicks(first: State, last: State, r: Pid, k: nat)
    requires InvQueue(first) && InvQueue(last) && first.pushed <= last.pushed && first.popped <= last.popped
    requires k < |first.global| && RestingRunner(first, r) && RestingRunner(last, r)
    requires last.popped <= first.popped + k ==> Account(last, r, first.popped, first.procs[r].bumps)
    requires last.procs[r].bumps >= first.procs[r].bumps + TICKS_PER_STEAL * (k + 1)
    ensures LeftQueue(first, last, k)
  {
    Quotient(first.procs[r].bumps, last.procs[r].bumps, k + 1);
  }

  /** The runnable at position `k` of the global queue has left it by the time a runner has made
      64 * (k + 1) further ticks, whatever everybody else does in between. */
  lemma BoundedWaiting(run: seq<State>, r: Pid, k: nat)
    requires IsRun(run) && Inv(run[0]) && InvQueue(run[0])
    requires RestingRunner(run[0], r) && RestingRunner(run[|run| - 1], r) && k < |run[0].global|
    requires run[|run| - 1].procs[r].bumps >= run[0].procs[r].bumps + 64 * (k + 1)
    ensures LeftQueue(run[0], run[|run| - 1], k)
  {
    RunKeepsAccount(run, r, k);
    ManyTicks(run[0], run[|run| - 1], r, k);
  }

  lemma Quotient(a: nat, b: nat, n: nat)
    requires b >= a + TICKS_PER_STEAL * n
    ensures b / TICKS_PER_STEAL - a / TICKS_PER_STEAL >= n
  {}
}
