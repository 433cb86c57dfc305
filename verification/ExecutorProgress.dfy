/** A process that is bound to act does so within a bounded number of its own steps, whatever the
    others do in between. */
module ExecutorProgress {
  import opened Options
  import opened Sleepers
  import opened Executor
  import opened ExecutorInvariant
  import opened ExecutorSteps

  /** The next step of the process searches the global queue, or is the exchange or the pop of a
      notification. */
  predicate AboutToAct(pc: Pc) {
    pc.SearchGlobal? || pc.Cas? || pc.PopSleeper?
  }

  /** The most steps that one call of `steal` takes. */
  const STEAL_STEPS: nat := 2 * LOCAL_CAPACITY + 4

  /** Where a call of `steal` leads. */
  function AfterRank(why: Reason): nat {
    match why
    case Scan(rest) => 6 + |rest| * STEAL_STEPS
    case _ => 2
  }

  /** How many steps of its own a process can take before it acts. */
  function Rank(pc: Pc): nat {
    match pc
    case WakeStore => 1
    case DropStore(_) => 1
    case DrainPush => 1
    case Found => 2
    case DropMutate => 2
    case Search => 3
    case DrainPop => 3
    case WakeUp(_, _) => 4
    case SleepStore => 4
    case Parked(_) => 4
    case SleepMutate => 5
    case SearchOthers(rest) => 6 + |rest| * STEAL_STEPS
    case StealLen(_, why) => AfterRank(why) + STEAL_STEPS - 1
    case StealRoom(_, _, why) => AfterRank(why) + STEAL_STEPS - 2
    case StealLoop(_, left, why) => AfterRank(why) + 2 * left + 1
    case StealPush(_, left, why, _) => AfterRank(why) + 2 * left
    case _ => 0
  }

  /** One step on: still bound to act, and closer to it. */
  ghost predicate Closer(s: State, p: Pid, s': State) {
    p < |s.procs| && p < |s'.procs| && WillAct(s', p) && Rank(s'.procs[p].pc) < Rank(s.procs[p].pc)
  }

  /** Steps that leave the registry and the id alone. */
  lemma SameSleeper(s: State, p: Pid, s': State)
    requires p < |s.procs| && p < |s'.procs| && s'.registry == s.registry && s'.procs[p].id == s.procs[p].id
    ensures NotifiedSleeper(s', p) <==> NotifiedSleeper(s, p)
  {}

  // ---- Own steps ----

  lemma SearchCloser(s: State, p: Pid)
    requires p < |s.procs| && s.procs[p].pc.Search?
    ensures Closer(s, p, SearchStep(s, p))
  {}

  lemma RankStep(rest: seq<Pid>)
    requires rest != []
    ensures |rest| * STEAL_STEPS == |rest[1..]| * STEAL_STEPS + STEAL_STEPS
  {}

  lemma SearchOthersCloser(s: State, p: Pid)
    requires p < |s.procs| && s.procs[p].pc.SearchOthers? && WillAct(s, p)
    ensures Closer(s, p, SearchOthersStep(s, p))
  {
    SameSleeper(s, p, SearchOthersStep(s, p));
    if s.procs[p].pc.rest != [] { RankStep(s.procs[p].pc.rest); }
  }

  lemma StealStartCloser(s: State, p: Pid)
    requires p < |s.procs| && ProcOk(s.procs[p]) && WillAct(s, p)
    ensures s.procs[p].pc.StealLen? ==> Closer(s, p, StealLenStep(s, p))
    ensures s.procs[p].pc.StealRoom? ==> Closer(s, p, StealRoomStep(s, p))
    ensures s.procs[p].pc.StealPush? ==> Closer(s, p, StealPushStep(s, p))
  {
    if s.procs[p].pc.StealLen? { SameSleeper(s, p, StealLenStep(s, p)); }
    if s.procs[p].pc.StealRoom? { SameSleeper(s, p, StealRoomStep(s, p)); }
    if s.procs[p].pc.StealPush? { SameSleeper(s, p, StealPushStep(s, p)); }
  }

  lemma AfterStealCloser(s: State, p: Pid)
    requires p < |s.procs| && s.procs[p].pc.StealLoop? && WillAct(s, p) && !s.procs[p].pc.why.OnTick?
    ensures Closer(s, p, AfterSteal(s, p, s.procs[p].pc.why))
  {
    SameSleeper(s, p, AfterSteal(s, p, s.procs[p].pc.why));
  }

  lemma StealLoopCloser(s: State, p: Pid)
    requires p < |s.procs| && s.procs[p].pc.StealLoop? && WillAct(s, p) && ProcOk(s.procs[p])
    ensures Closer(s, p, StealLoopStep(s, p))
  {
    var pc := s.procs[p].pc;
    if pc.left == 0 || SourceLen(s, pc.src) == 0 {
      AfterStealCloser(s, p);
    } else {
      SameSleeper(s, p, StealLoopStep(s, p));
    }
  }

  lemma FoundCloser(s: State, p: Pid)
    requires p < |s.procs|
    ensures s.procs[p].pc.Found? && (s.procs[p].id != 0 ==> s.registry.count > 0) ==> Closer(s, p, FoundStep(s, p))
    ensures s.procs[p].pc.WakeStore? ==> Closer(s, p, StoreStep(s, p, Cas(Deliver)))
    ensures s.procs[p].pc.SleepStore? ==> Closer(s, p, StoreStep(s, p, Search))
    ensures s.procs[p].pc == DropStore(true) ==> Closer(s, p, StoreStep(s, p, Cas(Return)))
  {}

  /** A ticker that is not registered, or whose notification it discovers, searches again. */
  lemma SleepCloser(s: State, p: Pid)
    requires p < |s.procs| && s.procs[p].pc.SleepMutate? && SleepMutateStep(s, p).procs[p].pc.SleepStore?
    ensures Closer(s, p, SleepMutateStep(s, p))
  {
    SleepChanges(s, p);
    Reaches(s, p, SleepMutateStep(s, p));
  }

  lemma SearchesAgain(s: State, p: Pid)
    requires InvIds(s) && InvParked(s) && p < |s.procs| && s.procs[p].pc.SleepMutate?
    requires s.procs[p].id == 0 || NotifiedSleeper(s, p)
    ensures SleepMutateStep(s, p).procs[p].pc.SleepStore?
  {
    if s.procs[p].id == 0 { SleepInsertEffect(s, p); } else { SleepUpdateIds(s, p); }
  }

  /** The process has got to a place from which it goes straight on to act. */
  lemma Reaches(s: State, p: Pid, s': State)
    requires p < |s.procs| && p < |s'.procs| && Rank(s'.procs[p].pc) < Rank(s.procs[p].pc)
    requires s'.procs[p].pc.SleepStore? || s'.procs[p].pc == DropStore(true)
    ensures Closer(s, p, s')
  {}

  lemma PollCloser(s: State, p: Pid, w: Waker)
    requires p < |s.procs| && s.procs[p].pc.Parked?
    ensures Closer(s, p, PollStep(s, p, w))
  {}

  /** A notified ticker that is dropped passes its notification on. */
  lemma DropCloser(s: State, p: Pid)
    requires p < |s.procs| && ProcOk(s.procs[p]) && s.procs[p].pc.Parked? && WillAct(s, p)
    ensures Closer(s, p, DropStep(s, p))
  {
    SameSleeper(s, p, DropStep(s, p));
  }

  lemma DrainCloser(s: State, p: Pid)
    requires p < |s.procs| && ProcOk(s.procs[p]) && WillAct(s, p)
    ensures s.procs[p].pc.DrainPop? ==> Closer(s, p, DrainPopStep(s, p))
    ensures s.procs[p].pc.DrainPush? && s.procs[p].hand.Some? ==> Closer(s, p, PushStep(s, p, Drain))
  {
    if s.procs[p].pc.DrainPop? { SameSleeper(s, p, DrainPopStep(s, p)); }
  }

  lemma DropMutateCloser(s: State, p: Pid)
    requires p < |s.procs| && s.procs[p].pc.DropMutate? && s.registry.count > 0 && Remove(s.registry, s.procs[p].id).1
    ensures Closer(s, p, DropMutateStep(s, p))
  {
    Reaches(s, p, DropMutateStep(s, p));
  }

  lemma RemovalTells(s: State, p: Pid)
    requires InvIds(s) && p < |s.procs| && NotifiedSleeper(s, p) && s.registry.count > 0
    ensures Remove(s.registry, s.procs[p].id).1
  {
    HeldIsLive(s.procs, p);
    RemoveKeeps(s.registry, LiveIds(s.procs), s.procs[p].id);
  }

  lemma WakeUpCloser(s: State, p: Pid)
    requires p < |s.procs| && ProcOk(s.procs[p]) && s.procs[p].pc.WakeUp? && WillAct(s, p)
    ensures Closer(s, p, WakeUpStep(s, p))
  {
    SameSleeper(s, p, WakeUpStep(s, p));
  }

  predicate RegistryPc(pc: Pc) {
    || pc.Found? || pc.WakeStore? || pc.SleepMutate? || pc.SleepStore? || pc.Parked?
    || pc.DropStore? || pc.DropMutate?
  }

  lemma RegistryStepCloser(s: State, p: Pid, s': State)
    requires InvIds(s) && InvParked(s) && p < |s.procs| && ProcOk(s.procs[p]) && WillAct(s, p) && ProcStep(s, p, s')
    requires RegistryPc(s.procs[p].pc)
    ensures Closer(s, p, s')
  {
    match s.procs[p].pc
    case Found => FoundCloser(s, p);
    case WakeStore => FoundCloser(s, p);
    case SleepStore => FoundCloser(s, p);
    case DropStore(_) => FoundCloser(s, p);
    case SleepMutate => SearchesAgain(s, p); SleepCloser(s, p);
    case DropMutate => RemovalTells(s, p); DropMutateCloser(s, p);
    case Parked(_) =>
      if s' == DropStep(s, p) {
        DropCloser(s, p);
      } else {
        var w :| s' == PollStep(s, p, w);
        PollCloser(s, p, w);
      }
  }

  lemma SearchStepCloser(s: State, p: Pid, s': State)
    requires p < |s.procs| && ProcOk(s.procs[p]) && WillAct(s, p) && ProcStep(s, p, s')
    requires !AboutToAct(s.procs[p].pc) && !RegistryPc(s.procs[p].pc)
    ensures Closer(s, p, s')
  {
    match s.procs[p].pc
    case Search => SearchCloser(s, p);
    case SearchOthers(_) => SearchOthersCloser(s, p);
    case StealLen(_, _) => StealStartCloser(s, p);
    case StealRoom(_, _, _) => StealStartCloser(s, p);
    case StealPush(_, _, _, _) => StealStartCloser(s, p);
    case StealLoop(_, _, _) => StealLoopCloser(s, p);
    case DrainPop => DrainCloser(s, p);
    case DrainPush => DrainCloser(s, p);
    case WakeUp(_, _) => WakeUpCloser(s, p);
    case _ =>
  }

  /** Every step of its own brings a process that is bound to act closer to doing so. */
  lemma OwnStepCloser(s: State, p: Pid, s': State)
    requires Inv(s) && p < |s.procs| && WillAct(s, p) && ProcStep(s, p, s') && !AboutToAct(s.procs[p].pc)
    ensures Closer(s, p, s')
  {
    assert ProcOk(s.procs[p]);
    if RegistryPc(s.procs[p].pc) { RegistryStepCloser(s, p, s'); } else { SearchStepCloser(s, p, s'); }
  }

  // ---- Steps of others ----

  /** A step of `q` does not give back a waker that a notification has taken from somebody else. */
  ghost predicate LeavesNotified(s: State, s': State, q: Pid) {
    forall p: Pid :: p < |s.procs| && p != q && NotifiedSleeper(s, p) ==> p < |s'.procs| && NotifiedSleeper(s', p)
  }

  /** The others stay where they are, but for a parked one that is woken. */
  ghost predicate OthersStay(s: State, s': State, q: Pid) {
    && |s.procs| <= |s'.procs|
    && forall p: Pid :: p < |s.procs| && p != q ==>
         && s'.procs[p].id == s.procs[p].id
         && (s'.procs[p].pc == s.procs[p].pc || (s.procs[p].pc.Parked? && s'.procs[p].pc.Parked?))
  }

  lemma SameRegistry(s: State, s': State, q: Pid)
    requires OthersStay(s, s', q) && WakerIds(s'.registry.wakers) <= WakerIds(s.registry.wakers)
    ensures LeavesNotified(s, s', q)
  {}

  lemma OtherWakerAdded(s: State, s': State, q: Pid, id: nat)
    requires OthersStay(s, s', q) && WakerIds(s'.registry.wakers) == WakerIds(s.registry.wakers) + {id}
    requires forall p: Pid :: p < |s.procs| && p != q && s.procs[p].id != 0 ==> s.procs[p].id != id
    ensures LeavesNotified(s, s', q)
  {}

  lemma SleepLeavesNotified(s: State, q: Pid)
    requires InvIds(s) && q < |s.procs| && s.procs[q].pc.SleepMutate?
    ensures OthersStay(s, SleepMutateStep(s, q), q) && LeavesNotified(s, SleepMutateStep(s, q), q)
  {
    SleepChanges(s, q);
    if s.procs[q].id == 0 { InsertLeaves(s, q); } else { UpdateLeaves(s, q); }
  }

  lemma InsertLeaves(s: State, q: Pid)
    requires InvIds(s) && q < |s.procs| && s.procs[q].pc.SleepMutate? && s.procs[q].id == 0
    requires OthersStay(s, SleepMutateStep(s, q), q)
    ensures LeavesNotified(s, SleepMutateStep(s, q), q)
  {
    SleepInsertEffect(s, q);
    InsertKeeps(s.registry, LiveIds(s.procs), s.procs[q].waker);
    OtherWakerAdded(s, SleepMutateStep(s, q), q, Insert(s.registry, s.procs[q].waker).1);
  }

  lemma UpdateLeaves(s: State, q: Pid)
    requires InvIds(s) && q < |s.procs| && s.procs[q].pc.SleepMutate? && s.procs[q].id != 0
    requires OthersStay(s, SleepMutateStep(s, q), q)
    ensures LeavesNotified(s, SleepMutateStep(s, q), q)
  {
    SleepEffect(s, q);
    HeldIsLive(s.procs, q);
    UpdateKeeps(s.registry, LiveIds(s.procs), s.procs[q].id, s.procs[q].waker);
    OtherWakerAdded(s, SleepMutateStep(s, q), q, s.procs[q].id);
  }

  /** Leaving the registry takes one's own waker along and nobody else's. */
  lemma RemovalLeaves(s: State, q: Pid, s': State)
    requires InvIds(s) && q < |s.procs| && s.procs[q].id != 0 && OthersStay(s, s', q)
    requires s.registry.count > 0 && s'.registry == Remove(s.registry, s.procs[q].id).0
    ensures LeavesNotified(s, s', q)
  {
    HeldIsLive(s.procs, q);
    RemoveKeeps(s.registry, LiveIds(s.procs), s.procs[q].id);
    SameRegistry(s, s', q);
  }

  lemma PopLeaves(s: State, q: Pid)
    requires InvIds(s) && q < |s.procs| && s.procs[q].pc.PopSleeper?
    ensures OthersStay(s, PopSleeperStep(s, q), q) && LeavesNotified(s, PopSleeperStep(s, q), q)
  {
    var id := NotifyKeeps(s.registry, LiveIds(s.procs));
    var s' := PopSleeperStep(s, q);
    forall i | i in WakerIds(s'.registry.wakers) ensures i in WakerIds(s.registry.wakers) {
      PoppedIds(s.registry, i);
    }
    SameRegistry(s, s', q);
  }

  lemma PoppedIds(r: Registry, id: nat)
    requires id in WakerIds(Notify(r).0.wakers)
    ensures id in WakerIds(r.wakers)
  {
    var e :| e in Notify(r).0.wakers && e.0 == id;
    assert e in r.wakers;
  }

  predicate ChangesRegistry(pr: Proc) {
    pr.pc.SleepMutate? || pr.pc.DropMutate? || pr.pc.PopSleeper? || (pr.pc.Found? && pr.id != 0)
  }

  lemma RegistryStepLeaves(s: State, q: Pid, s': State)
    requires InvIds(s) && q < |s.procs| && ProcOk(s.procs[q]) && ProcStep(s, q, s') && ChangesRegistry(s.procs[q])
    ensures OthersStay(s, s', q) && LeavesNotified(s, s', q)
  {
    match s.procs[q].pc
    case SleepMutate => SleepLeavesNotified(s, q);
    case PopSleeper(_) => PopLeaves(s, q);
    case DropMutate => RemovalLeaves(s, q, s');
    case Found => RemovalLeaves(s, q, s');
  }

  lemma WakeUpLeaves(s: State, q: Pid)
    requires q < |s.procs| && s.procs[q].pc.WakeUp?
    ensures OthersStay(s, WakeUpStep(s, q), q) && LeavesNotified(s, WakeUpStep(s, q), q)
  {
    var s' := WakeUpStep(s, q);
    forall p: Pid | p < |s.procs| && p != q
      ensures s'.procs[p].id == s.procs[p].id
      ensures s'.procs[p].pc == s.procs[p].pc || (s.procs[p].pc.Parked? && s'.procs[p].pc.Parked?)
    {
      assert s'.procs[p] == Poke(s.procs[p], s.procs[q].pc.target);
    }
    SameRegistry(s, s', q);
  }

  lemma PlainLeaves(s: State, q: Pid, s': State)
    requires OthersKeepSync(s, s', q) && s'.registry == s.registry
    ensures OthersStay(s, s', q) && LeavesNotified(s, s', q)
  {
    SameRegistry(s, s', q);
  }

  lemma SyncStepLeaves(s: State, q: Pid, s': State)
    requires InvIds(s) && q < |s.procs| && ProcOk(s.procs[q]) && ProcStep(s, q, s') && SyncPc(s.procs[q].pc)
    ensures OthersStay(s, s', q) && LeavesNotified(s, s', q)
  {
    match s.procs[q].pc
    case Cas(_) => CasEffect(s, q); PlainLeaves(s, q, s');
    case WakeUp(_, _) => WakeUpLeaves(s, q);
    case WakeStore => StoreEffect(s, q, Executor.Cas(Deliver)); PlainLeaves(s, q, s');
    case SleepStore => StoreEffect(s, q, Executor.Search); PlainLeaves(s, q, s');
    case DropStore(b) => StoreEffect(s, q, if b then Executor.Cas(Return) else Executor.Gone); PlainLeaves(s, q, s');
    case _ => RegistryStepLeaves(s, q, s');
  }

  lemma StepLeaves(s: State, q: Pid, s': State)
    requires Inv(s) && q < |s.procs| && ProcStep(s, q, s')
    ensures OthersStay(s, s', q) && LeavesNotified(s, s', q)
  {
    assert ProcOk(s.procs[q]);
    var pc := s.procs[q].pc;
    if SyncPc(pc) {
      SyncStepLeaves(s, q, s');
    } else if pc.Found? && s.procs[q].id != 0 {
      RegistryStepLeaves(s, q, s');
    } else {
      if SearchPc(pc) { SearchStepKeeps(s, q, s'); } else { OtherStepKeeps(s, q, s'); }
      PlainLeaves(s, q, s');
    }
  }

  /** A process that is bound to act stays so, and no further from it, through the steps of others. */
  ghost predicate StaysClose(s: State, p: Pid, s': State) {
    p < |s.procs| && p < |s'.procs| && (WillAct(s, p) ==> WillAct(s', p) && Rank(s'.procs[p].pc) == Rank(s.procs[p].pc))
  }

  lemma StayersStayClose(s: State, p: Pid, s': State, q: Pid)
    requires p < |s.procs| && p != q && OthersStay(s, s', q) && LeavesNotified(s, s', q) && ProcOk(s.procs[p])
    ensures StaysClose(s, p, s')
  {}

  lemma OtherStepStaysClose(s: State, q: Pid, s': State, p: Pid)
    requires Inv(s) && p < |s.procs| && q < |s.procs| && q != p && ProcStep(s, q, s')
    ensures StaysClose(s, p, s')
  {
    StepLeaves(s, q, s');
    assert ProcOk(s.procs[p]);
    StayersStayClose(s, p, s', q);
  }

  lemma EnterStaysClose(s: State, s': State, p: Pid)
    requires p < |s.procs| && EnterStep(s, s')
    ensures StaysClose(s, p, s')
  {
    var pr := EnterEffect(s, s');
    assert s'.procs[p] == s.procs[p];
    SameSleeper(s, p, s');
  }

  // ---- Runs ----

  /** The step is one of process `who`, or a call that enters the executor. */
  ghost predicate StepBy(s: State, who: Option<Pid>, s': State) {
    match who
    case None => EnterStep(s, s')
    case Some(q) => q < |s.procs| && ProcStep(s, q, s')
  }

  ghost predicate RunBy(run: seq<State>, who: seq<Option<Pid>>) {
    |run| == |who| + 1 && forall k :: 0 <= k < |who| ==> StepBy(run[k], who[k], run[k + 1])
  }

  /** How many of the steps are steps of `p`. */
  function OwnSteps(who: seq<Option<Pid>>, p: Pid): nat {
    if who == [] then 0 else OwnSteps(who[..|who| - 1], p) + if who[|who| - 1] == Some(p) then 1 else 0
  }

  /** `p` has not acted yet in this run. */
  ghost predicate NotYet(run: seq<State>, who: seq<Option<Pid>>, p: Pid) {
    forall k :: 0 <= k < |who| && k < |run| && who[k] == Some(p) && p < |run[k].procs| ==>
      !AboutToAct(run[k].procs[p].pc)
  }

  /** If `p` is bound to act in `s`, it still is in `s'`, and a step of its own has used up one. */
  ghost predicate Bounds(s: State, own: bool, s': State, p: Pid) {
    p < |s.procs| && WillAct(s, p) ==>
      p < |s'.procs| && WillAct(s', p) && Rank(s'.procs[p].pc) + (if own then 1 else 0) <= Rank(s.procs[p].pc)
  }

  lemma StepBounds(s: State, who: Option<Pid>, s': State, p: Pid)
    requires Inv(s) && StepBy(s, who, s')
    requires who == Some(p) && p < |s.procs| ==> !AboutToAct(s.procs[p].pc)
    ensures Bounds(s, who == Some(p), s', p)
  {
    if p < |s.procs| && WillAct(s, p) {
      if who.None? {
        EnterStaysClose(s, s', p);
      } else if who == Some(p) {
        OwnStepCloser(s, p, s');
      } else {
        OtherStepStaysClose(s, who.value, s', p);
      }
    }
  }

  lemma StepByIsNext(s: State, who: Option<Pid>, s': State)
    requires StepBy(s, who, s')
    ensures Next(s, s')
  {}

  lemma {:induction false} PrefixIsRun(run: seq<State>, who: seq<Option<Pid>>, k: nat)
    requires RunBy(run, who) && k < |run|
    ensures IsRun(run[..k + 1])
  {
    if k > 0 {
      PrefixIsRun(run, who, k - 1);
      NextAt(run, who, k - 1);
      Extended(run[..k], run[k - 1], run[k]);
      assert run[..k + 1] == run[..k] + [run[k]];
    }
  }

  lemma NextAt(run: seq<State>, who: seq<Option<Pid>>, k: nat)
    requires RunBy(run, who) && k < |who|
    ensures Next(run[k], run[k + 1])
  {
    assert StepBy(run[k], who[k], run[k + 1]);
    StepByIsNext(run[k], who[k], run[k + 1]);
  }

  lemma Extended(run: seq<State>, s: State, s': State)
    requires IsRun(run) && run[|run| - 1] == s && Next(s, s')
    ensures IsRun(run + [s'])
  {
    assert (run + [s'])[..|run + [s']| - 1] == run;
  }

  lemma InvAt(run: seq<State>, who: seq<Option<Pid>>, k: nat)
    requires RunBy(run, who) && k < |run| && Inv(run[0])
    ensures Inv(run[k])
  {
    PrefixIsRun(run, who, k);
    RunKeepsInv(run[..k + 1]);
  }

  lemma {:induction false} BoundsAddUp(run: seq<State>, who: seq<Option<Pid>>, p: Pid)
    requires |run| == |who| + 1 && p < |run[0].procs| && WillAct(run[0], p)
    requires forall k :: 0 <= k < |who| ==> Bounds(run[k], who[k] == Some(p), run[k + 1], p)
    ensures var last := run[|run| - 1];
            && p < |last.procs| && WillAct(last, p)
            && OwnSteps(who, p) + Rank(last.procs[p].pc) <= Rank(run[0].procs[p].pc)
    decreases |who|
  {
    if who != [] {
      var n := |who| - 1;
      var (run0, who0) := (run[..n + 1], who[..n]);
      forall k | 0 <= k < |who0| ensures Bounds(run0[k], who0[k] == Some(p), run0[k + 1], p) {
        assert Bounds(run[k], who[k] == Some(p), run[k + 1], p);
      }
      BoundsAddUp(run0, who0, p);
      assert run0[|run0| - 1] == run[n];
      assert Bounds(run[n], who[n] == Some(p), run[n + 1], p);
    }
  }

  /** A process that is bound to act has taken at most `Rank` steps of its own when it searches the
      global queue or notifies, in whatever order all the others take their steps; until then it
      stays bound to act. */
  lemma ActsSoon(run: seq<State>, who: seq<Option<Pid>>, p: Pid)
    requires RunBy(run, who) && Inv(run[0]) && p < |run[0].procs| && WillAct(run[0], p) && NotYet(run, who, p)
    ensures var last := run[|run| - 1];
            && p < |last.procs| && WillAct(last, p)
            && OwnSteps(who, p) + Rank(last.procs[p].pc) <= Rank(run[0].procs[p].pc)
  {
    forall k | 0 <= k < |who| ensures Bounds(run[k], who[k] == Some(p), run[k + 1], p) { BoundsAt(run, who, p, k); }
    BoundsAddUp(run, who, p);
  }

  lemma BoundsAt(run: seq<State>, who: seq<Option<Pid>>, p: Pid, k: nat)
    requires RunBy(run, who) && Inv(run[0]) && NotYet(run, who, p) && k < |who|
    ensures Bounds(run[k], who[k] == Some(p), run[k + 1], p)
  {
    var (s, s') := (run[k], run[k + 1]);
    assert Inv(s) by { InvAt(run, who, k); }
    assert StepBy(s, who[k], s');
    StepBounds(s, who[k], s', p);
  }
}
