/** What every interleaving of the executor keeps: mutual exclusion, the partition of sleeper ids,
    the meaning of the `notified` flag, the whereabouts of wakers, the capacity of local queues and
    the progress guarantee from which the absence of lost wake-ups follows. */
module ExecutorInvariant {
  import opened Options
  import opened Sleepers
  import opened Executor

  // ---- What holds of one process on its own ----

  predicate HoldsLock(pc: Pc) {
    pc.SleepStore? || pc.WakeStore? || pc.DropStore?
  }

  predicate Stealing(pc: Pc) {
    pc.StealLen? || pc.StealRoom? || pc.StealLoop? || pc.StealPush?
  }

  predicate NotifyPc(pc: Pc) {
    pc.Cas? || pc.PopSleeper? || pc.WakeUp?
  }

  predicate MayHoldId(pc: Pc) {
    || pc.Search? || pc.SearchGlobal? || pc.SearchOthers? || pc.Found? || pc.SleepMutate? || pc.SleepStore?
    || pc.Parked? || pc.DrainPop? || pc.DrainPush? || pc.DropMutate?
    || (Stealing(pc) && !pc.why.OnTick?)
    || (NotifyPc(pc) && pc.after.Drain?)
  }

  predicate IdOk(pr: Proc) {
    && (pr.id != 0 ==> MayHoldId(pr.pc))
    && (pr.pc.Parked? || pr.pc.DropMutate? || pr.pc.SleepStore? ==> pr.id != 0)
  }

  predicate HandExpected(pc: Pc) {
    || pc.Push? || pc.Found? || pc.WakeStore? || pc.Tick? || pc.HasTask? || pc.DrainPush?
    || (Stealing(pc) && !pc.why.Scan?)
    || (NotifyPc(pc) && pc.after.Deliver?)
  }

  /** Only runners have local queues; they never exceed their capacity; the stealing loop has
      reserved room for what it still has to push; a runner that is past its own local queue in a
      search, or parked, or gone, has nothing left in it. */
  predicate LocalOk(pr: Proc) {
    && (!pr.runner ==> pr.local == [])
    && |pr.local| <= LOCAL_CAPACITY
    && (pr.pc.StealLoop? ==> |pr.local| + pr.pc.left <= LOCAL_CAPACITY)
    && (pr.pc.StealPush? ==> pr.pc.left > 0 && |pr.local| + pr.pc.left <= LOCAL_CAPACITY)
    && (LocalEmpty(pr.pc) ==> pr.local == [])
    && (Stealing(pr.pc) || Scanning(pr.pc) || pr.pc.Tick? ==> pr.runner)
    && (pr.pc.TryPop? ==> !pr.runner)
  }

  predicate LocalEmpty(pc: Pc) {
    || pc.Gone? || pc.SearchGlobal? || pc.SearchOthers? || pc.SleepMutate? || pc.SleepStore? || pc.Parked?
    || pc.DropMutate? || pc.DropStore? || pc.Push? || pc.TryPop?
    || ((pc.StealLen? || pc.StealRoom?) && !pc.why.OnTick?)
    || (NotifyPc(pc) && pc.after.Return?)
  }

  predicate ProcOk(pr: Proc) {
    && IdOk(pr)
    && (HandExpected(pr.pc) <==> pr.hand.Some?)
    && LocalOk(pr)
    && pr.ticks == pr.bumps % TICKS_MODULUS
  }

  // ---- What holds of the processes together ----

  ghost predicate InvProcs(s: State) {
    forall p :: 0 <= p < |s.procs| ==> ProcOk(s.procs[p])
  }

  ghost predicate InvLock(s: State) {
    && (s.lock.Some? ==> s.lock.value < |s.procs|)
    && forall p: Pid :: p < |s.procs| ==> (HoldsLock(s.procs[p].pc) <==> s.lock == Some(p))
  }

  ghost function LiveIds(procs: seq<Proc>): set<nat> {
    set p | 0 <= p < |procs| && procs[p].id != 0 :: procs[p].id
  }

  ghost predicate DistinctIds(procs: seq<Proc>) {
    forall p, q :: 0 <= p < q < |procs| && procs[p].id != 0 ==> procs[p].id != procs[q].id
  }

  ghost predicate InvIds(s: State) {
    DistinctIds(s.procs) && WellFormed(s.registry, LiveIds(s.procs))
  }

  /** A registered ticker whose waker has been taken by a notification. */
  predicate NotifiedSleeper(s: State, p: Pid)
    requires p < |s.procs|
  {
    s.procs[p].id != 0 && s.procs[p].id !in WakerIds(s.registry.wakers)
  }

  predicate Justifies(s: State, p: Pid)
    requires p < |s.procs|
  {
    var pc := s.procs[p].pc;
    || NotifiedSleeper(s, p)
    || pc.PopSleeper? || pc.SleepStore? || pc.WakeStore? || pc == DropStore(true)
  }

  /** A raised flag means: nobody sleeps, a sleeper has been notified, a notifier is between its
      compare-and-swap and its pop, or a ticker is between its registry update and its store. */
  ghost predicate InvFlag(s: State) {
    s.notified ==> s.registry.count == 0 || exists p: Pid :: p < |s.procs| && Justifies(s, p)
  }

  /** `p` is bound to search the global queue again, or to notify. */
  predicate WillAct(s: State, p: Pid)
    requires p < |s.procs|
  {
    var pr := s.procs[p];
    var pc := pr.pc;
    || NotifiedSleeper(s, p)
    || pc.Cas? || pc.PopSleeper?
    || pc.Search? || pc.SearchGlobal? || pc.SleepStore?
    || pc.Found? || pc.WakeStore? || pc == DropStore(true)
    || (Stealing(pc) && pc.why.AfterPop?)
    || (pr.id == 0 && (Scanning(pc) || pc.SleepMutate?))
  }

  ghost predicate InvProgress(s: State) {
    s.global == [] || s.registry.count == 0 || exists p: Pid :: p < |s.procs| && WillAct(s, p)
  }

  predicate BeingWoken(s: State, w: Waker) {
    exists q: Pid :: q < |s.procs| && s.procs[q].pc.WakeUp? && s.procs[q].pc.target == w
  }

  /** A parked ticker is listed with the waker of its latest poll; or it has been notified, and
      that waker has been woken since, or is about to be. */
  ghost predicate ParkedOk(s: State, p: Pid)
    requires p < |s.procs|
  {
    var pr := s.procs[p];
    pr.pc.Parked? ==>
      && pr.id != 0
      && (|| (pr.id, pr.waker) in s.registry.wakers
          || (NotifiedSleeper(s, p) && (pr.pc.poked || BeingWoken(s, pr.waker))))
  }

  ghost predicate InvParked(s: State) {
    forall p: Pid :: p < |s.procs| ==> ParkedOk(s, p)
  }

  ghost predicate InvSync(s: State) {
    InvLock(s) && InvIds(s) && InvFlag(s) && InvParked(s) && InvProgress(s)
  }

  // ---- Ids under an update of one process ----

  lemma SameIds(a: seq<Proc>, b: seq<Proc>)
    requires |a| == |b| && forall i :: 0 <= i < |a| ==> a[i].id == b[i].id
    ensures LiveIds(a) == LiveIds(b)
    ensures DistinctIds(a) ==> DistinctIds(b)
  {}

  lemma GainId(a: seq<Proc>, p: Pid, pr: Proc)
    requires p < |a| && DistinctIds(a) && a[p].id == 0
    requires pr.id != 0 && pr.id !in LiveIds(a)
    ensures DistinctIds(a[p := pr]) && LiveIds(a[p := pr]) == LiveIds(a) + {pr.id}
  {
    var b := a[p := pr];
    forall id
      ensures id in LiveIds(b) <==> id in LiveIds(a) || id == pr.id
    {
      if id in LiveIds(a) {
        var i :| 0 <= i < |a| && a[i].id != 0 && a[i].id == id;
        assert b[i].id == id;
      }
      if id == pr.id { assert b[p].id == id; }
    }
    forall i | 0 <= i < |a| && a[i].id != 0
      ensures a[i].id != pr.id
    {
      assert a[i].id in LiveIds(a);
    }
  }

  lemma LoseId(a: seq<Proc>, p: Pid, pr: Proc)
    requires p < |a| && DistinctIds(a) && a[p].id != 0 && pr.id == 0
    ensures DistinctIds(a[p := pr]) && LiveIds(a[p := pr]) == LiveIds(a) - {a[p].id}
    ensures a[p].id in LiveIds(a)
  {
    var b := a[p := pr];
    forall id
      ensures id in LiveIds(b) <==> id in LiveIds(a) && id != a[p].id
    {
      if id in LiveIds(b) {
        var i :| 0 <= i < |b| && b[i].id != 0 && b[i].id == id;
        assert a[i].id == id && i != p;
      }
      if id in LiveIds(a) && id != a[p].id {
        var i :| 0 <= i < |a| && a[i].id != 0 && a[i].id == id;
        assert b[i].id == id;
      }
    }
  }

  lemma HolderOf(procs: seq<Proc>, id: nat) returns (p: Pid)
    requires id in LiveIds(procs)
    ensures p < |procs| && procs[p].id == id && id != 0
  {
    p :| 0 <= p < |procs| && procs[p].id != 0 && procs[p].id == id;
  }

  lemma HeldIsLive(procs: seq<Proc>, p: Pid)
    requires p < |procs| && procs[p].id != 0
    ensures procs[p].id in LiveIds(procs)
  {}

  /** When the registry says so, some process is a notified sleeper. */
  lemma NotifiedSleeperExists(s: State)
    requires InvIds(s) && IsNotified(s.registry) && s.registry.count != 0
    ensures exists p: Pid :: p < |s.procs| && NotifiedSleeper(s, p)
  {
    NotifiedMeansMissingWaker(s.registry, LiveIds(s.procs));
    var id :| id in LiveIds(s.procs) && id !in WakerIds(s.registry.wakers);
    var p := HolderOf(s.procs, id);
    assert NotifiedSleeper(s, p);
  }
}
