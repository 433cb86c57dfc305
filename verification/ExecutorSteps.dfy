/** Every step of the executor keeps its invariant. */
module ExecutorSteps {
  import opened Options
  import opened Sleepers
  import opened Executor
  import opened ExecutorInvariant

  // ---- Steps that leave the registry, the flag and the lock alone ----

  ghost predicate OthersKeepSync(s: State, s': State, p: Pid) {
    && |s'.procs| == |s.procs|
    && forall q :: 0 <= q < |s.procs| && q != p ==>
         && s'.procs[q].pc == s.procs[q].pc
         && s'.procs[q].id == s.procs[q].id
         && s'.procs[q].waker == s.procs[q].waker
  }

  /** The part of a step of `p` that the synchronisation between processes can see: `p` changes
      its program counter only, between points that hold no lock and are not parked. */
  ghost predicate QueueStep(s: State, p: Pid, s': State) {
    && p < |s.procs|
    && OthersKeepSync(s, s', p)
    && s'.registry == s.registry && s'.notified == s.notified && s'.lock == s.lock
    && s'.procs[p].id == s.procs[p].id
    && !HoldsLock(s.procs[p].pc) && !HoldsLock(s'.procs[p].pc)
    && !s.procs[p].pc.PopSleeper? && !s.procs[p].pc.WakeUp? && !s'.procs[p].pc.Parked?
    && (s'.global != [] && WillAct(s, p) ==> WillAct(s', p))
    && (s'.global != [] ==> s.global != [] || WillAct(s', p))
  }

  lemma QueueStepKeepsFlag(s: State, p: Pid, s': State)
    requires InvFlag(s) && QueueStep(s, p, s')
    ensures InvFlag(s')
  {
    if s.notified && s.registry.count != 0 {
      var q: Pid :| q < |s.procs| && Justifies(s, q);
      assert Justifies(s', q);
    }
  }

  lemma QueueStepKeepsProgress(s: State, p: Pid, s': State)
    requires InvProgress(s) && QueueStep(s, p, s')
    ensures InvProgress(s')
  {
    if s'.global != [] && s.registry.count != 0 {
      if s.global != [] {
        var q: Pid :| q < |s.procs| && WillAct(s, q);
        assert WillAct(s', q);
      } else {
        assert WillAct(s', p);
      }
    }
  }

  lemma QueueStepKeepsParked(s: State, p: Pid, s': State)
    requires InvParked(s) && QueueStep(s, p, s')
    ensures InvParked(s')
  {
    forall q: Pid | q < |s'.procs|
      ensures ParkedOk(s', q)
    {
      assert ParkedOk(s, q);
      var w := s.procs[q].waker;
      if s'.procs[q].pc.Parked? && BeingWoken(s, w) {
        var k: Pid :| k < |s.procs| && s.procs[k].pc.WakeUp? && s.procs[k].pc.target == w;
        assert s'.procs[k].pc == s.procs[k].pc;
      }
    }
  }

  lemma QueueStepKeepsSync(s: State, p: Pid, s': State)
    requires InvSync(s) && QueueStep(s, p, s')
    ensures InvSync(s')
  {
    QueueStepKeepsFlag(s, p, s');
    QueueStepKeepsProgress(s, p, s');
    QueueStepKeepsParked(s, p, s');
    SameIds(s.procs, s'.procs);
  }

  /** One process, or the running process and the victim it steals from, stay sound. */
  lemma ProcsStayOk(s: State, p: Pid, s': State)
    requires InvProcs(s) && p < |s.procs| && |s'.procs| == |s.procs|
    requires ProcOk(s'.procs[p])
    requires forall q :: 0 <= q < |s.procs| && q != p ==> s'.procs[q] == s.procs[q]
    ensures InvProcs(s')
  {}

  lemma PushOk(s: State, p: Pid, after: After)
    requires InvProcs(s) && p < |s.procs| && s.procs[p].hand.Some?
    requires (s.procs[p].pc.Push? && after.Return?) || (s.procs[p].pc.DrainPush? && after.Drain?)
    ensures QueueStep(s, p, PushStep(s, p, after)) && InvProcs(PushStep(s, p, after))
  {
    assert ProcOk(s.procs[p]);
    ProcsStayOk(s, p, PushStep(s, p, after));
  }

  lemma PollOk(s: State, p: Pid, w: Waker)
    requires InvProcs(s) && p < |s.procs| && (s.procs[p].pc.Resting? || s.procs[p].pc.Parked?)
    ensures QueueStep(s, p, PollStep(s, p, w)) && InvProcs(PollStep(s, p, w))
  {
    assert ProcOk(s.procs[p]);
    ProcsStayOk(s, p, PollStep(s, p, w));
  }

  lemma DropOk(s: State, p: Pid)
    requires InvProcs(s) && p < |s.procs| && (s.procs[p].pc.Resting? || s.procs[p].pc.Parked?)
    ensures QueueStep(s, p, DropStep(s, p)) && InvProcs(DropStep(s, p))
  {
    assert ProcOk(s.procs[p]);
    ProcsStayOk(s, p, DropStep(s, p));
  }

  lemma SearchOk(s: State, p: Pid)
    requires InvProcs(s) && p < |s.procs| && s.procs[p].pc.Search?
    ensures QueueStep(s, p, SearchStep(s, p)) && InvProcs(SearchStep(s, p))
  {
    assert ProcOk(s.procs[p]);
    ProcsStayOk(s, p, SearchStep(s, p));
  }

  lemma SearchGlobalOk(s: State, p: Pid, others: seq<Pid>)
    requires InvProcs(s) && p < |s.procs| && s.procs[p].pc.SearchGlobal?
    ensures QueueStep(s, p, SearchGlobalStep(s, p, others)) && InvProcs(SearchGlobalStep(s, p, others))
  {
    assert ProcOk(s.procs[p]);
    ProcsStayOk(s, p, SearchGlobalStep(s, p, others));
  }

  lemma SearchOthersOk(s: State, p: Pid)
    requires InvProcs(s) && p < |s.procs| && s.procs[p].pc.SearchOthers?
    ensures QueueStep(s, p, SearchOthersStep(s, p)) && InvProcs(SearchOthersStep(s, p))
  {
    assert ProcOk(s.procs[p]);
    ProcsStayOk(s, p, SearchOthersStep(s, p));
  }

  lemma TryPopOk(s: State, p: Pid)
    requires InvProcs(s) && p < |s.procs| && s.procs[p].pc.TryPop?
    ensures QueueStep(s, p, TryPopStep(s, p)) && InvProcs(TryPopStep(s, p))
  {
    assert ProcOk(s.procs[p]);
    ProcsStayOk(s, p, TryPopStep(s, p));
  }

  lemma StealLenOk(s: State, p: Pid)
    requires InvProcs(s) && p < |s.procs| && s.procs[p].pc.StealLen?
    ensures QueueStep(s, p, StealLenStep(s, p)) && InvProcs(StealLenStep(s, p))
  {
    assert ProcOk(s.procs[p]);
    ProcsStayOk(s, p, StealLenStep(s, p));
  }

  lemma StealRoomOk(s: State, p: Pid)
    requires InvProcs(s) && p < |s.procs| && s.procs[p].pc.StealRoom? && |s.procs[p].local| <= LOCAL_CAPACITY
    ensures QueueStep(s, p, StealRoomStep(s, p)) && InvProcs(StealRoomStep(s, p))
  {
    assert ProcOk(s.procs[p]);
    ProcsStayOk(s, p, StealRoomStep(s, p));
  }

  lemma StealPushOk(s: State, p: Pid)
    requires InvProcs(s) && p < |s.procs| && s.procs[p].pc.StealPush? && s.procs[p].pc.left > 0
    ensures QueueStep(s, p, StealPushStep(s, p)) && InvProcs(StealPushStep(s, p))
  {
    assert ProcOk(s.procs[p]);
    ProcsStayOk(s, p, StealPushStep(s, p));
  }

  lemma AfterStealOk(s: State, p: Pid)
    requires InvProcs(s) && p < |s.procs| && s.procs[p].pc.StealLoop?
    ensures QueueStep(s, p, AfterSteal(s, p, s.procs[p].pc.why)) && InvProcs(AfterSteal(s, p, s.procs[p].pc.why))
  {
    assert ProcOk(s.procs[p]);
    ProcsStayOk(s, p, AfterSteal(s, p, s.procs[p].pc.why));
  }

  lemma StealGlobalOk(s: State, p: Pid)
    requires InvProcs(s) && p < |s.procs| && s.procs[p].pc.StealLoop? && s.procs[p].pc.src.Global?
    requires s.procs[p].pc.left > 0 && s.global != []
    ensures QueueStep(s, p, StealLoopStep(s, p)) && InvProcs(StealLoopStep(s, p))
  {
    assert ProcOk(s.procs[p]);
    ProcsStayOk(s, p, StealLoopStep(s, p));
  }

  lemma StealVictimOk(s: State, p: Pid)
    requires InvProcs(s) && p < |s.procs| && s.procs[p].pc.StealLoop? && s.procs[p].pc.src.Victim?
    requires s.procs[p].pc.left > 0 && SourceLen(s, s.procs[p].pc.src) > 0
    ensures QueueStep(s, p, StealLoopStep(s, p)) && InvProcs(StealLoopStep(s, p))
  {
    var v := s.procs[p].pc.src.v;
    assert ProcOk(s.procs[p]) && ProcOk(s.procs[v]);
    var s1 := With(s, v, s.procs[v].(local := s.procs[v].local[1..]));
    assert InvProcs(s1);
    ProcsStayOk(s1, p, StealLoopStep(s, p));
  }

  lemma FoundOk(s: State, p: Pid)
    requires InvProcs(s) && p < |s.procs| && s.procs[p].pc.Found? && s.procs[p].id == 0
    ensures QueueStep(s, p, FoundStep(s, p)) && InvProcs(FoundStep(s, p))
  {
    assert ProcOk(s.procs[p]);
    ProcsStayOk(s, p, FoundStep(s, p));
  }

  lemma TickOk(s: State, p: Pid)
    requires InvProcs(s) && p < |s.procs| && s.procs[p].pc.Tick?
    ensures QueueStep(s, p, TickStep(s, p)) && InvProcs(TickStep(s, p))
  {
    assert ProcOk(s.procs[p]);
    TickRecordOk(s.procs[p], TickStep(s, p).procs[p]);
    ProcsStayOk(s, p, TickStep(s, p));
  }

  lemma TickRecordOk(pr: Proc, pr': Proc)
    requires ProcOk(pr) && pr.pc.Tick? && (pr'.pc == StealLen(Global, OnTick) || pr'.pc == HasTask)
    requires pr' == pr.(pc := pr'.pc, ticks := (pr.ticks + 1) % TICKS_MODULUS, bumps := pr.bumps + 1)
    ensures ProcOk(pr')
  {
    NextTick(pr.bumps);
  }

  lemma NextTick(bumps: nat)
    ensures (bumps % TICKS_MODULUS + 1) % TICKS_MODULUS == (bumps + 1) % TICKS_MODULUS
  {}

  lemma RunTaskOk(s: State, p: Pid)
    requires InvProcs(s) && p < |s.procs| && s.procs[p].pc.HasTask? && s.procs[p].hand.Some?
    ensures QueueStep(s, p, RunTaskStep(s, p)) && InvProcs(RunTaskStep(s, p))
  {
    assert ProcOk(s.procs[p]);
    ProcsStayOk(s, p, RunTaskStep(s, p));
  }

  lemma DrainPopOk(s: State, p: Pid)
    requires InvProcs(s) && p < |s.procs| && s.procs[p].pc.DrainPop?
    ensures QueueStep(s, p, DrainPopStep(s, p)) && InvProcs(DrainPopStep(s, p))
  {
    assert ProcOk(s.procs[p]);
    ProcsStayOk(s, p, DrainPopStep(s, p));
  }

  // ---- Steps on the flag, the registry and the lock ----

  lemma OnlyMoves(s: State, p: Pid, pr: Proc, s': State)
    requires p < |s.procs| && s'.procs == s.procs[p := pr]
    ensures OthersKeepSync(s, s', p) && s'.procs[p] == pr
  {}

  lemma KeepsLock(s: State, p: Pid, s': State)
    requires InvLock(s) && p < |s.procs| && OthersKeepSync(s, s', p)
    requires HoldsLock(s'.procs[p].pc) <==> s'.lock == Some(p)
    requires s'.lock == s.lock || (s.lock in {None, Some(p)} && s'.lock in {None, Some(p)})
    ensures InvLock(s')
  {}

  lemma KeepsIds(s: State, p: Pid, s': State)
    requires InvIds(s) && p < |s.procs| && OthersKeepSync(s, s', p)
    requires s'.registry == s.registry && s'.procs[p].id == s.procs[p].id
    ensures InvIds(s')
  {
    SameIds(s.procs, s'.procs);
  }

  lemma StillBeingWoken(s: State, p: Pid, s': State, w: Waker)
    requires p < |s.procs| && OthersKeepSync(s, s', p) && !s.procs[p].pc.WakeUp?
    requires BeingWoken(s, w)
    ensures BeingWoken(s', w)
  {
    var k: Pid :| k < |s.procs| && s.procs[k].pc.WakeUp? && s.procs[k].pc.target == w;
    assert s'.procs[k].pc == s.procs[k].pc;
  }

  /** A parked ticker other than `p` only cares about its own entry. */
  lemma StillParked(s: State, p: Pid, s': State, q: Pid)
    requires p < |s.procs| && q < |s.procs| && q != p && OthersKeepSync(s, s', p) && ParkedOk(s, q)
    requires !s.procs[p].pc.WakeUp?
    requires s.procs[q].pc.Parked? ==>
               var (id, w) := (s.procs[q].id, s.procs[q].waker);
               && ((id, w) in s.registry.wakers ==> (id, w) in s'.registry.wakers)
               && (id in WakerIds(s'.registry.wakers) ==> id in WakerIds(s.registry.wakers))
    ensures ParkedOk(s', q)
  {
    if s.procs[q].pc.Parked? && BeingWoken(s, s.procs[q].waker) {
      StillBeingWoken(s, p, s', s.procs[q].waker);
    }
  }

  /** Parked tickers are unaffected by a step that leaves the registry alone. */
  lemma KeepsParked(s: State, p: Pid, s': State)
    requires InvParked(s) && p < |s.procs| && OthersKeepSync(s, s', p)
    requires s'.registry == s.registry
    requires !s.procs[p].pc.WakeUp? && !s'.procs[p].pc.Parked?
    ensures InvParked(s')
  {
    forall q: Pid | q < |s'.procs|
      ensures ParkedOk(s', q)
    {
      assert ParkedOk(s, q);
      if q != p { StillParked(s, p, s', q); }
    }
  }

  lemma FlagBy(s: State, q: Pid)
    requires q < |s.procs| && Justifies(s, q)
    ensures InvFlag(s) && InvProgress(s)
  {
    assert WillAct(s, q);
  }

  // ---- notify() ----

  lemma CasFlag(s: State, p: Pid)
    requires InvFlag(s) && p < |s.procs| && s.procs[p].pc.Cas?
    ensures InvFlag(CasStep(s, p)) && InvProgress(CasStep(s, p))
  {
    var s' := CasStep(s, p);
    if !s.notified {
      FlagBy(s', p);
    } else if s.registry.count != 0 {
      var q: Pid :| q < |s.procs| && Justifies(s, q);
      FlagBy(s', q);
    }
  }

  lemma CasEffect(s: State, p: Pid)
    requires p < |s.procs| && s.procs[p].pc.Cas?
    ensures var s' := CasStep(s, p);
            && OthersKeepSync(s, s', p)
            && s'.registry == s.registry && s'.lock == s.lock
            && s'.procs[p].id == s.procs[p].id
            && !HoldsLock(s'.procs[p].pc) && !s'.procs[p].pc.Parked?
  {}

  lemma CasProcs(s: State, p: Pid)
    requires InvProcs(s) && p < |s.procs| && s.procs[p].pc.Cas?
    ensures InvProcs(CasStep(s, p))
  {
    assert ProcOk(s.procs[p]);
    ProcsStayOk(s, p, CasStep(s, p));
  }

  lemma CasSync(s: State, p: Pid)
    requires InvSync(s) && p < |s.procs| && s.procs[p].pc.Cas?
    ensures InvSync(CasStep(s, p))
  {
    var s' := CasStep(s, p);
    CasEffect(s, p);
    KeepsLock(s, p, s');
    KeepsIds(s, p, s');
    KeepsParked(s, p, s');
    CasFlag(s, p);
  }

  lemma SameWaker(wakers: seq<Entry>, id: nat, v: Waker, w: Waker)
    requires forall i, j :: 0 <= i < j < |wakers| ==> wakers[i].0 != wakers[j].0
    requires (id, v) in wakers && (id, w) in wakers
    ensures v == w
  {}

  lemma PopSleeperProcs(s: State, p: Pid)
    requires InvProcs(s) && p < |s.procs| && s.procs[p].pc.PopSleeper?
    ensures InvProcs(PopSleeperStep(s, p))
  {
    assert ProcOk(s.procs[p]);
    ProcsStayOk(s, p, PopSleeperStep(s, p));
  }

  lemma PopSleeperIds(s: State, p: Pid)
    requires InvIds(s) && InvParked(s) && p < |s.procs| && s.procs[p].pc.PopSleeper?
    ensures InvIds(PopSleeperStep(s, p)) && InvParked(PopSleeperStep(s, p)) && IsNotified(PopSleeperStep(s, p).registry)
  {
    PopSleeperOnlyIds(s, p);
    PopSleeperOnlyParked(s, p);
  }

  lemma PopSleeperOnlyIds(s: State, p: Pid)
    requires InvIds(s) && p < |s.procs| && s.procs[p].pc.PopSleeper?
    ensures InvIds(PopSleeperStep(s, p)) && IsNotified(PopSleeperStep(s, p).registry)
  {
    SameIds(s.procs, PopSleeperStep(s, p).procs);
    var _ := NotifyKeeps(s.registry, LiveIds(s.procs));
  }

  lemma PopSleeperOnlyParked(s: State, p: Pid)
    requires InvIds(s) && InvParked(s) && p < |s.procs| && s.procs[p].pc.PopSleeper?
    ensures InvParked(PopSleeperStep(s, p))
  {
    var id := NotifyKeeps(s.registry, LiveIds(s.procs));
    PopKeepsParked(s, p, PopSleeperStep(s, p), id, Notify(s.registry).1);
  }

  /** The ticker whose entry has been popped is about to be woken; the others keep theirs. */
  lemma PopKeepsParked(s: State, p: Pid, s': State, id: nat, w: Option<Waker>)
    requires InvParked(s) && p < |s.procs| && s.procs[p].pc.PopSleeper? && OthersKeepSync(s, s', p)
    requires !s'.procs[p].pc.Parked?
    requires forall i, j :: 0 <= i < j < |s.registry.wakers| ==> s.registry.wakers[i].0 != s.registry.wakers[j].0
    requires w.None? ==> s'.registry == s.registry
    requires w.Some? ==>
               s'.procs[p].pc.WakeUp? && s'.procs[p].pc.target == w.value && (id, w.value) in s.registry.wakers
    requires w.Some? ==> forall e: Entry :: e in s'.registry.wakers <==> e in s.registry.wakers && e.0 != id
    ensures InvParked(s')
  {
    forall q: Pid | q < |s'.procs|
      ensures ParkedOk(s', q)
    {
      assert ParkedOk(s, q);
      if q != p && s.procs[q].pc.Parked? {
        if w.Some? && s.procs[q].id == id && (id, s.procs[q].waker) in s.registry.wakers {
          SameWaker(s.registry.wakers, id, s.procs[q].waker, w.value);
          AboutToBeWoken(s', p, q);
        } else {
          StillParked(s, p, s', q);
        }
      }
    }
  }

  lemma AboutToBeWoken(s: State, p: Pid, q: Pid)
    requires p < |s.procs| && q < |s.procs| && s.procs[p].pc.WakeUp? && s.procs[p].pc.target == s.procs[q].waker
    requires NotifiedSleeper(s, q)
    ensures ParkedOk(s, q)
  {
    assert BeingWoken(s, s.procs[q].waker);
  }

  lemma PopSleeperSync(s: State, p: Pid)
    requires InvSync(s) && p < |s.procs| && s.procs[p].pc.PopSleeper? && s.lock.None?
    ensures InvSync(PopSleeperStep(s, p))
  {
    var s' := PopSleeperStep(s, p);
    KeepsLock(s, p, s');
    PopSleeperIds(s, p);
    if s'.registry.count != 0 {
      NotifiedSleeperExists(s');
      var q: Pid :| q < |s'.procs| && NotifiedSleeper(s', q);
      FlagBy(s', q);
    }
  }

  lemma WakeUpProcs(s: State, p: Pid)
    requires InvProcs(s) && p < |s.procs| && s.procs[p].pc.WakeUp?
    ensures InvProcs(WakeUpStep(s, p))
  {
    forall q: Pid | q < |s.procs|
      ensures ProcOk(WakeUpStep(s, p).procs[q])
    {
      assert ProcOk(s.procs[q]);
    }
  }

  lemma WakeUpEffect(s: State, p: Pid, q: Pid)
    requires p < |s.procs| && q < |s.procs| && s.procs[p].pc.WakeUp?
    ensures var pr, pr' := s.procs[q], WakeUpStep(s, p).procs[q];
            && pr'.id == pr.id && pr'.waker == pr.waker
            && (q != p ==> pr'.pc == pr.pc || (pr.pc.Parked? && pr'.pc == Parked(true)))
            && (q == p ==> !HoldsLock(pr'.pc))
  {}

  lemma WakeUpFlag(s: State, p: Pid)
    requires InvFlag(s) && InvProgress(s) && p < |s.procs| && s.procs[p].pc.WakeUp?
    ensures InvFlag(WakeUpStep(s, p)) && InvProgress(WakeUpStep(s, p))
  {
    var s' := WakeUpStep(s, p);
    if s.registry.count != 0 && s.notified {
      var q: Pid :| q < |s.procs| && Justifies(s, q);
      WakeUpEffect(s, p, q);
      FlagBy(s', q);
    } else if s.registry.count != 0 && s.global != [] {
      var q: Pid :| q < |s.procs| && WillAct(s, q);
      WakeUpEffect(s, p, q);
      assert WillAct(s', q);
    }
  }

  lemma WakeUpSync(s: State, p: Pid)
    requires InvSync(s) && p < |s.procs| && s.procs[p].pc.WakeUp?
    ensures InvSync(WakeUpStep(s, p))
  {
    var s' := WakeUpStep(s, p);
    forall q: Pid | q < |s.procs|
      ensures s'.procs[q].id == s.procs[q].id
      ensures HoldsLock(s'.procs[q].pc) <==> HoldsLock(s.procs[q].pc)
    {
      WakeUpEffect(s, p, q);
    }
    SameIds(s.procs, s'.procs);
    WakeUpFlag(s, p);
    WakeUpParked(s, p);
  }

  lemma WakeUpParked(s: State, p: Pid)
    requires InvParked(s) && p < |s.procs| && s.procs[p].pc.WakeUp?
    ensures InvParked(WakeUpStep(s, p))
  {
    var s' := WakeUpStep(s, p);
    forall q: Pid | q < |s'.procs|
      ensures ParkedOk(s', q)
    {
      assert ParkedOk(s, q);
      var v := s.procs[q].waker;
      if s'.procs[q].pc.Parked? && v != s.procs[p].pc.target && BeingWoken(s, v) {
        var k: Pid :| k < |s.procs| && s.procs[k].pc.WakeUp? && s.procs[k].pc.target == v;
        assert s'.procs[k].pc == s.procs[k].pc;
      }
    }
  }

  // ---- The critical sections ----

  lemma StoreFlag(s: State, p: Pid, pc: Pc)
    requires InvIds(s) && InvProgress(s) && p < |s.procs|
    requires WillAct(s, p) ==> WillAct(At(s, p, pc), p)
    ensures InvFlag(StoreStep(s, p, pc)) && InvProgress(StoreStep(s, p, pc))
  {
    var s' := StoreStep(s, p, pc);
    if s.global != [] && s.registry.count != 0 {
      var q: Pid :| q < |s.procs| && WillAct(s, q);
      assert WillAct(s', q);
    }
    if s'.notified && s.registry.count != 0 {
      NotifiedSleeperExists(s);
      var q: Pid :| q < |s.procs| && NotifiedSleeper(s, q);
      assert NotifiedSleeper(s', q);
      FlagBy(s', q);
    }
  }

  ghost predicate EndsSection(pc: Pc, next: Pc) {
    || (pc.SleepStore? && next.Search?)
    || (pc.WakeStore? && next == Cas(Deliver))
    || (pc.DropStore? && next == if pc.wasNotified then Cas(Return) else Gone)
  }

  lemma StoreEffect(s: State, p: Pid, pc: Pc)
    requires p < |s.procs| && EndsSection(s.procs[p].pc, pc)
    ensures var s' := StoreStep(s, p, pc);
            && OthersKeepSync(s, s', p)
            && s'.registry == s.registry && s'.lock == None
            && s'.procs[p].id == s.procs[p].id
            && !HoldsLock(s'.procs[p].pc) && !s'.procs[p].pc.Parked?
    ensures WillAct(s, p) && IdOk(s.procs[p]) ==> WillAct(At(s, p, pc), p)
  {}

  lemma HolderHasLock(s: State, p: Pid)
    requires InvLock(s) && p < |s.procs| && HoldsLock(s.procs[p].pc)
    ensures s.lock == Some(p)
  {}

  lemma StoreProcs(s: State, p: Pid, pc: Pc)
    requires InvProcs(s) && p < |s.procs| && EndsSection(s.procs[p].pc, pc)
    ensures InvProcs(StoreStep(s, p, pc))
  {
    assert ProcOk(s.procs[p]);
    ProcsStayOk(s, p, StoreStep(s, p, pc));
  }

  /** Storing the recomputed flag ends a critical section. */
  lemma StoreSync(s: State, p: Pid, pc: Pc)
    requires InvSync(s) && p < |s.procs| && IdOk(s.procs[p]) && EndsSection(s.procs[p].pc, pc)
    ensures InvSync(StoreStep(s, p, pc))
  {
    var s' := StoreStep(s, p, pc);
    StoreEffect(s, p, pc);
    HolderHasLock(s, p);
    KeepsLock(s, p, s');
    KeepsIds(s, p, s');
    KeepsParked(s, p, s');
    StoreFlag(s, p, pc);
  }

  /** A critical section that `p` has just entered justifies the flag and is bound to act. */
  lemma EnteredSection(s: State, p: Pid, s': State)
    requires InvLock(s) && s.lock.None? && p < |s.procs| && OthersKeepSync(s, s', p)
    requires s'.lock == Some(p) && HoldsLock(s'.procs[p].pc) && s'.procs[p].pc != DropStore(false)
    ensures InvLock(s') && InvFlag(s') && InvProgress(s')
  {
    KeepsLock(s, p, s');
    FlagBy(s', p);
  }

  lemma SleepEffect(s: State, p: Pid)
    requires p < |s.procs| && s.procs[p].pc.SleepMutate?
    ensures var s' := SleepMutateStep(s, p);
            && OthersKeepSync(s, s', p)
            && s'.notified == s.notified && s'.global == s.global
            && (s'.procs[p].pc.SleepStore? ==> s'.lock == Some(p))
            && (!s'.procs[p].pc.SleepStore? ==> s'.lock == s.lock && s'.procs[p].pc == Parked(false))
            && (s.procs[p].id != 0 ==>
                  && s'.procs[p].id == s.procs[p].id && s'.procs[p].waker == s.procs[p].waker
                  && s'.registry == Update(s.registry, s.procs[p].id, s.procs[p].waker).0
                  && (s'.procs[p].pc.SleepStore? <==> Update(s.registry, s.procs[p].id, s.procs[p].waker).1))
            && (s.procs[p].id == 0 ==> s'.procs[p].pc.SleepStore?)
  {}

  lemma SleepInsertEffect(s: State, p: Pid)
    requires p < |s.procs| && s.procs[p].id == 0
    ensures var (r, id) := Insert(s.registry, s.procs[p].waker);
            SleepMutateStep(s, p)
            == s.(procs := s.procs[p := s.procs[p].(pc := SleepStore, id := id)], registry := r, lock := Some(p))
  {}

  /** Parked tickers keep their entries when another one registers. */
  lemma InsertKeepsParked(s: State, p: Pid, s': State, id: nat)
    requires InvParked(s) && p < |s.procs| && s.procs[p].pc.SleepMutate? && OthersKeepSync(s, s', p)
    requires s'.procs[p].pc == SleepStore && id !in LiveIds(s.procs)
    requires s'.registry.wakers == s.registry.wakers + [(id, s.procs[p].waker)]
    requires WakerIds(s'.registry.wakers) == WakerIds(s.registry.wakers) + {id}
    ensures InvParked(s')
  {
    forall q: Pid | q < |s'.procs|
      ensures ParkedOk(s', q)
    {
      assert ParkedOk(s, q);
      if q != p && s.procs[q].pc.Parked? {
        HeldIsLive(s.procs, q);
        StillParked(s, p, s', q);
      }
    }
  }

  lemma SleepInsertIds(s: State, p: Pid)
    requires InvIds(s) && InvParked(s) && p < |s.procs|
    requires s.procs[p].pc.SleepMutate? && s.procs[p].id == 0
    ensures InvIds(SleepMutateStep(s, p)) && InvParked(SleepMutateStep(s, p)) && SleepMutateStep(s, p).procs[p].id != 0
  {
    SleepInsertOnlyIds(s, p);
    SleepInsertOnlyParked(s, p);
  }

  lemma SleepInsertOnlyIds(s: State, p: Pid)
    requires InvIds(s) && p < |s.procs| && s.procs[p].pc.SleepMutate? && s.procs[p].id == 0
    ensures InvIds(SleepMutateStep(s, p)) && SleepMutateStep(s, p).procs[p].id != 0
  {
    var (r, id) := Insert(s.registry, s.procs[p].waker);
    SleepInsertEffect(s, p);
    InsertKeeps(s.registry, LiveIds(s.procs), s.procs[p].waker);
    GainId(s.procs, p, s.procs[p].(pc := SleepStore, id := id));
  }

  lemma SleepInsertOnlyParked(s: State, p: Pid)
    requires InvIds(s) && InvParked(s) && p < |s.procs| && s.procs[p].pc.SleepMutate? && s.procs[p].id == 0
    ensures InvParked(SleepMutateStep(s, p))
  {
    SleepInsertEffect(s, p);
    InsertKeeps(s.registry, LiveIds(s.procs), s.procs[p].waker);
    InsertKeepsParked(s, p, SleepMutateStep(s, p), Insert(s.registry, s.procs[p].waker).1);
  }

  lemma SleepUpdateIds(s: State, p: Pid)
    requires InvIds(s) && InvParked(s) && p < |s.procs|
    requires s.procs[p].pc.SleepMutate? && s.procs[p].id != 0
    ensures InvIds(SleepMutateStep(s, p)) && InvParked(SleepMutateStep(s, p))
    ensures SleepMutateStep(s, p).procs[p].pc.SleepStore? <==> NotifiedSleeper(s, p)
    ensures forall q: Pid :: q < |s.procs| && q != p ==>
              (NotifiedSleeper(s, q) <==> NotifiedSleeper(SleepMutateStep(s, p), q))
  {
    var s' := SleepMutateStep(s, p);
    SleepEffect(s, p);
    HeldIsLive(s.procs, p);
    UpdateKeeps(s.registry, LiveIds(s.procs), s.procs[p].id, s.procs[p].waker);
    SameIds(s.procs, s'.procs);
    forall q: Pid | q < |s'.procs|
      ensures ParkedOk(s', q)
    {
      assert ParkedOk(s, q);
      if q != p && s.procs[q].pc.Parked? {
        StillParked(s, p, s', q);
      }
    }
  }

  lemma SleepChanges(s: State, p: Pid)
    requires p < |s.procs| && s.procs[p].pc.SleepMutate?
    ensures var pr' := SleepMutateStep(s, p).procs[p];
            && SleepMutateStep(s, p).procs == s.procs[p := pr']
            && pr' == s.procs[p].(pc := pr'.pc, id := pr'.id) && (pr'.pc == SleepStore || pr'.pc == Parked(false))
  {
    if s.procs[p].id == 0 { SleepInsertEffect(s, p); }
  }

  lemma SleepRecord(pr: Proc, pr': Proc)
    requires ProcOk(pr) && pr.pc.SleepMutate? && pr'.id != 0
    requires pr' == pr.(pc := pr'.pc, id := pr'.id) && (pr'.pc == SleepStore || pr'.pc == Parked(false))
    ensures ProcOk(pr')
  {}

  lemma SleepProcs(s: State, p: Pid)
    requires InvProcs(s) && p < |s.procs| && s.procs[p].pc.SleepMutate?
    requires SleepMutateStep(s, p).procs[p].id != 0
    ensures InvProcs(SleepMutateStep(s, p))
  {
    assert ProcOk(s.procs[p]);
    SleepChanges(s, p);
    SleepRecord(s.procs[p], SleepMutateStep(s, p).procs[p]);
    ProcsStayOk(s, p, SleepMutateStep(s, p));
  }

  /** A ticker that finds itself still listed parks: whoever was bound to act is somebody else. */
  lemma ParkFlag(s: State, p: Pid)
    requires InvFlag(s) && InvProgress(s) && InvLock(s) && p < |s.procs|
    requires s.procs[p].pc.SleepMutate? && s.procs[p].id != 0 && !NotifiedSleeper(s, p)
    requires var s' := SleepMutateStep(s, p);
             && s'.procs[p].pc.Parked?
             && forall q: Pid :: q < |s.procs| && q != p ==> (NotifiedSleeper(s, q) <==> NotifiedSleeper(s', q))
    ensures var s' := SleepMutateStep(s, p); InvLock(s') && InvFlag(s') && InvProgress(s')
  {
    var s' := SleepMutateStep(s, p);
    KeepsLock(s, p, s');
    if s.registry.count != 0 && s.notified {
      var q: Pid :| q < |s.procs| && Justifies(s, q);
      FlagBy(s', q);
    } else if s.registry.count != 0 && s.global != [] {
      var q: Pid :| q < |s.procs| && WillAct(s, q);
      assert WillAct(s', q);
    }
  }

  lemma SleepSync(s: State, p: Pid)
    requires InvSync(s) && p < |s.procs| && s.lock.None? && s.procs[p].pc.SleepMutate?
    ensures InvSync(SleepMutateStep(s, p)) && SleepMutateStep(s, p).procs[p].id != 0
  {
    var s' := SleepMutateStep(s, p);
    SleepEffect(s, p);
    if s.procs[p].id == 0 {
      SleepInsertIds(s, p);
      EnteredSection(s, p, s');
    } else {
      SleepUpdateIds(s, p);
      if s'.procs[p].pc.SleepStore? {
        EnteredSection(s, p, s');
      } else {
        ParkFlag(s, p);
      }
    }
  }

  /** Leaving the registry, on finding a runnable or on being dropped. */
  lemma LeaveRegistry(s: State, p: Pid, pr: Proc, s': State)
    requires InvIds(s) && InvParked(s) && p < |s.procs| && s.procs[p].id != 0
    requires s.registry.count > 0 && s'.registry == Remove(s.registry, s.procs[p].id).0
    requires s'.procs == s.procs[p := pr] && pr.id == 0 && !pr.pc.Parked?
    requires !s.procs[p].pc.WakeUp?
    ensures InvIds(s') && InvParked(s')
    ensures Remove(s.registry, s.procs[p].id).1 <==> NotifiedSleeper(s, p)
    ensures forall q: Pid :: q < |s.procs| && q != p ==> (NotifiedSleeper(s, q) <==> NotifiedSleeper(s', q))
  {
    OnlyMoves(s, p, pr, s');
    LoseId(s.procs, p, pr);
    RemoveKeeps(s.registry, LiveIds(s.procs), s.procs[p].id);
    forall q: Pid | q < |s'.procs|
      ensures ParkedOk(s', q)
    {
      assert ParkedOk(s, q);
      if q != p && s.procs[q].pc.Parked? {
        StillParked(s, p, s', q);
      }
    }
  }

  lemma LeaveProcs(s: State, p: Pid)
    requires InvProcs(s) && p < |s.procs| && s.procs[p].id != 0 && s.registry.count > 0
    ensures s.procs[p].pc.Found? ==> InvProcs(FoundStep(s, p))
    ensures s.procs[p].pc.DropMutate? ==> InvProcs(DropMutateStep(s, p))
  {
    assert ProcOk(s.procs[p]);
    if s.procs[p].pc.Found? { ProcsStayOk(s, p, FoundStep(s, p)); }
    if s.procs[p].pc.DropMutate? { ProcsStayOk(s, p, DropMutateStep(s, p)); }
  }

  lemma WakeSync(s: State, p: Pid)
    requires InvSync(s) && p < |s.procs| && s.procs[p].pc.Found? && s.procs[p].id != 0
    requires s.lock.None? && s.registry.count > 0
    ensures InvSync(FoundStep(s, p))
  {
    LeaveRegistry(s, p, s.procs[p].(pc := WakeStore, id := 0), FoundStep(s, p));
    OnlyMoves(s, p, s.procs[p].(pc := WakeStore, id := 0), FoundStep(s, p));
    EnteredSection(s, p, FoundStep(s, p));
  }

  /** A dropped ticker that was not notified was not the one bound to act. */
  lemma QuietDropFlag(s: State, p: Pid)
    requires InvFlag(s) && InvProgress(s) && InvLock(s) && s.lock.None? && p < |s.procs|
    requires s.procs[p].pc.DropMutate? && s.procs[p].id != 0 && !NotifiedSleeper(s, p) && s.registry.count > 0
    requires var s' := DropMutateStep(s, p);
             && s'.procs[p].pc == DropStore(false)
             && forall q: Pid :: q < |s.procs| && q != p ==> (NotifiedSleeper(s, q) <==> NotifiedSleeper(s', q))
    ensures var s' := DropMutateStep(s, p); InvLock(s') && InvFlag(s') && InvProgress(s')
  {
    var s' := DropMutateStep(s, p);
    KeepsLock(s, p, s');
    if s.notified {
      var q: Pid :| q < |s.procs| && Justifies(s, q);
      FlagBy(s', q);
    } else if s.global != [] {
      var q: Pid :| q < |s.procs| && WillAct(s, q);
      assert WillAct(s', q);
    }
  }

  lemma DropMutateSync(s: State, p: Pid)
    requires InvSync(s) && p < |s.procs| && s.procs[p].pc.DropMutate? && s.procs[p].id != 0
    requires s.lock.None? && s.registry.count > 0
    ensures InvSync(DropMutateStep(s, p))
  {
    var s' := DropMutateStep(s, p);
    var pr := s.procs[p].(pc := DropStore(Remove(s.registry, s.procs[p].id).1), id := 0);
    OnlyMoves(s, p, pr, s');
    LeaveRegistry(s, p, pr, s');
    if NotifiedSleeper(s, p) {
      EnteredSection(s, p, s');
    } else {
      QuietDropFlag(s, p);
    }
  }

  // ---- Calls entering the executor ----

  lemma EnterFlag(s: State, pr: Proc, s': State)
    requires InvFlag(s) && InvProgress(s) && s'.procs == s.procs + [pr]
    requires s'.registry == s.registry && s'.notified == s.notified && s'.global == s.global
    ensures InvFlag(s') && InvProgress(s')
  {
    if s.notified && s.registry.count != 0 {
      var q: Pid :| q < |s.procs| && Justifies(s, q);
      assert s'.procs[q] == s.procs[q];
      FlagBy(s', q);
    } else if s.global != [] && s.registry.count != 0 {
      var q: Pid :| q < |s.procs| && WillAct(s, q);
      assert s'.procs[q] == s.procs[q];
      assert WillAct(s', q);
    }
  }

  lemma EnterLock(s: State, pr: Proc, s': State)
    requires InvLock(s) && s'.procs == s.procs + [pr] && s'.lock == s.lock && !HoldsLock(pr.pc)
    ensures InvLock(s')
  {
    forall q: Pid | q < |s'.procs|
      ensures HoldsLock(s'.procs[q].pc) <==> s'.lock == Some(q)
    {
      if q < |s.procs| { assert s'.procs[q] == s.procs[q]; }
    }
  }

  lemma EnterKeepsSync(s: State, pr: Proc, s': State)
    requires InvSync(s) && s'.procs == s.procs + [pr]
    requires s'.registry == s.registry && s'.notified == s.notified && s'.lock == s.lock && s'.global == s.global
    requires pr.id == 0 && (pr.pc.Push? || pr.pc.TryPop? || pr.pc.Resting?)
    ensures InvSync(s')
  {
    EnterIds(s.procs, pr);
    EnterFlag(s, pr, s');
    EnterLock(s, pr, s');
    EnterParked(s, pr, s');
  }

  lemma EnterKeepsProcs(s: State, pr: Proc, s': State)
    requires InvProcs(s) && s'.procs == s.procs + [pr] && ProcOk(pr)
    ensures InvProcs(s')
  {
    assert forall q :: 0 <= q < |s.procs| ==> s'.procs[q] == s.procs[q];
    assert s'.procs[|s.procs|] == pr;
  }

  lemma EnterIds(procs: seq<Proc>, pr: Proc)
    requires pr.id == 0
    ensures LiveIds(procs + [pr]) == LiveIds(procs)
    ensures DistinctIds(procs) ==> DistinctIds(procs + [pr])
  {
    var all := procs + [pr];
    assert forall i :: 0 <= i < |procs| ==> all[i] == procs[i];
    assert all[|procs|].id == 0;
  }

  lemma EnterParked(s: State, pr: Proc, s': State)
    requires InvParked(s) && s'.procs == s.procs + [pr] && s'.registry == s.registry && !pr.pc.Parked?
    ensures InvParked(s')
  {
    forall q: Pid | q < |s'.procs|
      ensures ParkedOk(s', q)
    {
      if q < |s.procs| {
        assert ParkedOk(s, q) && s'.procs[q] == s.procs[q];
        var w := s.procs[q].waker;
        if s.procs[q].pc.Parked? && BeingWoken(s, w) {
          var k: Pid :| k < |s.procs| && s.procs[k].pc.WakeUp? && s.procs[k].pc.target == w;
          assert s'.procs[k] == s.procs[k];
        }
      }
    }
  }

  // ---- All steps ----

  ghost predicate Inv(s: State) {
    InvProcs(s) && InvSync(s)
  }

  lemma QueueStepDone(s: State, p: Pid, s': State)
    requires InvSync(s) && QueueStep(s, p, s') && InvProcs(s')
    ensures Inv(s')
  {
    QueueStepKeepsSync(s, p, s');
  }

  predicate SyncPc(pc: Pc) {
    || pc.Cas? || pc.PopSleeper? || pc.WakeUp? || pc.WakeStore? || pc.SleepMutate? || pc.SleepStore?
    || pc.DropMutate? || pc.DropStore?
  }

  predicate SearchPc(pc: Pc) {
    || pc.Search? || pc.SearchGlobal? || pc.SearchOthers? || pc.TryPop? || Stealing(pc)
  }

  lemma SyncStepKeeps(s: State, p: Pid, s': State)
    requires Inv(s) && p < |s.procs| && SyncPc(s.procs[p].pc) && ProcStep(s, p, s')
    ensures Inv(s')
  {
    assert IdOk(s.procs[p]) by { assert ProcOk(s.procs[p]); }
    match s.procs[p].pc
    case Cas(_) => CasProcs(s, p); CasSync(s, p);
    case PopSleeper(_) => PopSleeperProcs(s, p); PopSleeperSync(s, p);
    case WakeUp(_, _) => WakeUpProcs(s, p); WakeUpSync(s, p);
    case WakeStore => StoreProcs(s, p, Executor.Cas(Deliver)); StoreSync(s, p, Executor.Cas(Deliver));
    case SleepMutate => SleepSync(s, p); SleepProcs(s, p);
    case SleepStore => StoreProcs(s, p, Executor.Search); StoreSync(s, p, Executor.Search);
    case DropMutate => LeaveProcs(s, p); DropMutateSync(s, p);
    case DropStore(b) =>
      var pc := if b then Executor.Cas(Return) else Executor.Gone;
      StoreProcs(s, p, pc); StoreSync(s, p, pc);
  }

  lemma SearchStepKeeps(s: State, p: Pid, s': State)
    requires InvProcs(s) && p < |s.procs| && SearchPc(s.procs[p].pc) && ProcStep(s, p, s')
    ensures QueueStep(s, p, s') && InvProcs(s')
  {
    match s.procs[p].pc
    case Search => SearchOk(s, p);
    case SearchGlobal =>
      var others :| ScanOrder(s, p, others) && s' == SearchGlobalStep(s, p, others);
      SearchGlobalOk(s, p, others);
    case SearchOthers(_) => SearchOthersOk(s, p);
    case TryPop => TryPopOk(s, p);
    case StealLen(_, _) => StealLenOk(s, p);
    case StealRoom(_, _, _) => StealRoomOk(s, p);
    case StealPush(_, _, _, _) => StealPushOk(s, p);
    case StealLoop(src, left, why) =>
      if left == 0 || SourceLen(s, src) == 0 { AfterStealOk(s, p); }
      else if src.Global? { StealGlobalOk(s, p); }
      else { StealVictimOk(s, p); }
  }

  lemma OtherStepKeeps(s: State, p: Pid, s': State)
    requires InvProcs(s) && p < |s.procs| && ProcStep(s, p, s')
    requires !SyncPc(s.procs[p].pc) && !SearchPc(s.procs[p].pc)
    requires s.procs[p].pc.Found? ==> s.procs[p].id == 0
    ensures QueueStep(s, p, s') && InvProcs(s')
  {
    match s.procs[p].pc
    case Push => PushOk(s, p, Return);
    case DrainPush => PushOk(s, p, Drain);
    case Found => FoundOk(s, p);
    case Tick => TickOk(s, p);
    case HasTask => RunTaskOk(s, p);
    case DrainPop => DrainPopOk(s, p);
    case Resting => PollOrDropKeeps(s, p, s');
    case Parked(_) => PollOrDropKeeps(s, p, s');
    case _ =>
  }

  lemma PollOrDropKeeps(s: State, p: Pid, s': State)
    requires InvProcs(s) && p < |s.procs| && (s.procs[p].pc.Resting? || s.procs[p].pc.Parked?)
    requires (exists w :: s' == PollStep(s, p, w)) || s' == DropStep(s, p)
    ensures QueueStep(s, p, s') && InvProcs(s')
  {
    if w :| s' == PollStep(s, p, w) {
      PollOk(s, p, w);
    } else {
      DropOk(s, p);
    }
  }

  /** The step theorem: every step of every process keeps the invariant. */
  lemma StepKeepsInv(s: State, p: Pid, s': State)
    requires Inv(s) && p < |s.procs| && ProcStep(s, p, s')
    ensures Inv(s')
  {
    var pc := s.procs[p].pc;
    if SyncPc(pc) {
      SyncStepKeeps(s, p, s');
    } else if pc.Found? && s.procs[p].id != 0 {
      LeaveProcs(s, p);
      WakeSync(s, p);
    } else {
      if SearchPc(pc) { SearchStepKeeps(s, p, s'); } else { OtherStepKeeps(s, p, s'); }
      QueueStepDone(s, p, s');
    }
  }

  lemma EnterEffect(s: State, s': State) returns (pr: Proc)
    requires EnterStep(s, s')
    ensures s'.procs == s.procs + [pr] && ProcOk(pr)
    ensures s'.registry == s.registry && s'.notified == s.notified && s'.lock == s.lock && s'.global == s.global
    ensures pr.id == 0 && (pr.pc.Push? || pr.pc.TryPop? || pr.pc.Resting?)
  {
    pr := s'.procs[|s.procs|];
  }

  lemma EnterKeepsInv(s: State, s': State)
    requires Inv(s) && EnterStep(s, s')
    ensures Inv(s')
  {
    var pr := EnterEffect(s, s');
    EnterKeepsSync(s, pr, s');
    EnterKeepsProcs(s, pr, s');
  }

  lemma NextKeepsInv(s: State, s': State)
    requires Inv(s) && Next(s, s')
    ensures Inv(s')
  {
    if EnterStep(s, s') {
      EnterKeepsInv(s, s');
    } else {
      var p: Pid :| 0 <= p < |s.procs| && ProcStep(s, p, s');
      StepKeepsInv(s, p, s');
    }
  }

  lemma InitialInv()
    ensures Inv(INITIAL)
  {
    EmptyWellFormed();
    assert LiveIds([]) == {};
  }

  /** Every run keeps the invariant. */
  lemma {:induction false} RunKeepsInv(run: seq<State>)
    requires IsRun(run)
    ensures Inv(run[0]) ==> Inv(run[|run| - 1])
  {
    if |run| > 1 {
      var (first, s, s') := (run[0], run[|run| - 2], run[|run| - 1]);
      var before := run[..|run| - 1];
      RunKeepsInv(before);
      assert before[0] == first && before[|before| - 1] == s;
      if Inv(first) {
        assert Inv(s') by { NextKeepsInv(s, s'); }
      }
    }
  }
}
