/** The waker of a ticker is the one of its latest poll, and that is the one it sleeps under. */
module ExecutorWakers {
  import opened Options
  import opened Sleepers
  import opened Executor
  import opened ExecutorInvariant
  import opened ExecutorSteps
  import opened ExecutorFairness
  import opened ExecutorProgress
  import opened ExecutorStealing

  predicate KeepsWaker(s: State, p: Pid, s': State)
    requires p < |s.procs|
  {
    |s'.procs| == |s.procs| && s'.procs[p].waker == s.procs[p].waker
  }

  lemma NotifyKeepsWaker(s: State, p: Pid)
    requires p < |s.procs|
    ensures s.procs[p].pc.Cas? ==> KeepsWaker(s, p, CasStep(s, p))
    ensures s.procs[p].pc.PopSleeper? ==> KeepsWaker(s, p, PopSleeperStep(s, p))
    ensures s.procs[p].pc.WakeUp? ==> KeepsWaker(s, p, WakeUpStep(s, p))
  {}

  lemma MutateKeepsWaker(s: State, p: Pid)
    requires p < |s.procs|
    ensures KeepsWaker(s, p, SleepMutateStep(s, p))
    ensures (s.procs[p].id != 0 ==> s.registry.count > 0) ==> KeepsWaker(s, p, FoundStep(s, p))
    ensures s.registry.count > 0 ==> KeepsWaker(s, p, DropMutateStep(s, p))
  {}

  lemma QueueKeepsWaker(s: State, p: Pid, s': State)
    requires p < |s.procs| && ProcStep(s, p, s') && QueuePc(s.procs[p].pc)
    ensures KeepsWaker(s, p, s')
  {}

  lemma StealKeepsWaker(s: State, p: Pid, s': State)
    requires p < |s.procs| && ProcStep(s, p, s') && Stealing(s.procs[p].pc)
    ensures KeepsWaker(s, p, s')
  {}

  lemma SearchKeepsWaker(s: State, p: Pid, s': State)
    requires p < |s.procs| && ProcStep(s, p, s')
    requires s.procs[p].pc.SearchGlobal? || s.procs[p].pc.SearchOthers? || s.procs[p].pc.Tick?
    ensures KeepsWaker(s, p, s')
  {}

  lemma SectionKeepsWaker(s: State, p: Pid, s': State)
    requires p < |s.procs| && ProcStep(s, p, s') && HoldsLock(s.procs[p].pc)
    ensures KeepsWaker(s, p, s')
  {}

  predicate Pollable(pc: Pc) {
    pc.Resting? || pc.Parked?
  }

  lemma OwnKeepsWaker(s: State, p: Pid, s': State)
    requires p < |s.procs| && ProcStep(s, p, s') && !Pollable(s.procs[p].pc)
    ensures KeepsWaker(s, p, s')
  {
    var pc := s.procs[p].pc;
    if NotifyPc(pc) { NotifyKeepsWaker(s, p); }
    else if pc.SleepMutate? || pc.Found? || pc.DropMutate? { MutateKeepsWaker(s, p); }
    else if QueuePc(pc) { QueueKeepsWaker(s, p, s'); }
    else if Stealing(pc) { StealKeepsWaker(s, p, s'); }
    else if HoldsLock(pc) { SectionKeepsWaker(s, p, s'); }
    else { SearchKeepsWaker(s, p, s'); }
  }

  /** The step is a poll of `p` with the waker `w`. */
  predicate PolledWith(s: State, who: Option<Pid>, s': State, p: Pid, w: Waker) {
    who == Some(p) && p < |s.procs| && Pollable(s.procs[p].pc) && s' == PollStep(s, p, w)
  }

  ghost predicate NoPoll(s: State, who: Option<Pid>, s': State, p: Pid) {
    forall w :: !PolledWith(s, who, s', p, w)
  }

  lemma DropKeepsWaker(s: State, p: Pid, s': State)
    requires p < |s.procs| && ProcStep(s, p, s') && Pollable(s.procs[p].pc) && NoPoll(s, Some(p), s', p)
    ensures KeepsWaker(s, p, s')
  {
    if w :| s' == PollStep(s, p, w) { assert PolledWith(s, Some(p), s', p, w); }
  }

  ghost predicate WakerStays(s: State, s': State, p: Pid) {
    p < |s.procs| ==> p < |s'.procs| && s'.procs[p].waker == s.procs[p].waker
  }

  /** Any step but a poll of `p` leaves its waker alone. */
  lemma NoPollKeepsWaker(s: State, who: Option<Pid>, s': State, p: Pid)
    requires StepBy(s, who, s') && NoPoll(s, who, s', p)
    ensures WakerStays(s, s', p)
  {
    if p < |s.procs| {
      if who.None? {
        var pr := EnterEffect(s, s');
      } else if who.value != p {
        OtherStepTouches(s, who.value, p, s');
      } else if Pollable(s.procs[p].pc) {
        DropKeepsWaker(s, p, s');
      } else {
        OwnKeepsWaker(s, p, s');
      }
    }
  }

  lemma {:induction false} WakerThrough(run: seq<State>, i: nat, j: nat, p: Pid)
    requires i <= j < |run| && p < |run[i].procs|
    requires forall k :: i <= k < j ==> WakerStays(run[k], run[k + 1], p)
    ensures p < |run[j].procs| && run[j].procs[p].waker == run[i].procs[p].waker
    decreases j
  {
    if i < j {
      WakerThrough(run, i, j - 1, p);
      assert WakerStays(run[j - 1], run[j - 1 + 1], p);
    }
  }

  /** In every execution, a ticker polled with `w` and not polled since has `w` as its waker; and if it is
      parked, it is listed with `w`, or it has been notified and `w` has been woken since or is about to
      be. */
  lemma SleepsUnderLatestWaker(run: seq<State>, who: seq<Option<Pid>>, i: nat, j: nat, p: Pid, w: Waker)
    requires RunBy(run, who) && Inv(run[0]) && i < j < |run| && PolledWith(run[i], who[i], run[i + 1], p, w)
    requires forall k :: i < k < j ==> NoPoll(run[k], who[k], run[k + 1], p)
    ensures p < |run[j].procs| && run[j].procs[p].waker == w
    ensures run[j].procs[p].pc.Parked? ==>
              || (run[j].procs[p].id, w) in run[j].registry.wakers
              || (NotifiedSleeper(run[j], p) && (run[j].procs[p].pc.poked || BeingWoken(run[j], w)))
  {
    forall k | i + 1 <= k < j ensures WakerStays(run[k], run[k + 1], p) { WakerStaysAt(run, who, k, p); }
    WakerThrough(run, i + 1, j, p);
    InvAt(run, who, j);
    assert ParkedOk(run[j], p);
  }

  lemma WakerStaysAt(run: seq<State>, who: seq<Option<Pid>>, k: nat, p: Pid)
    requires RunBy(run, who) && k < |who| && NoPoll(run[k], who[k], run[k + 1], p)
    ensures WakerStays(run[k], run[k + 1], p)
  {
    assert StepBy(run[k], who[k], run[k + 1]);
    NoPollKeepsWaker(run[k], who[k], run[k + 1], p);
  }
}
