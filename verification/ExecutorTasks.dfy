/** Runnables are conserved by every step of the executor: the global queue, the local queues and
    the hands of the processes together hold exactly what was scheduled and has not been run. */
module ExecutorTasks {
  import opened Options
  import opened Executor
  import opened ExecutorInvariant

  function One(a: Task, t: Task): nat {
    if a == t then 1 else 0
  }

  function Occurs(q: seq<Task>, t: Task): nat {
    if q == [] then 0 else Occurs(q[..|q| - 1], t) + One(q[|q| - 1], t)
  }

  function InHand(pr: Proc, t: Task): nat {
    (if pr.hand.Some? then One(pr.hand.value, t) else 0)
    + (if pr.pc.StealPush? then One(pr.pc.item, t) else 0)
  }

  function Held(pr: Proc, t: Task): nat {
    InHand(pr, t) + Occurs(pr.local, t)
  }

  function SumHeld(procs: seq<Proc>, t: Task): nat {
    if procs == [] then 0 else SumHeld(procs[..|procs| - 1], t) + Held(procs[|procs| - 1], t)
  }

  /** How many times `t` is in the executor's possession. */
  function Possession(s: State, t: Task): nat {
    Occurs(s.global, t) + SumHeld(s.procs, t)
  }

  /** What was scheduled is in possession or has been run, and the global queue is the unpopped
      part of everything pushed. */
  ghost predicate Conserved(s: State, t: Task) {
    s.entered[t] == Possession(s, t) + s.ran[t]
  }

  ghost predicate InvQueue(s: State) {
    s.popped <= |s.pushed| && s.global == s.pushed[s.popped..]
  }

  lemma {:induction false} SumUpdate(procs: seq<Proc>, p: Pid, pr: Proc, t: Task)
    requires p < |procs|
    ensures SumHeld(procs[p := pr], t) + Held(procs[p], t) == SumHeld(procs, t) + Held(pr, t)
  {
    var n := |procs| - 1;
    var b := procs[p := pr];
    if p == n {
      assert b[..n] == procs[..n];
    } else {
      assert b[..n] == procs[..n][p := pr];
      SumUpdate(procs[..n], p, pr, t);
    }
  }

  lemma SumAppend(procs: seq<Proc>, pr: Proc, t: Task)
    ensures SumHeld(procs + [pr], t) == SumHeld(procs, t) + Held(pr, t)
  {
    assert (procs + [pr])[..|procs|] == procs;
  }

  lemma {:induction false} SumSame(a: seq<Proc>, b: seq<Proc>, t: Task)
    requires |a| == |b| && forall i :: 0 <= i < |a| ==> Held(a[i], t) == Held(b[i], t)
    ensures SumHeld(a, t) == SumHeld(b, t)
  {
    if a != [] {
      SumSame(a[..|a| - 1], b[..|b| - 1], t);
    }
  }

  lemma {:induction false} PopFront(q: seq<Task>, t: Task)
    requires q != []
    ensures Occurs(q, t) == One(q[0], t) + Occurs(q[1..], t)
  {
    if |q| > 1 {
      var n := |q| - 1;
      PopFront(q[..n], t);
      assert q[1..][..n - 1] == q[..n][1..];
    }
  }

  lemma PushBack(q: seq<Task>, a: Task, t: Task)
    ensures Occurs(q + [a], t) == Occurs(q, t) + One(a, t)
  {
    assert (q + [a])[..|q|] == q;
  }

  // ---- Step by step, for one runnable ----

  ghost predicate SameBooks(s: State, s': State) {
    s'.entered == s.entered && s'.ran == s.ran
  }

  ghost predicate SameQueue(s: State, s': State) {
    s'.global == s.global && s'.pushed == s.pushed && s'.popped == s.popped
  }

  lemma Idles(s: State, p: Pid, pr: Proc, s': State, t: Task)
    requires Conserved(s, t) && p < |s.procs| && s'.procs == s.procs[p := pr]
    requires Held(pr, t) == Held(s.procs[p], t) && s'.global == s.global && SameBooks(s, s')
    ensures Conserved(s', t)
  {
    SumUpdate(s.procs, p, pr, t);
  }

  lemma PopsGlobal(s: State, p: Pid, pr: Proc, s': State, t: Task)
    requires Conserved(s, t) && p < |s.procs| && s.global != [] && s'.procs == s.procs[p := pr]
    requires Held(pr, t) == Held(s.procs[p], t) + One(s.global[0], t)
    requires s'.global == s.global[1..] && SameBooks(s, s')
    ensures Conserved(s', t)
  {
    SumUpdate(s.procs, p, pr, t);
    PopFront(s.global, t);
  }

  lemma Pushes(s: State, p: Pid, after: After, t: Task)
    requires Conserved(s, t) && p < |s.procs| && s.procs[p].hand.Some? && !s.procs[p].pc.StealPush?
    ensures Conserved(PushStep(s, p, after), t)
  {
    SumUpdate(s.procs, p, s.procs[p].(pc := Cas(after), hand := None), t);
    PushBack(s.global, s.procs[p].hand.value, t);
  }

  lemma PopsLocal(s: State, p: Pid, pc: Pc, t: Task)
    requires Conserved(s, t) && p < |s.procs| && s.procs[p].local != [] && s.procs[p].hand.None?
    requires !s.procs[p].pc.StealPush? && !pc.StealPush?
    ensures var pr := s.procs[p];
            Conserved(With(s, p, pr.(pc := pc, hand := Some(pr.local[0]), local := pr.local[1..])), t)
  {
    var pr := s.procs[p];
    var pr' := pr.(pc := pc, hand := Some(pr.local[0]), local := pr.local[1..]);
    PopFront(pr.local, t);
    SumUpdate(s.procs, p, pr', t);
  }

  lemma StealsFromVictim(s: State, p: Pid, t: Task)
    requires Conserved(s, t) && p < |s.procs| && s.procs[p].pc.StealLoop?
    requires s.procs[p].pc.left > 0 && s.procs[p].pc.src.Victim? && SourceLen(s, s.procs[p].pc.src) > 0
    ensures Conserved(StealLoopStep(s, p), t)
  {
    var v := s.procs[p].pc.src.v;
    var vp := s.procs[v].(local := s.procs[v].local[1..]);
    var s1 := With(s, v, vp);
    SumUpdate(s.procs, v, vp, t);
    PopFront(s.procs[v].local, t);
    SumUpdate(s1.procs, p, StealLoopStep(s, p).procs[p], t);
  }

  lemma StealPushConserves(s: State, p: Pid, t: Task)
    requires Conserved(s, t) && p < |s.procs| && s.procs[p].pc.StealPush? && s.procs[p].pc.left > 0
    ensures Conserved(StealPushStep(s, p), t)
  {
    var pr := s.procs[p];
    var pr' := pr.(pc := StealLoop(pr.pc.src, pr.pc.left - 1, pr.pc.why), local := pr.local + [pr.pc.item]);
    PushBack(pr.local, pr.pc.item, t);
    SumUpdate(s.procs, p, pr', t);
  }

  lemma RunsTask(s: State, p: Pid, t: Task)
    requires Conserved(s, t) && p < |s.procs| && s.procs[p].hand.Some? && s.procs[p].pc.HasTask?
    ensures Conserved(RunTaskStep(s, p), t)
  {
    SumUpdate(s.procs, p, s.procs[p].(pc := Resting, hand := None), t);
  }

  lemma WakeUpConserves(s: State, p: Pid, t: Task)
    requires Conserved(s, t) && p < |s.procs| && s.procs[p].pc.WakeUp?
    ensures Conserved(WakeUpStep(s, p), t)
  {
    SumSame(s.procs, WakeUpStep(s, p).procs, t);
  }

  lemma EnterConserves(s: State, s': State, t: Task)
    requires Conserved(s, t) && EnterStep(s, s')
    ensures Conserved(s', t)
  {
    if u :| s' == ScheduleCall(s, u) {
      ScheduleConserves(s, u, t);
    } else {
      ArrivalConserves(s, t);
    }
  }

  lemma ScheduleConserves(s: State, u: Task, t: Task)
    requires Conserved(s, t)
    ensures Conserved(ScheduleCall(s, u), t)
  {
    SumAppend(s.procs, NEW_PROC.(pc := Push, hand := Some(u)), t);
  }

  lemma ArrivalConserves(s: State, t: Task)
    requires Conserved(s, t)
    ensures Conserved(TryTickCall(s), t) && Conserved(NewTicker(s), t) && Conserved(NewRunner(s), t)
  {
    SumAppend(s.procs, NEW_PROC.(pc := TryPop), t);
    SumAppend(s.procs, NEW_PROC.(pc := Resting), t);
    SumAppend(s.procs, NEW_PROC.(pc := Resting, runner := true), t);
  }

  lemma AfterStealConserves(s: State, p: Pid, why: Reason, t: Task)
    requires Conserved(s, t) && p < |s.procs| && s.procs[p].pc.StealLoop?
    requires why.Scan? ==> s.procs[p].hand.None?
    ensures Conserved(AfterSteal(s, p, why), t)
  {
    var s' := AfterSteal(s, p, why);
    if why.Scan? && s.procs[p].local != [] {
      PopsLocal(s, p, Found, t);
    } else {
      Idles(s, p, s'.procs[p], s', t);
    }
  }

  lemma StealLoopConserves(s: State, p: Pid, t: Task)
    requires Conserved(s, t) && p < |s.procs| && s.procs[p].pc.StealLoop?
    requires s.procs[p].pc.why.Scan? ==> s.procs[p].hand.None?
    ensures Conserved(StealLoopStep(s, p), t)
  {
    var pc := s.procs[p].pc;
    if pc.left == 0 || SourceLen(s, pc.src) == 0 {
      AfterStealConserves(s, p, pc.why, t);
    } else if pc.src.Global? {
      PopsGlobal(s, p, StealLoopStep(s, p).procs[p], StealLoopStep(s, p), t);
    } else {
      StealsFromVictim(s, p, t);
    }
  }

  lemma SearchConserves(s: State, p: Pid, t: Task)
    requires Conserved(s, t) && p < |s.procs| && s.procs[p].hand.None?
    ensures s.procs[p].pc.Search? ==> Conserved(SearchStep(s, p), t)
    ensures s.procs[p].pc.DrainPop? ==> Conserved(DrainPopStep(s, p), t)
  {
    if s.procs[p].pc.Search? {
      if s.procs[p].local != [] { PopsLocal(s, p, Found, t); }
      else { Idles(s, p, SearchStep(s, p).procs[p], SearchStep(s, p), t); }
    } else if s.procs[p].pc.DrainPop? {
      if s.procs[p].local != [] { PopsLocal(s, p, DrainPush, t); }
      else { Idles(s, p, DrainPopStep(s, p).procs[p], DrainPopStep(s, p), t); }
    }
  }

  lemma GlobalPopConserves(s: State, p: Pid, others: seq<Pid>, t: Task)
    requires Conserved(s, t) && p < |s.procs| && s.procs[p].hand.None?
    ensures s.procs[p].pc.SearchGlobal? ==> Conserved(SearchGlobalStep(s, p, others), t)
    ensures s.procs[p].pc.TryPop? ==> Conserved(TryPopStep(s, p), t)
  {
    if s.procs[p].pc.SearchGlobal? {
      var s' := SearchGlobalStep(s, p, others);
      if s.global != [] { PopsGlobal(s, p, s'.procs[p], s', t); } else { Idles(s, p, s'.procs[p], s', t); }
    } else if s.procs[p].pc.TryPop? {
      var s' := TryPopStep(s, p);
      if s.global != [] { PopsGlobal(s, p, s'.procs[p], s', t); } else { Idles(s, p, s'.procs[p], s', t); }
    }
  }

  // ---- All steps ----

  predicate MovesRunnables(pc: Pc) {
    || pc.Push? || pc.TryPop? || pc.Search? || pc.SearchGlobal? || pc.StealLoop? || pc.StealPush?
    || pc.HasTask? || pc.DrainPop? || pc.DrainPush? || pc.WakeUp?
  }

  predicate SectionPc(pc: Pc) {
    || pc.Cas? || pc.PopSleeper? || pc.WakeStore? || pc.SleepMutate? || pc.SleepStore?
    || pc.DropMutate? || pc.DropStore?
  }

  /** A step that moves no runnable changes one process and none of the queues. */
  ghost predicate Plain(s: State, p: Pid, s': State, pr: Proc)
    requires p < |s.procs|
  {
    && s'.procs == s.procs[p := pr] && SameQueue(s, s') && SameBooks(s, s')
    && pr.local == s.procs[p].local && pr.hand == s.procs[p].hand && !pr.pc.StealPush?
  }

  lemma SectionStepPlain(s: State, p: Pid, s': State) returns (pr: Proc)
    requires p < |s.procs| && ProcStep(s, p, s') && SectionPc(s.procs[p].pc)
    ensures Plain(s, p, s', pr)
  {
    pr := s'.procs[p];
  }

  lemma SearchStepPlain(s: State, p: Pid, s': State) returns (pr: Proc)
    requires p < |s.procs| && ProcStep(s, p, s') && !MovesRunnables(s.procs[p].pc) && !SectionPc(s.procs[p].pc)
    ensures Plain(s, p, s', pr)
  {
    pr := s'.procs[p];
  }

  lemma PlainStep(s: State, p: Pid, s': State) returns (pr: Proc)
    requires p < |s.procs| && ProcStep(s, p, s') && !MovesRunnables(s.procs[p].pc)
    ensures Plain(s, p, s', pr)
  {
    if SectionPc(s.procs[p].pc) { pr := SectionStepPlain(s, p, s'); } else { pr := SearchStepPlain(s, p, s'); }
  }

  lemma MovingStepConserves(s: State, p: Pid, s': State, t: Task)
    requires Conserved(s, t) && p < |s.procs| && ProcStep(s, p, s') && MovesRunnables(s.procs[p].pc)
    requires HandExpected(s.procs[p].pc) <==> s.procs[p].hand.Some?
    ensures Conserved(s', t)
  {
    match s.procs[p].pc
    case Push => Pushes(s, p, Return, t);
    case DrainPush => Pushes(s, p, Drain, t);
    case WakeUp(_, _) => WakeUpConserves(s, p, t);
    case HasTask => RunsTask(s, p, t);
    case StealPush(_, _, _, _) => StealPushConserves(s, p, t);
    case Search => SearchConserves(s, p, t);
    case DrainPop => SearchConserves(s, p, t);
    case TryPop => GlobalPopConserves(s, p, [], t);
    case SearchGlobal =>
      var others :| ScanOrder(s, p, others) && s' == SearchGlobalStep(s, p, others);
      GlobalPopConserves(s, p, others, t);
    case StealLoop(_, _, _) => StealLoopConserves(s, p, t);
  }

  lemma StepConserves(s: State, s': State, t: Task)
    requires InvProcs(s) && Conserved(s, t) && Next(s, s')
    ensures Conserved(s', t)
  {
    if EnterStep(s, s') {
      EnterConserves(s, s', t);
    } else {
      var p: Pid :| 0 <= p < |s.procs| && ProcStep(s, p, s');
      assert HandExpected(s.procs[p].pc) <==> s.procs[p].hand.Some? by { assert ProcOk(s.procs[p]); }
      if MovesRunnables(s.procs[p].pc) {
        MovingStepConserves(s, p, s', t);
      } else {
        var pr := PlainStep(s, p, s');
        Idles(s, p, pr, s', t);
      }
    }
  }

  // ---- The life of the global queue ----

  ghost predicate QueuePops(s: State, s': State) {
    s.global != [] && s'.global == s.global[1..] && s'.popped == s.popped + 1 && s'.pushed == s.pushed
  }

  ghost predicate QueuePushes(s: State, s': State) {
    exists t :: s'.global == s.global + [t] && s'.pushed == s.pushed + [t] && s'.popped == s.popped
  }

  lemma MovingStepQueue(s: State, p: Pid, s': State)
    requires p < |s.procs| && ProcStep(s, p, s') && MovesRunnables(s.procs[p].pc)
    ensures SameQueue(s, s') || QueuePops(s, s') || QueuePushes(s, s')
  {}

  /** Each step leaves the global queue alone, pops its head or pushes at its end. */
  lemma StepOnQueue(s: State, s': State)
    requires Next(s, s')
    ensures SameQueue(s, s') || QueuePops(s, s') || QueuePushes(s, s')
  {
    if !EnterStep(s, s') {
      var p: Pid :| 0 <= p < |s.procs| && ProcStep(s, p, s');
      if MovesRunnables(s.procs[p].pc) { MovingStepQueue(s, p, s'); } else { var _ := PlainStep(s, p, s'); }
    }
  }

  lemma StepKeepsQueue(s: State, s': State)
    requires InvQueue(s)
    requires SameQueue(s, s') || QueuePops(s, s') || QueuePushes(s, s')
    ensures InvQueue(s')
    ensures s.pushed <= s'.pushed && s.popped <= s'.popped
  {
    if t :| s'.global == s.global + [t] && s'.pushed == s.pushed + [t] && s'.popped == s.popped {
      assert s'.pushed[s.popped..] == s.pushed[s.popped..] + [t];
    }
  }
}
