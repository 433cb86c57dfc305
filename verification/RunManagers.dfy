/** `Run`, its limited forms and the main tasklet's blocking `Yield`, as they update the fields of
    the schedule manager. */
module RunManagers {
  import opened Options
  import opened Lists
  import opened Scheduler
  import opened SchedulerInvariant
  import opened SchedulerEffects
  import opened SchedulerPlacement
  import opened RunLoops

  lemma NothingNext(s: State)
    requires Placed(s)
    ensures NextAfter(s.queue, MAIN).None? <==> s.queue == [MAIN]
  {
    IndexUnique(s.queue, 0);
  }

  /** Whatever the call of the main tasklet was, once it has returned the main tasklet is blocked
      nowhere. */
  lemma MainReturned(s: State, ok: bool, s': State)
    requires Placed(s) && Allowed(s, DoMainReturn(ok)) && s' == Act(s, DoMainReturn(ok))
    ensures s'.tasklets[MAIN].at == Idle && s'.tasklets[MAIN].blockedOn.None?
    ensures forall c :: c in s'.channels ==> MAIN !in s'.channels[c].senders && MAIN !in s'.channels[c].receivers
  {
    MainReturnPlaced(s, ok);
    MainRecordAfter(s, ok, s');
    forall c | c in s'.channels
      ensures MAIN !in s'.channels[c].senders && MAIN !in s'.channels[c].receivers
    {
      assert Listed(s', c, MAIN);
    }
  }

  lemma MainRecordAfter(s: State, ok: bool, s': State)
    requires Placed(s) && Allowed(s, DoMainReturn(ok)) && s' == Act(s, DoMainReturn(ok))
    ensures s'.tasklets[MAIN].at == Idle && s'.tasklets[MAIN].blockedOn.None?
  {
    var x := s.tasklets[MAIN];
    assert TaskletOk(x, true, true);
    MainReturnPlaced(s, ok);
    ResumeEffect(s, MAIN, ok);
    assert ResumeRecord(x, ok).at == Idle && ResumeRecord(x, ok).blockedOn.None? by { CallEnds(x, ok); }
    assert s' == Resume(s, MAIN, ok);
  }

  lemma CallEnds(x: Tasklet, ok: bool)
    requires TaskletOk(x, true, true) && (ok ==> x.blockedOn.None?)
    ensures ResumeRecord(x, ok).at == Idle && ResumeRecord(x, ok).blockedOn.None?
  {
    match x.at
    case InSend(_, _) =>
    case InReceive(_, _) =>
    case InSendHandoff(_) =>
    case InReceiveHandoff(_, _) =>
    case _ =>
  }

  /** A trip that continues after the switches in `before`. */
  function Prepended(before: seq<Tid>, r: Trip): Trip {
    r.(switched := before + r.switched)
  }

  /** One iteration of the loop, with `before` switched to already. */
  lemma Iteration(s: State, m: Mode, p: Plan, script: seq<Turn>, k: nat, t: Tid, before: seq<Tid>)
    requires k < |script| && NextAfter(s.queue, p.base) == Some(t) && !m.stop
    ensures var (m1, e) := (LimitTest(m, script[k].now), script[k].play(s, t));
            var r := Prepended(before, Loop(s, m, p, script[k..]));
            && (e.failed ==> r == Trip(e.state, m1, before + [t], Failed))
            && (!e.failed && Done(p, t, e.state) ==> r == Trip(e.state, m1, before + [t], Completed))
            && (!e.failed && !Done(p, t, e.state) ==>
                  r == Prepended(before + [t], Loop(e.state, m1, p, script[k + 1..])))
  {
    var (m1, e) := (LimitTest(m, script[k].now), script[k].play(s, t));
    assert script[k..][0] == script[k] && script[k..][1..] == script[k + 1..];
    if !e.failed && !Done(p, t, e.state) {
      Unroll(s, m, p, script[k..], t);
      var rest := Loop(e.state, m1, p, script[k + 1..]).switched;
      assert before + ([t] + rest) == before + [t] + rest;
    }
  }

  /** How a run entered from the main tasklet can end. */
  lemma YieldOutcome(s: State, m: Mode, script: seq<Turn>, r: Trip)
    requires Placed(s) && Looping(s) && ScriptOk(script) && m.runType == Standard && !m.stop
    requires r == Loop(s, m, Plan(MAIN, None, MainBlocked(s)), script)
    ensures r.mode == m
    ensures r.verdict == Completed && MainBlocked(r.state) ==> NextAfter(r.state.queue, MAIN).None?
  {
    StandardMode(s, m, Plan(MAIN, None, MainBlocked(s)), script);
    if MainBlocked(s) {
      DeadlockOnlyWhenIdle(s, m, script);
    } else {
      MainStaysUnblocked(s, m, Plan(MAIN, None, false), script);
    }
  }

  class RunManager {
    var state: State
    var mode: Mode

    /** The main tasklet is inside a call that runs the others. */
    ghost predicate Valid()
      reads this
    {
      Placed(state) && Looping(state)
    }

    constructor (s: State)
      requires Placed(s) && Looping(s)
      ensures Valid() && state == s && mode == Mode(Standard, -1, -1, 0, false, false)
    {
      state := s;
      mode := Mode(Standard, -1, -1, 0, false, false);
    }

    /** The loop itself. */
    method Drive(plan: Plan, script: seq<Turn>) returns (switched: seq<Tid>, verdict: Verdict)
      modifies this
      ensures Trip(state, mode, switched, verdict) == Loop(old(state), old(mode), plan, script)
    {
      ghost var trip := Loop(state, mode, plan, script);
      assert script[0..] == script && forall r: Trip :: r.(switched := [] + r.switched) == r;
      switched, verdict := [], Completed;
      var k, runComplete := 0, false;
      while NextAfter(state.queue, plan.base).Some? && !runComplete
        invariant 0 <= k <= |script| && verdict == Completed
        invariant runComplete ==> Trip(state, mode, switched, verdict) == trip
        invariant !runComplete ==> trip == Prepended(switched, Loop(state, mode, plan, script[k..]))
        decreases |script| - k
      {
        if mode.stop {
          break;
        }
        if k == |script| {
          verdict := Cut;
          break;
        }
        var t := NextAfter(state.queue, plan.base).value;
        Iteration(state, mode, plan, script, k, t, switched);
        mode := LimitTest(mode, script[k].now);
        var end := script[k].play(state, t);
        state, switched, k := end.state, switched + [t], k + 1;
        if end.failed {
          verdict := Failed;
          return;
        }
        runComplete := Done(plan, t, state);
      }
    }

    method Run(start: Option<Tid>, script: seq<Turn>) returns (switched: seq<Tid>, verdict: Verdict)
      requires Valid() && ScriptOk(script)
      modifies this
      ensures Valid()
      ensures Trip(state, mode, switched, verdict) == Loop(old(state), old(mode), PlanFor(old(state), start), script)
    {
      LoopKeeps(state, mode, PlanFor(state, start), script);
      switched, verdict := Drive(PlanFor(state, start), script);
    }

    /** Exactly `n` switches, one if `n` is not positive, unless the queue empties or a tasklet fails
        first; afterwards the run mode is the standard one again. */
    method RunNTasklets(n: int, script: seq<Turn>) returns (switched: seq<Tid>, verdict: Verdict)
      requires Valid() && ScriptOk(script) && !mode.stop && !MainBlocked(state)
      modifies this
      ensures Valid() && mode == old(mode).(runType := Standard, stop := false, taskletLimit := -1)
      ensures |switched| <= Quota(n)
      ensures verdict == Completed ==> |switched| == Quota(n) || state.queue == [MAIN]
      ensures verdict == Cut ==> |script| < Quota(n)
    {
      mode := mode.(taskletLimit := n, runType := TaskletLimited);
      CountedRun(state, mode, script);
      ModeOutline(state, mode, PlanFor(state, None), script);
      switched, verdict := Run(None, script);
      NothingNext(state);
      mode := mode.(runType := Standard, stop := false, taskletLimit := -1);
    }

    /** At least one switch if there is something to run and at most two at or after the deadline;
        afterwards the run mode is the standard one again. */
    method RunTaskletsForTime(timeout: int, now: int, script: seq<Turn>) returns (switched: seq<Tid>, verdict: Verdict)
      requires Valid() && ScriptOk(script) && Monotone(script) && !mode.stop && !MainBlocked(state)
      modifies this
      ensures Valid() && mode.runType == Standard && !mode.stop && mode.taskletLimit == -1 && mode.timeLimit == -1
      ensures |switched| <= |script|
      ensures forall k :: 0 <= k < |switched| && script[k].now - now >= timeout ==> |switched| <= k + 2
      ensures forall k :: 0 <= k < |script| && script[k].now - now < timeout ==>
                verdict == Completed && |switched| < k + 3 ==> state.queue == [MAIN]
      ensures old(state).queue != [MAIN] && script != [] ==> switched != []
    {
      NothingNext(state);
      mode := mode.(timeLimit := timeout, skipped := false, runType := TimeLimited, startTime := now);
      ghost var m := mode;
      TimedRun(state, mode, script);
      LoopLength(state, mode, PlanFor(state, None), script);
      switched, verdict := Run(None, script);
      NothingNext(state);
      assert forall k :: 0 <= k < |script| ==> (Late(m, script[k]) <==> script[k].now - now >= timeout);
      mode := mode.(runType := Standard, stop := false, taskletLimit := -1, timeLimit := -1);
    }

    /** `Yield` called by the main tasklet. It succeeds exactly if the run completed and left the main
        tasklet unblocked (`UnblockedByLastTurn` says how such a run ends), and fails because a
        tasklet failed, or because the main tasklet is still blocked with nothing left to run.
        `None` means that the script ended first. */
    method Yield(script: seq<Turn>) returns (ok: Option<bool>, switched: seq<Tid>)
      requires Valid() && ScriptOk(script) && mode.runType == Standard && !mode.stop
      modifies this
      ensures Valid() && mode == old(mode)
      ensures MainBlocked(old(state)) && old(state).queue == [MAIN] ==> ok == Some(false) && switched == []
      ensures !MainBlocked(old(state)) || old(state).queue != [MAIN] ==>
                var r := Loop(old(state), mode, Plan(MAIN, None, MainBlocked(old(state))), script);
                && state == r.state && switched == r.switched && (ok == None <==> r.verdict == Cut)
                && (ok == Some(true) <==> r.verdict == Completed && !MainBlocked(state))
                && (ok == Some(false) ==> r.verdict == Failed || (MainBlocked(state) && state.queue == [MAIN]))
    {
      if MainBlocked(state) && |state.queue| == 1 {
        return Some(false), [];
      }
      var verdict;
      YieldOutcome(state, mode, script, Loop(state, mode, PlanFor(state, None), script));
      switched, verdict := Run(None, script);
      NothingNext(state);
      ok := if verdict == Cut then None else Some(verdict == Completed && !MainBlocked(state));
    }

    /** The rest of the main tasklet's call: afterwards the main tasklet is on no blocked list and
        not flagged as blocked, whether the call succeeded or not. */
    method ReturnToMain(ok: bool)
      requires Valid() && (ok ==> !MainBlocked(state))
      modifies this`state
      ensures Placed(state) && state.current == MAIN && Running(state)
      ensures old(state).queue == state.queue && !MainBlocked(state)
      ensures forall c :: c in state.channels ==>
                MAIN !in state.channels[c].senders && MAIN !in state.channels[c].receivers
    {
      ghost var s0 := state;
      MainReturnPlaced(state, ok);
      ResumeEffect(state, MAIN, ok);
      state := Resume(state, MAIN, ok);
      MainReturned(s0, ok, state);
    }
  }

  lemma {:induction false} StandardMode(s: State, m: Mode, p: Plan, script: seq<Turn>)
    requires m.runType == Standard
    ensures Loop(s, m, p, script).mode == m
    decreases |script|
  {
    var next := NextAfter(s.queue, p.base);
    if next.Some? && !m.stop && script != [] {
      StandardMode(script[0].play(s, next.value).state, m, p, script[1..]);
    }
  }

  /** A counted run changes the counter and the stop flag only. */
  lemma {:induction false} ModeOutline(s: State, m: Mode, p: Plan, script: seq<Turn>)
    requires m.runType == TaskletLimited
    ensures var m' := Loop(s, m, p, script).mode; m'.(taskletLimit := m.taskletLimit, stop := m.stop) == m
    decreases |script|
  {
    var next := NextAfter(s.queue, p.base);
    if next.Some? && !m.stop && script != [] {
      ModeOutline(script[0].play(s, next.value).state, LimitTest(m, script[0].now), p, script[1..]);
    }
  }
}
