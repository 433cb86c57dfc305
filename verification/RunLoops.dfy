/** The loop of `Run`, entered from the main tasklet, as a function of what the tasklets do. */
module RunLoops {
  import opened Options
  import opened Lists
  import opened Scheduler
  import opened SchedulerInvariant
  import opened SchedulerEffects
  import opened SchedulerPlacement
  import opened SchedulerOrder
  import opened Turns

  datatype RunType = Standard | TimeLimited | TaskletLimited

  /** The run-mode fields of the schedule manager; `skipped` is `m_firstTimeLimitTestSkipped`. */
  datatype Mode = Mode(runType: RunType, taskletLimit: int, timeLimit: int, startTime: int, skipped: bool, stop: bool)

  /** The limit test that precedes every switch. */
  function LimitTest(m: Mode, now: int): Mode {
    match m.runType
    case Standard => m
    case TaskletLimited =>
      var left := if m.taskletLimit > 0 then m.taskletLimit - 1 else m.taskletLimit;
      m.(taskletLimit := left, stop := m.stop || left <= 0)
    case TimeLimited =>
      if now - m.startTime < m.timeLimit then m
      else if !m.skipped then m.(skipped := true) else m.(stop := true)
  }

  /** What the environment supplies for one iteration: the clock reading, and what the tasklet does
      when it is switched to. */
  datatype Turn = Turn(now: int, play: (State, Tid) -> End)

  /** Whenever the loop switches to a tasklet, it takes a turn. */
  ghost predicate PlayOk(turn: Turn) {
    forall s, t :: Switching(s, t) ==> TurnOk(s, t, turn.play(s, t))
  }

  ghost predicate ScriptOk(script: seq<Turn>) {
    forall k :: 0 <= k < |script| ==> PlayOk(script[k])
  }

  /** `Cut` means that the script ended before the loop did. */
  datatype Verdict = Completed | Failed | Cut

  datatype Trip = Trip(state: State, mode: Mode, switched: seq<Tid>, verdict: Verdict)

  /** The successor of `base`; a tasklet out of the queue has none. */
  function NextAfter(queue: seq<Tid>, base: Tid): Option<Tid> {
    if base in queue && IndexOf(queue, base) + 1 < |queue| then Some(queue[IndexOf(queue, base) + 1]) else None
  }

  predicate MainBlocked(s: State) {
    MAIN in s.tasklets && s.tasklets[MAIN].blockedOn.Some?
  }

  /** Which runs are in progress: `base` precedes the tasklets to run, `end` is the last of them if
      known, and `untilUnblocked` makes the loop stop once the main tasklet is unblocked. */
  datatype Plan = Plan(base: Tid, end: Option<Tid>, untilUnblocked: bool)

  function PlanFor(s: State, start: Option<Tid>): Plan
    requires s.queue != []
  {
    match start
    case None => Plan(MAIN, None, MainBlocked(s))
    case Some(t) =>
      var base := if t in s.queue && IndexOf(s.queue, t) > 0 then s.queue[IndexOf(s.queue, t) - 1] else MAIN;
      Plan(base, Some(s.queue[|s.queue| - 1]), MainBlocked(s))
  }

  predicate Done(p: Plan, t: Tid, s: State) {
    (p.untilUnblocked && !MainBlocked(s)) || p.end == Some(t)
  }

  function Loop(s: State, m: Mode, p: Plan, script: seq<Turn>): Trip
    decreases |script|
  {
    var next := NextAfter(s.queue, p.base);
    if next.None? || m.stop then Trip(s, m, [], Completed)
    else if script == [] then Trip(s, m, [], Cut)
    else
      var t := next.value;
      var m1 := LimitTest(m, script[0].now);
      var e := script[0].play(s, t);
      if e.failed then Trip(e.state, m1, [t], Failed)
      else if Done(p, t, e.state) then Trip(e.state, m1, [t], Completed)
      else
        var rest := Loop(e.state, m1, p, script[1..]);
        rest.(switched := [t] + rest.switched)
  }

  // ---- Every run keeps the invariant ----

  lemma NextCanRun(s: State, base: Tid)
    requires Placed(s) && Looping(s) && NextAfter(s.queue, base).Some?
    ensures Switching(s, NextAfter(s.queue, base).value)
  {}

  lemma PlayKeeps(s: State, t: Tid, turn: Turn)
    requires PlayOk(turn) && Switching(s, t)
    ensures var e := turn.play(s, t); Placed(e.state) && Looping(e.state)
  {
    TurnKeeps(s, t, turn.play(s, t));
  }

  /** One iteration in which the run goes on. */
  lemma Unroll(s: State, m: Mode, p: Plan, script: seq<Turn>, t: Tid)
    requires NextAfter(s.queue, p.base) == Some(t) && !m.stop && script != []
    requires var e := script[0].play(s, t); !e.failed && !Done(p, t, e.state)
    ensures var rest := Loop(script[0].play(s, t).state, LimitTest(m, script[0].now), p, script[1..]);
            Loop(s, m, p, script) == rest.(switched := [t] + rest.switched)
  {}

  lemma {:induction false} LoopKeeps(s: State, m: Mode, p: Plan, script: seq<Turn>)
    requires Placed(s) && Looping(s) && ScriptOk(script)
    ensures var r := Loop(s, m, p, script); Placed(r.state) && Looping(r.state)
    decreases |script|
  {
    var next := NextAfter(s.queue, p.base);
    if next.Some? && !m.stop && script != [] {
      var (t, e) := (next.value, script[0].play(s, next.value));
      NextCanRun(s, p.base);
      PlayKeeps(s, t, script[0]);
      if !e.failed && !Done(p, t, e.state) {
        Unroll(s, m, p, script, t);
        LoopKeeps(e.state, LimitTest(m, script[0].now), p, script[1..]);
      }
    }
  }

  /** The state after `j` turns of the run. */
  function After(s: State, m: Mode, p: Plan, script: seq<Turn>, j: nat): (r: Trip)
    requires j <= |script|
  {
    Loop(s, m, p, script[..j])
  }

  lemma AfterUnroll(s: State, m: Mode, p: Plan, script: seq<Turn>, t: Tid, j: nat)
    requires NextAfter(s.queue, p.base) == Some(t) && !m.stop && 0 < j <= |script|
    requires var e := script[0].play(s, t); !e.failed && !Done(p, t, e.state)
    ensures var rest := After(script[0].play(s, t).state, LimitTest(m, script[0].now), p, script[1..], j - 1);
            After(s, m, p, script, j) == rest.(switched := [t] + rest.switched)
  {
    assert script[..j][0] == script[0] && script[..j][1..] == script[1..][..j - 1];
    Unroll(s, m, p, script[..j], t);
  }

  /** A run turn by turn. Before each turn the run was still going; the tasklet switched to is the one
      behind `base` at that moment; the run goes on from where the turn leaves it, and ends with the
      first turn that fails, or after which the plan is done, the queue behind `base` is empty or the
      limit has been reached. */
  lemma {:induction false} TurnByTurn(s: State, m: Mode, p: Plan, script: seq<Turn>, r: Trip, j: nat)
    requires r == Loop(s, m, p, script) && j < |r.switched| && j < |script|
    ensures var (before, t, last) := (After(s, m, p, script, j), r.switched[j], j + 1 == |r.switched|);
            && before.verdict == Cut && before.switched == r.switched[..j] && !before.mode.stop
            && NextAfter(before.state.queue, p.base) == Some(t)
            && var e := script[j].play(before.state, t);
               && (e.failed <==> last && r.verdict == Failed)
               && (if last then r.state == e.state && r.mode == LimitTest(before.mode, script[j].now)
                   else !Done(p, t, e.state))
               && (last && r.verdict == Completed && !Done(p, t, e.state) ==>
                     r.mode.stop || NextAfter(r.state.queue, p.base).None?)
    decreases |script|
  {
    var t := NextAfter(s.queue, p.base).value;
    var (m1, e) := (LimitTest(m, script[0].now), script[0].play(s, t));
    if e.failed || Done(p, t, e.state) {
      assert script[..j] == [];
    } else {
      var rest := Loop(e.state, m1, p, script[1..]);
      Unroll(s, m, p, script, t);
      if j == 0 {
        assert script[..0] == [];
      } else {
        AfterUnroll(s, m, p, script, t, j);
        TurnByTurn(e.state, m1, p, script[1..], rest, j - 1);
        assert script[1..][j - 1] == script[j] && rest.switched[..j - 1] == r.switched[1..j];
        assert r.switched[..j] == [t] + r.switched[1..j];
      }
    }
  }

  // ---- Bounded runs ----

  /** Every tasklet only finishes, schedules, blocks, spawns, inserts or kills: nobody is reordered. */
  ghost predicate Appends(s: State, t: Tid, e: End)
    requires Switching(s, t)
  {
    exists acts :: AppendingTurn(s, t, acts, e)
  }

  ghost predicate PlayAppends(turn: Turn) {
    forall s, t :: Switching(s, t) ==> Appends(s, t, turn.play(s, t))
  }

  ghost predicate AppendsOnly(script: seq<Turn>) {
    forall k :: 0 <= k < |script| ==> PlayAppends(script[k])
  }

  lemma AppendsKeep(s: State, t: Tid, e: End)
    requires Switching(s, t) && Appends(s, t, e)
    ensures !e.failed && Placed(e.state) && Looping(e.state) && Without(s.queue, t) <= e.state.queue
  {
    var acts :| AppendingTurn(s, t, acts, e);
    TurnAppends(s, t, acts, e);
    assert TurnOk(s, t, e);
    TurnKeeps(s, t, e);
  }

  /** The simplest turn: the tasklet finishes at once. Scripts of such turns are admissible. */
  ghost function FinishingTurn(now: int): Turn {
    Turn(now, (s: State, t: Tid) => if Switching(s, t) then Finished(s, t) else End(s, false))
  }

  ghost function Finished(s: State, t: Tid): End
    requires Switching(s, t)
  {
    var s1 := Act(s, DoSwitch(t));
    End(if s1.current == t then Act(s1, DoFinish) else s1, false)
  }

  lemma FinishedOk(s: State, t: Tid)
    requires Switching(s, t)
    ensures TurnOk(s, t, Finished(s, t)) && Appends(s, t, Finished(s, t))
  {
    var s1 := Act(s, DoSwitch(t));
    SwitchQueue(s, t, s1);
    var acts := if s1.current == t then [DoFinish] else [];
    FinishActs(s1, t, acts, Finished(s, t).state);
    assert AppendingTurn(s, t, acts, Finished(s, t));
  }

  lemma FinishActs(s: State, t: Tid, acts: seq<Action>, s': State)
    requires Placed(s) && t != MAIN && (s.current == t || s.current == MAIN)
    requires acts == (if s.current == t then [DoFinish] else [])
    requires s' == (if s.current == t then Act(s, DoFinish) else s)
    ensures Acts(s, t, acts, s') && AllAppending(s, t, acts)
  {
    if s.current == t {
      FinishEffect(s);
      assert acts[1..] == [];
      assert Acts(s', t, [], s') && AllAppending(s', t, []);
    }
  }

  lemma FinishingScriptOk(n: nat)
    ensures var script := seq(n, i requires 0 <= i < n => FinishingTurn(i));
            ScriptOk(script) && AppendsOnly(script) && Monotone(script)
  {
    forall now: int ensures PlayOk(FinishingTurn(now)) && PlayAppends(FinishingTurn(now)) {
      forall s, t | Switching(s, t)
        ensures TurnOk(s, t, FinishingTurn(now).play(s, t)) && Appends(s, t, FinishingTurn(now).play(s, t))
      {
        FinishedOk(s, t);
      }
    }
  }

  lemma NextInMiddle(pre: seq<Tid>, x: Tid, post: seq<Tid>)
    requires pre != [] && Distinct(pre + [x] + post)
    ensures NextAfter(pre + [x] + post, pre[|pre| - 1]) == Some(x)
  {
    var q := pre + [x] + post;
    assert q[|pre| - 1] == pre[|pre| - 1];
    IndexUnique(q, |pre| - 1);
  }

  /** As far as the queue is concerned: every turn of the run only appends. */
  ghost predicate Orderly(s: State, p: Plan, script: seq<Turn>)
    decreases |script|
  {
    Distinct(s.queue)
    && (NextAfter(s.queue, p.base).Some? && script != [] ==>
          var t := NextAfter(s.queue, p.base).value;
          var e := script[0].play(s, t);
          !e.failed && Without(s.queue, t) <= e.state.queue && Orderly(e.state, p, script[1..]))
  }

  lemma {:induction false} AppendingIsOrderly(s: State, p: Plan, script: seq<Turn>)
    requires Placed(s) && Looping(s) && AppendsOnly(script)
    ensures Orderly(s, p, script)
    decreases |script|
  {
    if NextAfter(s.queue, p.base).Some? && script != [] {
      var t := NextAfter(s.queue, p.base).value;
      NextCanRun(s, p.base);
      assert PlayAppends(script[0]) && Appends(s, t, script[0].play(s, t));
      AppendsKeep(s, t, script[0].play(s, t));
      AppendingIsOrderly(script[0].play(s, t).state, p, script[1..]);
    }
  }

  /** `Run(start)` over turns that only append: with `pre` before `start`, `due` from `start` to
      the tail and `late` appended since, exactly the tasklets of `due` are switched to. */
  lemma {:induction false} OrderlyRun(s: State, m: Mode, p: Plan, script: seq<Turn>, pre: seq<Tid>, due: seq<Tid>,
                                      late: seq<Tid>)
    requires Orderly(s, p, script) && m.runType == Standard && !m.stop
    requires pre != [] && due != [] && s.queue == pre + due + late && |script| >= |due|
    requires p == Plan(pre[|pre| - 1], Some(due[|due| - 1]), false)
    ensures var r := Loop(s, m, p, script);
            r.verdict == Completed && r.switched == due && r.mode == m && pre + late <= r.state.queue
    decreases |script|
  {
    if |due| == 1 {
      OrderlyLast(s, m, p, script, pre, due, late);
    } else {
      var (t, e) := (due[0], script[0].play(s, due[0]));
      var late' := DueFirst(s.queue, e.state.queue, pre, due, late);
      OrderlyTurn(s, p, script, t);
      LastDiffers(pre, due, late);
      Unroll(s, m, p, script, t);
      OrderlyRun(e.state, m, p, script[1..], pre, due[1..], late');
      assert due == [t] + due[1..];
    }
  }

  lemma OrderlyLast(s: State, m: Mode, p: Plan, script: seq<Turn>, pre: seq<Tid>, due: seq<Tid>, late: seq<Tid>)
    requires Orderly(s, p, script) && !m.stop && m.runType == Standard && script != []
    requires pre != [] && |due| == 1 && s.queue == pre + due + late && p == Plan(pre[|pre| - 1], Some(due[0]), false)
    ensures var r := Loop(s, m, p, script);
            r.verdict == Completed && r.switched == due && r.mode == m && pre + late <= r.state.queue
  {
    var _ := DueFirst(s.queue, script[0].play(s, due[0]).state.queue, pre, due, late);
    OrderlyTurn(s, p, script, due[0]);
  }

  lemma OrderlyTurn(s: State, p: Plan, script: seq<Turn>, t: Tid)
    requires Orderly(s, p, script) && NextAfter(s.queue, p.base) == Some(t) && script != []
    ensures var e := script[0].play(s, t);
            !e.failed && Without(s.queue, t) <= e.state.queue && Orderly(e.state, p, script[1..])
  {}

  /** The first tasklet due comes next; once it has gone, what is left is still in place. */
  lemma DueFirst(q: seq<Tid>, q': seq<Tid>, pre: seq<Tid>, due: seq<Tid>, late: seq<Tid>) returns (late': seq<Tid>)
    requires Distinct(q) && pre != [] && due != [] && q == pre + due + late
    ensures NextAfter(q, pre[|pre| - 1]) == Some(due[0])
    ensures Without(q, due[0]) <= q' ==> q' == pre + due[1..] + late' && pre + late <= pre + late'
    ensures Without(q, due[0]) <= q' && |due| == 1 ==> pre + late <= q'
  {
    var (t, behind) := (due[0], due[1..] + late);
    assert pre + due + late == pre + [t] + behind;
    NextInMiddle(pre, t, behind);
    WithoutMiddle(pre, t, behind);
    late' := late;
    if pre + behind <= q' {
      late' := late + q'[|pre + behind|..];
      assert q' == pre + due[1..] + late';
      assert |due| == 1 ==> behind == late;
    }
  }

  lemma PlanAt(s: State, pre: seq<Tid>, due: seq<Tid>)
    requires s.queue == pre + due && pre != [] && due != [] && Distinct(s.queue)
    ensures PlanFor(s, Some(due[0])) == Plan(pre[|pre| - 1], Some(due[|due| - 1]), MainBlocked(s))
  {
    assert s.queue[|pre|] == due[0];
    IndexUnique(s.queue, |pre|);
  }

  /** Part of the way through the run: after `pre` come the tasklets still due, in order, and then
      whatever has been appended; all of the latter is in the final queue, right behind `pre`. */
  predicate Midway(mid: seq<Tid>, pre: seq<Tid>, due: seq<Tid>, final: seq<Tid>) {
    pre + due <= mid && pre + mid[|pre| + |due|..] <= final
  }

  /** In a run from a tasklet of the queue whose tasklets reorder nobody, exactly those from it to
      the tail at entry are switched to, once each and in order; the ones before are untouched, and
      everything appended meanwhile stays queued behind them, in order. */
  lemma BoundedRun(s: State, m: Mode, pre: seq<Tid>, due: seq<Tid>, script: seq<Turn>)
    requires Placed(s) && Looping(s) && !MainBlocked(s) && AppendsOnly(script) && m.runType == Standard && !m.stop
    requires s.queue == pre + due && pre != [] && due != [] && |script| >= |due|
    ensures var p := PlanFor(s, Some(due[0]));
            var r := Loop(s, m, p, script);
            && r.verdict == Completed && r.switched == due && r.mode == m && pre <= r.state.queue
            && forall j :: 0 <= j <= |due| ==>
                 Midway(After(s, m, p, script, j).state.queue, pre, due[j..], r.state.queue)
  {
    PlanAt(s, pre, due);
    var p := PlanFor(s, Some(due[0]));
    AppendingIsOrderly(s, p, script);
    OrderlyFrom(s, m, pre, due, script, p);
  }

  lemma {:induction false} OrderlyMidway(
      s: State, m: Mode, p: Plan, script: seq<Turn>, pre: seq<Tid>, due: seq<Tid>, late: seq<Tid>, j: nat)
    requires Orderly(s, p, script) && m.runType == Standard && !m.stop
    requires pre != [] && due != [] && s.queue == pre + due + late && j <= |due| <= |script|
    requires p == Plan(pre[|pre| - 1], Some(due[|due| - 1]), false)
    ensures Midway(After(s, m, p, script, j).state.queue, pre, due[j..], Loop(s, m, p, script).state.queue)
    decreases |script|
  {
    OrderlyRun(s, m, p, script, pre, due, late);
    if j == 0 {
      MidwayAtStart(s, m, p, script, pre, due, late);
    } else if |due| == 1 {
      MidwayAtEnd(s, m, p, script, pre, due, late);
    } else {
      var (t, e) := (due[0], script[0].play(s, due[0]));
      var late' := DueFirst(s.queue, e.state.queue, pre, due, late);
      OrderlyTurn(s, p, script, t);
      LastDiffers(pre, due, late);
      Unroll(s, m, p, script, t);
      AfterUnroll(s, m, p, script, t, j);
      OrderlyMidway(e.state, m, p, script[1..], pre, due[1..], late', j - 1);
      assert due[1..][j - 1..] == due[j..];
    }
  }

  lemma MidwayAtStart(s: State, m: Mode, p: Plan, script: seq<Turn>, pre: seq<Tid>, due: seq<Tid>, late: seq<Tid>)
    requires s.queue == pre + due + late && pre + late <= Loop(s, m, p, script).state.queue
    ensures Midway(After(s, m, p, script, 0).state.queue, pre, due[0..], Loop(s, m, p, script).state.queue)
  {
    assert script[..0] == [] && due[0..] == due;
    assert After(s, m, p, script, 0).state == s;
    assert (pre + due + late)[|pre| + |due|..] == late;
  }

  lemma MidwayAtEnd(s: State, m: Mode, p: Plan, script: seq<Turn>, pre: seq<Tid>, due: seq<Tid>, late: seq<Tid>)
    requires Orderly(s, p, script) && !m.stop && m.runType == Standard && script != []
    requires pre != [] && |due| == 1 && s.queue == pre + due + late && p == Plan(pre[|pre| - 1], Some(due[0]), false)
    ensures Midway(After(s, m, p, script, 1).state.queue, pre, due[1..], Loop(s, m, p, script).state.queue)
  {
    var final := script[0].play(s, due[0]).state.queue;
    var _ := DueFirst(s.queue, final, pre, due, late);
    OrderlyTurn(s, p, script, due[0]);
    assert script[..1][0] == script[0];
    assert After(s, m, p, script, 1).state == script[0].play(s, due[0]).state == Loop(s, m, p, script).state;
    assert pre <= final && due[1..] == [] && pre + [] == pre;
    assert pre + final[|pre|..] == final;
  }

  lemma OrderlyFrom(s: State, m: Mode, pre: seq<Tid>, due: seq<Tid>, script: seq<Turn>, p: Plan)
    requires Orderly(s, p, script) && m.runType == Standard && !m.stop && s.queue == pre + due
    requires pre != [] && due != [] && |script| >= |due| && p == Plan(pre[|pre| - 1], Some(due[|due| - 1]), false)
    ensures var r := Loop(s, m, p, script);
            && r.verdict == Completed && r.switched == due && r.mode == m && pre <= r.state.queue
            && forall j :: 0 <= j <= |due| ==>
                 Midway(After(s, m, p, script, j).state.queue, pre, due[j..], r.state.queue)
  {
    assert pre + due + [] == pre + due && pre + [] == pre;
    OrderlyRun(s, m, p, script, pre, due, []);
    forall j | 0 <= j <= |due|
      ensures Midway(After(s, m, p, script, j).state.queue, pre, due[j..], Loop(s, m, p, script).state.queue)
    {
      OrderlyMidway(s, m, p, script, pre, due, [], j);
    }
  }

  lemma LastDiffers(pre: seq<Tid>, due: seq<Tid>, late: seq<Tid>)
    requires Distinct(pre + due + late) && |due| > 1
    ensures due[0] != due[|due| - 1]
  {
    var q := pre + due + late;
    assert q[|pre|] == due[0] && q[|pre| + |due| - 1] == due[|due| - 1];
  }

  // ---- Limited runs ----

  function Quota(n: int): nat {
    if n <= 1 then 1 else n
  }

  /** A run limited to `n` tasklets makes exactly `n` switches, or one if `n` is not positive,
      unless the queue empties or a tasklet fails first. */
  lemma {:induction false} CountedRun(s: State, m: Mode, script: seq<Turn>)
    requires m.runType == TaskletLimited && !m.stop
    ensures var r := Loop(s, m, Plan(MAIN, None, false), script);
            && |r.switched| <= Quota(m.taskletLimit)
            && (r.verdict == Completed ==>
                  |r.switched| == Quota(m.taskletLimit) || NextAfter(r.state.queue, MAIN).None?)
            && (r.verdict == Cut ==> |script| < Quota(m.taskletLimit))
    decreases |script|
  {
    var p := Plan(MAIN, None, false);
    var next := NextAfter(s.queue, MAIN);
    if next.Some? && script != [] {
      var (e, m1) := (script[0].play(s, next.value), LimitTest(m, script[0].now));
      if !e.failed {
        if m1.stop {
          assert Loop(e.state, m1, p, script[1..]).switched == [];
        } else {
          CountedRun(e.state, m1, script[1..]);
        }
      }
    }
  }

  predicate Late(m: Mode, turn: Turn) {
    turn.now - m.startTime >= m.timeLimit
  }

  /** The clock never goes back. */
  predicate Monotone(script: seq<Turn>) {
    forall i, j :: 0 <= i < j < |script| ==> script[i].now <= script[j].now
  }

  /** A time-limited run makes at most two switches at or after the deadline, at most one if it has
      seen a late reading before, stops early only when the queue is empty, and always makes one
      switch when there is something to run. */
  lemma {:induction false} TimedRun(s: State, m: Mode, script: seq<Turn>)
    requires m.runType == TimeLimited && !m.stop && Monotone(script)
    ensures var r := Loop(s, m, Plan(MAIN, None, false), script);
            var grace := if m.skipped then 1 else 2;
            && (forall k :: 0 <= k < |r.switched| && k < |script| && Late(m, script[k]) ==> |r.switched| <= k + grace)
            && (forall k :: 0 <= k < |script| && !Late(m, script[k]) ==>
                  r.verdict == Completed && |r.switched| < k + 1 + grace ==> NextAfter(r.state.queue, MAIN).None?)
            && (NextAfter(s.queue, MAIN).Some? && script != [] ==> r.switched != [])
    decreases |script|
  {
    var p := Plan(MAIN, None, false);
    var next := NextAfter(s.queue, MAIN);
    if next.Some? && script != [] {
      var (e, m1) := (script[0].play(s, next.value), LimitTest(m, script[0].now));
      var r := Loop(s, m, p, script);
      if !e.failed {
        var rest := Loop(e.state, m1, p, script[1..]);
        assert r.switched == [next.value] + rest.switched && r.state == rest.state && r.verdict == rest.verdict;
        assert forall k :: 0 < k < |script| ==> script[k] == script[1..][k - 1];
        if m1.stop {
          assert rest.switched == [];
        } else {
          TimedRun(e.state, m1, script[1..]);
        }
      }
    }
  }

  // ---- The main tasklet waits ----

  lemma {:induction false} BlockedBeforeEachTurn(s: State, m: Mode, script: seq<Turn>, j: nat)
    requires MainBlocked(s) && m.runType == Standard && !m.stop
    requires j < |Loop(s, m, Plan(MAIN, None, true), script).switched| && j < |script|
    ensures var p := Plan(MAIN, None, true);
            var (r, before) := (Loop(s, m, p, script), After(s, m, p, script, j));
            && MainBlocked(before.state) && before.switched == r.switched[..j] && before.verdict == Cut
            && NextAfter(before.state.queue, MAIN) == Some(r.switched[j])
            && (j + 1 == |r.switched| ==> r.state == script[j].play(before.state, r.switched[j]).state)
    decreases |script|
  {
    var p := Plan(MAIN, None, true);
    var t := NextAfter(s.queue, MAIN).value;
    var e := script[0].play(s, t);
    if !e.failed && !Done(p, t, e.state) {
      Unroll(s, m, p, script, t);
      if j > 0 {
        AfterUnroll(s, m, p, script, t, j);
        BlockedBeforeEachTurn(e.state, m, script[1..], j - 1);
      } else if |Loop(s, m, p, script).switched| == 1 {
        NothingMore(e.state, m, p, script[1..]);
      }
    }
  }

  /** In its turn `t` makes the call that matches the one the main tasklet waits in. */
  ghost predicate ReleasesMain(s: State, turn: Turn, t: Tid) {
    && MainBlocked(s) && Switching(s, t)
    && exists acts :: TurnBy(s, t, acts, turn.play(s, t))
                   && ReleaseWithin(Act(s, DoSwitch(t)), t, acts, s.tasklets[MAIN].blockedOn.value)
  }

  lemma LastTurnReleases(s: State, turn: Turn, t: Tid)
    requires Placed(s) && Looping(s) && PlayOk(turn) && MainBlocked(s) && NextAfter(s.queue, MAIN) == Some(t)
    requires !MainBlocked(turn.play(s, t).state)
    ensures ReleasesMain(s, turn, t)
  {
    NextCanRun(s, MAIN);
    var e := turn.play(s, t);
    assert TurnOk(s, t, e);
    var acts :| TurnBy(s, t, acts, e);
    TurnKeeps(s, t, e);
    TurnReleases(s, t, acts, e);
  }

  /** The run as it was before the last of its `n` turns. */
  function BeforeLast(s: State, m: Mode, script: seq<Turn>, n: nat): State {
    if 0 < n <= |script| then After(s, m, Plan(MAIN, None, true), script, n - 1).state else s
  }

  lemma BeforeLastFacts(s: State, m: Mode, script: seq<Turn>, r: Trip, before: State)
    requires MainBlocked(s) && m.runType == Standard && !m.stop
    requires r == Loop(s, m, Plan(MAIN, None, true), script) && !MainBlocked(r.state)
    requires before == BeforeLast(s, m, script, |r.switched|)
    ensures 0 < |r.switched| <= |script|
    ensures MainBlocked(before) && NextAfter(before.queue, MAIN) == Some(r.switched[|r.switched| - 1])
    ensures !MainBlocked(script[|r.switched| - 1].play(before, r.switched[|r.switched| - 1]).state)
  {
    var p := Plan(MAIN, None, true);
    LoopLength(s, m, p, script);
    if r.switched == [] {
      NothingMore(s, m, p, script);
    } else {
      BlockedBeforeEachTurn(s, m, script, |r.switched| - 1);
    }
  }

  lemma AfterPlaced(s: State, m: Mode, p: Plan, script: seq<Turn>, j: nat, s': State)
    requires Placed(s) && Looping(s) && ScriptOk(script) && j <= |script| && s' == After(s, m, p, script, j).state
    ensures Placed(s') && Looping(s')
  {
    LoopKeeps(s, m, p, script[..j]);
  }

  /** A run entered with the main tasklet blocked that unblocks it: the main tasklet is blocked
      before the last turn, so nobody runs after it has been unblocked, and that turn contains the
      call that matches the one the main tasklet waits in. */
  lemma UnblockedByLastTurn(s: State, m: Mode, script: seq<Turn>, r: Trip, before: State)
    requires Placed(s) && Looping(s) && ScriptOk(script) && MainBlocked(s) && m.runType == Standard && !m.stop
    requires r == Loop(s, m, Plan(MAIN, None, true), script) && !MainBlocked(r.state)
    requires before == BeforeLast(s, m, script, |r.switched|)
    ensures 0 < |r.switched| <= |script|
    ensures ReleasesMain(before, script[|r.switched| - 1], r.switched[|r.switched| - 1])
  {
    BeforeLastFacts(s, m, script, r, before);
    AfterPlaced(s, m, Plan(MAIN, None, true), script, |r.switched| - 1, before);
    LastTurnReleases(before, script[|r.switched| - 1], r.switched[|r.switched| - 1]);
  }

  lemma {:induction false} LoopLength(s: State, m: Mode, p: Plan, script: seq<Turn>)
    ensures |Loop(s, m, p, script).switched| <= |script|
    decreases |script|
  {
    var next := NextAfter(s.queue, p.base);
    if next.Some? && !m.stop && script != [] {
      LoopLength(script[0].play(s, next.value).state, LimitTest(m, script[0].now), p, script[1..]);
    }
  }

  lemma NothingMore(s: State, m: Mode, p: Plan, script: seq<Turn>)
    requires Loop(s, m, p, script).switched == []
    ensures Loop(s, m, p, script).state == s
  {}

  /** Nobody else blocks the main tasklet. */
  lemma {:induction false} MainStaysUnblocked(s: State, m: Mode, p: Plan, script: seq<Turn>)
    requires Placed(s) && Looping(s) && ScriptOk(script) && !MainBlocked(s)
    ensures !MainBlocked(Loop(s, m, p, script).state)
    decreases |script|
  {
    var next := NextAfter(s.queue, p.base);
    if next.Some? && !m.stop && script != [] {
      var (t, e) := (next.value, script[0].play(s, next.value));
      NextCanRun(s, p.base);
      PlayKeepsMain(s, t, script[0], e.state);
      if !e.failed && !Done(p, t, e.state) {
        Unroll(s, m, p, script, t);
        MainStaysUnblocked(e.state, LimitTest(m, script[0].now), p, script[1..]);
      }
    }
  }

  lemma PlayKeepsMain(s: State, t: Tid, turn: Turn, s': State)
    requires PlayOk(turn) && Switching(s, t) && s' == turn.play(s, t).state
    ensures Placed(s') && Looping(s') && MainWaits(s, s')
  {
    TurnKeeps(s, t, turn.play(s, t));
  }

  /** While the main tasklet stays blocked the run ends only when there is nothing left to run. */
  lemma {:induction false} DeadlockOnlyWhenIdle(s: State, m: Mode, script: seq<Turn>)
    requires MainBlocked(s) && m.runType == Standard && !m.stop
    ensures var r := Loop(s, m, Plan(MAIN, None, true), script);
            r.verdict == Completed && MainBlocked(r.state) ==> NextAfter(r.state.queue, MAIN).None?
    decreases |script|
  {
    var (p, next) := (Plan(MAIN, None, true), NextAfter(s.queue, MAIN));
    if next.Some? && script != [] {
      var e := script[0].play(s, next.value);
      if !e.failed && !Done(p, next.value, e.state) {
        Unroll(s, m, p, script, next.value);
        DeadlockOnlyWhenIdle(e.state, m, script[1..]);
      }
    }
  }
}
