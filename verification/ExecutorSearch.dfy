/** What a search for a runnable finds when nobody interferes: the runner's own queue comes first, then
    the global queue, then the queues of the other runners. */
module ExecutorSearch {
  import opened Options
  import opened Executor
  import opened ExecutorInvariant
  import opened ExecutorStealing

  predicate Searching(pc: Pc) {
    pc.Search? || pc.SearchGlobal? || pc.SearchOthers? || (Stealing(pc) && !pc.why.OnTick?)
  }

  /** Apart from program counters and history, `s'` is `s`. */
  predicate Like(s: State, s': State, p: Pid)
    requires p < |s.procs|
  {
    && |s'.procs| == |s.procs| && (forall q :: 0 <= q < |s.procs| && q != p ==> s'.procs[q] == s.procs[q])
    && s'.global == s.global && s'.procs[p].local == s.procs[p].local && s'.procs[p].hand == s.procs[p].hand
    && s'.procs[p].runner == s.procs[p].runner
  }

  // ---- The outcome ----

  /** Its own queue is not empty: the oldest of it. */
  predicate FromOwn(s: State, s': State, p: Pid)
    requires p < |s.procs| && p < |s'.procs|
  {
    var (pr, pr') := (s.procs[p], s'.procs[p]);
    && pr.local != [] && pr'.pc.Found? && pr'.hand == Some(pr.local[0]) && pr'.local == pr.local[1..]
    && s'.global == s.global
  }

  /** Its own queue is empty and the global queue is not: the oldest of it, and a runner steals half of
      what is left. */
  predicate FromGlobal(s: State, s': State, p: Pid)
    requires p < |s.procs| && p < |s'.procs|
  {
    var (pr, pr') := (s.procs[p], s'.procs[p]);
    && pr.local == [] && s.global != [] && pr'.pc.Found? && pr'.hand == Some(s.global[0])
    && var rest := s.global[1..];
       var k := if pr.runner then Share(rest, []) else 0;
       0 <= k <= |rest| && pr'.local == rest[..k] && s'.global == rest[k..]
  }

  predicate NothingGlobal(s: State, p: Pid)
    requires p < |s.procs|
  {
    s.procs[p].local == [] && s.global == []
  }

  predicate AllEmpty(s: State, vs: seq<Pid>) {
    forall v :: v in vs ==> Items(s, Victim(v)) == []
  }

  /** Both are empty: a runner steals half of the first queue in its list that is not empty, and takes the
      oldest of that. */
  ghost predicate FromVictim(s: State, s': State, p: Pid, before: seq<Pid>, v: Pid, after: seq<Pid>)
    requires p < |s.procs| && p < |s'.procs|
  {
    var (items, pr') := (Items(s, Victim(v)), s'.procs[p]);
    && NothingGlobal(s, p) && s.procs[p].runner && ScanOrder(s, p, before + [v] + after) && AllEmpty(s, before)
    && v != p && items != []
    && var k := Share(items, []);
       && 0 < k <= |items| && pr'.pc.Found? && pr'.hand == Some(items[0]) && pr'.local == items[1..k]
       && Items(s', Victim(v)) == items[k..] && s'.global == []
  }

  /** There is nothing anywhere it looks, so it goes to sleep. */
  ghost predicate FindsNothing(s: State, s': State, p: Pid, others: seq<Pid>)
    requires p < |s.procs| && p < |s'.procs|
  {
    && NothingGlobal(s, p) && s'.procs[p].pc.SleepMutate? && Like(s, s', p)
    && (s.procs[p].runner ==> ScanOrder(s, p, others) && AllEmpty(s, others))
  }

  ghost predicate Outcome(s: State, s': State, p: Pid)
    requires p < |s.procs| && p < |s'.procs|
  {
    || FromOwn(s, s', p) || FromGlobal(s, s', p)
    || (exists before, v, after :: FromVictim(s, s', p, before, v, after))
    || (exists others :: FindsNothing(s, s', p, others))
  }

  // ---- On the way ----

  /** The call of `steal` that follows the pop of the global queue. */
  ghost predicate StealsRest(s: State, s': State, p: Pid, first: State, m: nat)
    requires p < |s.procs|
  {
    && s.procs[p].local == [] && s.global != [] && s.procs[p].runner && p < |first.procs|
    && first.global == s.global[1..] && first.procs[p].local == [] && first.procs[p].hand == Some(s.global[0])
    && Underway(first, s', p, Global, m) && s'.procs[p].pc.why.AfterPop?
  }

  /** The scan has seen `seen` empty and has `rest` to look at. */
  ghost predicate Scans(s: State, s': State, p: Pid, seen: seq<Pid>, rest: seq<Pid>)
    requires p < |s.procs|
  {
    && NothingGlobal(s, p) && s.procs[p].runner && s.procs[p].hand.None? && Like(s, s', p)
    && ScanOrder(s, p, seen + rest) && AllEmpty(s, seen)
  }

  ghost predicate StealsFrom(
      s: State, s': State, p: Pid, first: State, seen: seq<Pid>, v: Pid, rest: seq<Pid>, m: nat)
    requires p < |s.procs|
  {
    && Scans(s, first, p, seen, [v] + rest) && Underway(first, s', p, Victim(v), m)
    && s'.procs[p].pc.why == Scan(rest)
  }

  ghost predicate Underneath(s: State, s': State, p: Pid)
    requires p < |s.procs| && p < |s'.procs|
  {
    var pc := s'.procs[p].pc;
    if pc.Search? then Like(s, s', p) && s.procs[p].hand.None?
    else if pc.SearchGlobal? then Like(s, s', p) && s.procs[p].hand.None? && s.procs[p].local == []
    else if pc.SearchOthers? then exists seen :: Scans(s, s', p, seen, pc.rest)
    else if Stealing(pc) && pc.why.AfterPop? then exists first, m :: StealsRest(s, s', p, first, m)
    else if Stealing(pc) && pc.why.Scan? then
      exists first, seen, v, m :: StealsFrom(s, s', p, first, seen, v, pc.why.rest, m)
    else Outcome(s, s', p)
  }

  lemma SearchGoesOn(s: State, cur: State, p: Pid)
    requires p < |s.procs| && p < |cur.procs| && cur.procs[p].pc.Search? && Underneath(s, cur, p)
    ensures var s' := SearchStep(cur, p); p < |s'.procs| && Underneath(s, s', p)
  {
    if cur.procs[p].local != [] { assert FromOwn(s, SearchStep(cur, p), p); }
  }

  lemma SameScanOrder(s: State, cur: State, p: Pid, others: seq<Pid>)
    requires p < |s.procs| && Like(s, cur, p) && ScanOrder(cur, p, others)
    ensures ScanOrder(s, p, others)
  {
    if others != [] {
      forall v: Pid ensures v in others <==> Registered(s, v) && v != p {
        assert v in others <==> Registered(cur, v) && v != p;
        if v != p && v < |s.procs| { assert cur.procs[v] == s.procs[v]; }
      }
    }
  }

  lemma GlobalGoesOn(s: State, cur: State, p: Pid, others: seq<Pid>)
    requires p < |s.procs| && p < |cur.procs| && cur.procs[p].pc.SearchGlobal? && Underneath(s, cur, p)
    requires ScanOrder(cur, p, others)
    ensures var s' := SearchGlobalStep(cur, p, others); p < |s'.procs| && Underneath(s, s', p)
  {
    var s' := SearchGlobalStep(cur, p, others);
    SameScanOrder(s, cur, p, others);
    if s.global != [] {
      if s.procs[p].runner {
        BeginsUnderway(s', p, Global);
        assert StealsRest(s, s', p, s', 0);
      } else {
        assert s.global[1..][0..] == s.global[1..];
        assert FromGlobal(s, s', p);
      }
    } else if s.procs[p].runner {
      assert [] + others == others;
      assert Scans(s, s', p, [], others);
    } else {
      assert FindsNothing(s, s', p, others);
    }
  }

  lemma OthersGoOn(s: State, cur: State, p: Pid)
    requires p < |s.procs| && p < |cur.procs| && cur.procs[p].pc.SearchOthers? && Underneath(s, cur, p)
    ensures var s' := SearchOthersStep(cur, p); p < |s'.procs| && Underneath(s, s', p)
  {
    var (rest, s') := (cur.procs[p].pc.rest, SearchOthersStep(cur, p));
    var seen :| Scans(s, cur, p, seen, rest);
    if rest == [] {
      assert seen + [] == seen;
      assert FindsNothing(s, s', p, seen);
    } else {
      assert [rest[0]] + rest[1..] == rest;
      VictimIsOther(s, p, seen, rest);
      BeginsUnderway(s', p, Victim(rest[0]));
      assert StealsFrom(s, s', p, s', seen, rest[0], rest[1..], 0);
    }
  }

  lemma VictimIsOther(s: State, p: Pid, seen: seq<Pid>, rest: seq<Pid>)
    requires ScanOrder(s, p, seen + rest) && rest != []
    ensures rest[0] != p
  {
    assert (seen + rest)[|seen|] == rest[0];
    assert rest[0] in seen + rest;
  }

  lemma ExitStep(s: State, p: Pid, s': State)
    requires p < |s.procs| && ProcStep(s, p, s') && Exits(s, p)
    ensures s' == AfterSteal(s, p, s.procs[p].pc.why)
  {}

  lemma RestDone(s: State, first: State, cur: State, p: Pid, m: nat)
    requires p < |s.procs| && StealsRest(s, cur, p, first, m) && TookHalf(first, cur, p, Global)
    ensures var s' := AfterSteal(cur, p, AfterPop); p < |s'.procs| && FromGlobal(s, s', p)
  {
    var k := Share(first.global, []);
    assert [] + first.global[..k] == first.global[..k];
  }

  lemma RestGoesOn(s: State, cur: State, p: Pid, s': State, first: State, m: nat)
    requires p < |s.procs| && StealsRest(s, cur, p, first, m) && ProcStep(cur, p, s')
    ensures p < |s'.procs| && Underneath(s, s', p)
  {
    if Exits(cur, p) {
      StealOver(first, cur, p, Global, m);
      ExitStep(cur, p, s');
      RestDone(s, first, cur, p, m);
    } else {
      var m' := StealGoesOn(first, cur, p, Global, m, s');
      assert StealsRest(s, s', p, first, m');
    }
  }

  lemma VictimGoesOn(
      s: State, cur: State, p: Pid, s': State, first: State, seen: seq<Pid>, v: Pid, rest: seq<Pid>, m: nat)
    requires p < |s.procs| && StealsFrom(s, cur, p, first, seen, v, rest, m) && ProcStep(cur, p, s')
    ensures p < |s'.procs| && Underneath(s, s', p)
  {
    if Exits(cur, p) {
      StealOver(first, cur, p, Victim(v), m);
      ExitStep(cur, p, s');
      VictimDone(s, first, cur, p, seen, v, rest, s');
    } else {
      var m' := StealGoesOn(first, cur, p, Victim(v), m, s');
      assert StealsFrom(s, s', p, first, seen, v, rest, m');
    }
  }

  lemma VictimEmpty(s: State, first: State, cur: State, p: Pid, seen: seq<Pid>, v: Pid, rest: seq<Pid>)
    requires p < |s.procs| && p < |cur.procs| && Scans(s, first, p, seen, [v] + rest) && v != p
    requires TookHalf(first, cur, p, Victim(v)) && Items(first, Victim(v)) == []
    ensures Scans(s, AfterSteal(cur, p, Scan(rest)), p, seen + [v], rest)
  {
    assert seen + [v] + rest == seen + ([v] + rest);
    assert Items(s, Victim(v)) == [];
    assert cur.procs[p].local == [] && Like(first, cur, p);
  }

  lemma VictimRobbed(s: State, first: State, cur: State, p: Pid, seen: seq<Pid>, v: Pid, rest: seq<Pid>)
    requires p < |s.procs| && p < |cur.procs| && Scans(s, first, p, seen, [v] + rest) && v != p
    requires TookHalf(first, cur, p, Victim(v)) && Items(first, Victim(v)) != []
    ensures var s' := AfterSteal(cur, p, Scan(rest)); p < |s'.procs| && FromVictim(s, s', p, seen, v, rest)
  {
    var items := Items(first, Victim(v));
    var k := Share(items, []);
    assert items == Items(s, Victim(v)) && [] + items[..k] == items[..k];
    assert items[..k][1..] == items[1..k];
    assert seen + [v] + rest == seen + ([v] + rest);
  }

  lemma VictimDone(s: State, first: State, cur: State, p: Pid, seen: seq<Pid>, v: Pid, rest: seq<Pid>, s': State)
    requires p < |s.procs| && p < |cur.procs| && Scans(s, first, p, seen, [v] + rest) && v != p
    requires TookHalf(first, cur, p, Victim(v)) && s' == AfterSteal(cur, p, Scan(rest))
    ensures p < |s'.procs| && Underneath(s, s', p)
  {
    if Items(first, Victim(v)) == [] {
      VictimEmpty(s, first, cur, p, seen, v, rest);
    } else {
      VictimRobbed(s, first, cur, p, seen, v, rest);
    }
  }

  lemma SearchStepGoesOn(s: State, cur: State, p: Pid, s': State)
    requires p < |s.procs| && p < |cur.procs| && Searching(cur.procs[p].pc)
    requires Underneath(s, cur, p) && ProcStep(cur, p, s')
    ensures p < |s'.procs| && Underneath(s, s', p)
  {
    var pc := cur.procs[p].pc;
    if Stealing(pc) {
      if pc.why.AfterPop? {
        var first, m :| StealsRest(s, cur, p, first, m);
        RestGoesOn(s, cur, p, s', first, m);
      } else {
        var first, seen, v, m :| StealsFrom(s, cur, p, first, seen, v, pc.why.rest, m);
        VictimGoesOn(s, cur, p, s', first, seen, v, pc.why.rest, m);
      }
    } else if pc.Search? {
      SearchGoesOn(s, cur, p);
    } else if pc.SearchOthers? {
      OthersGoOn(s, cur, p);
    } else {
      var others :| ScanOrder(cur, p, others) && s' == SearchGlobalStep(cur, p, others);
      GlobalGoesOn(s, cur, p, others);
    }
  }

  // ---- The whole search ----

  /** All steps are steps of `p`, and the search is over in the last state only. */
  ghost predicate SearchAlone(run: seq<State>, p: Pid) {
    && run != []
    && (forall k :: 0 <= k < |run| - 1 ==>
          p < |run[k].procs| && Searching(run[k].procs[p].pc) && ProcStep(run[k], p, run[k + 1]))
  }

  lemma {:induction false} SearchAloneGoesOn(run: seq<State>, p: Pid)
    requires SearchAlone(run, p) && p < |run[0].procs| && Underneath(run[0], run[0], p)
    ensures p < |run[|run| - 1].procs| && Underneath(run[0], run[|run| - 1], p)
    decreases |run|
  {
    if |run| > 1 {
      var n := |run| - 1;
      SearchAloneGoesOn(run[..n], p);
      SearchStepGoesOn(run[0], run[n - 1], p, run[n]);
    }
  }

  /** A runner that finds the global queue empty may go on to look at all other runners, in any order. */
  lemma MayScanAll(s: State, p: Pid, others: seq<Pid>) returns (s': State)
    requires p < |s.procs| && s.procs[p].pc.SearchGlobal? && s.global == [] && s.procs[p].runner
    requires ScanOrder(s, p, others)
    ensures ProcStep(s, p, s') && p < |s'.procs| && s'.procs[p].pc == SearchOthers(others) && Like(s, s', p)
  {
    s' := SearchGlobalStep(s, p, others);
  }

  /** A search that nobody interferes with takes the oldest runnable of its own queue; failing that, the
      oldest of the global queue, of which a runner then steals half; failing that, a runner takes the
      oldest of the first queue of another runner that is not empty, of which it steals half; and only
      if all of these are empty does it go to sleep. A runner looks at all other runners, or at none if
      their list is being changed. */
  lemma SearchFinds(run: seq<State>, p: Pid)
    requires SearchAlone(run, p) && p < |run[0].procs| && run[0].procs[p].pc.Search? && run[0].procs[p].hand.None?
    ensures var last := run[|run| - 1];
            p < |last.procs| && (!Searching(last.procs[p].pc) ==> Outcome(run[0], last, p))
  {
    SearchAloneGoesOn(run, p);
  }
}
