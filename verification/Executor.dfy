/** The executor as a concurrent machine: any number of `schedule` calls, `try_tick` calls, tickers
    and work-stealing runners, each with its own program counter, interleaved one atomic step at a
    time. Queue operations, the compare-and-swap and the store on `notified`, and the critical
    section on the registry are separate steps; a critical section is split so that a
    compare-and-swap can land between the registry update and the store. */
module Executor {
  import opened Options
  import opened Sleepers

  type Task = nat
  type Pid = nat

  const LOCAL_CAPACITY: nat := 512
  const TICKS_MODULUS: nat := 0x1_0000_0000_0000_0000
  const TICKS_PER_STEAL: nat := 64

  datatype Source = Global | Victim(v: Pid)

  /** What a call to `steal` is part of: the search that just popped the global queue, the scan of
      the other runners, or the periodic steal of every 64th tick. */
  datatype Reason = AfterPop | Scan(rest: seq<Pid>) | OnTick

  /** What follows a call to `notify`: nothing, the delivery of the runnable in hand, or the next
      round of the loop that returns a dropped runner's local queue. */
  datatype After = Return | Deliver | Drain

  datatype Pc =
    | Gone
    | Push
    | TryPop
    | Cas(after: After)
    | PopSleeper(after: After)
    | WakeUp(target: Waker, after: After)
    | Resting
    | Search
    | SearchGlobal
    | SearchOthers(rest: seq<Pid>)
    | StealLen(src: Source, why: Reason)
    | StealRoom(src: Source, want: nat, why: Reason)
    | StealLoop(src: Source, left: nat, why: Reason)
    | StealPush(src: Source, left: nat, why: Reason, item: Task)
    | Found
    | WakeStore
    | SleepMutate
    | SleepStore
    | Parked(poked: bool)
    | Tick
    | HasTask
    | DrainPop
    | DrainPush
    | DropMutate
    | DropStore(wasNotified: bool)

  /** `id` is the ticker's `sleeping` field, `waker` the waker of its latest poll, `hand` the
      runnable it holds, `local` its local queue. `bumps` counts ticks without wrapping, and `took`
      says that the process has popped the global queue since its latest poll; both are history. */
  datatype Proc = Proc(pc: Pc, runner: bool, id: nat, waker: Waker, hand: Option<Task>,
                       local: seq<Task>, ticks: nat, bumps: nat, took: bool)

  /** `pushed` and `popped` record the life of the global queue; `entered` and `ran` count the
      runnables handed to `schedule` and the runnables run. */
  datatype State = State(global: seq<Task>, pushed: seq<Task>, popped: nat,
                         procs: seq<Proc>, notified: bool, registry: Registry, lock: Option<Pid>,
                         entered: multiset<Task>, ran: multiset<Task>)

  const INITIAL: State :=
    State([], [], 0, [], true, Registry(0, [], []), None, multiset{}, multiset{})

  const NEW_PROC: Proc := Proc(Gone, false, 0, 0, None, [], 0, 0, false)

  function With(s: State, p: Pid, pr: Proc): State
    requires p < |s.procs|
  {
    s.(procs := s.procs[p := pr])
  }

  function At(s: State, p: Pid, pc: Pc): State
    requires p < |s.procs|
  {
    With(s, p, s.procs[p].(pc := pc))
  }

  function SourceLen(s: State, src: Source): nat {
    match src
    case Global => |s.global|
    case Victim(v) => if v < |s.procs| then |s.procs[v].local| else 0
  }

  predicate Scanning(pc: Pc) {
    || pc.SearchOthers?
    || (pc.StealLen? && pc.why.Scan?) || (pc.StealRoom? && pc.why.Scan?)
    || (pc.StealLoop? && pc.why.Scan?) || (pc.StealPush? && pc.why.Scan?)
  }

  predicate Dropping(pr: Proc) {
    || pr.pc.Gone? || pr.pc.DrainPop? || pr.pc.DrainPush? || pr.pc.DropMutate? || pr.pc.DropStore?
    || (pr.pc.Cas? && !pr.pc.after.Deliver?) || (pr.pc.PopSleeper? && !pr.pc.after.Deliver?)
    || (pr.pc.WakeUp? && !pr.pc.after.Deliver?)
  }

  /** The runners whose local queues are listed for stealing. */
  predicate Registered(s: State, p: Pid) {
    p < |s.procs| && s.procs[p].runner && !Dropping(s.procs[p])
  }

  /** The write lock on the list of local queues is free: nobody is scanning it. */
  predicate ListUnread(s: State) {
    forall p :: 0 <= p < |s.procs| ==> !Scanning(s.procs[p].pc)
  }

  // ---- Calls entering the executor ----

  function Enter(s: State, pr: Proc): State {
    s.(procs := s.procs + [pr])
  }

  /** `schedule` is called with a runnable. */
  function ScheduleCall(s: State, t: Task): State {
    Enter(s, NEW_PROC.(pc := Push, hand := Some(t))).(entered := s.entered + multiset{t})
  }

  function TryTickCall(s: State): State {
    Enter(s, NEW_PROC.(pc := TryPop))
  }

  function NewTicker(s: State): State {
    Enter(s, NEW_PROC.(pc := Resting))
  }

  function NewRunner(s: State): State {
    Enter(s, NEW_PROC.(pc := Resting, runner := true))
  }

  // ---- Steps ----

  /** `schedule` (and the drain loop of a dropped runner) pushes its runnable. */
  function PushStep(s: State, p: Pid, after: After): State
    requires p < |s.procs| && s.procs[p].hand.Some?
  {
    var t := s.procs[p].hand.value;
    With(s, p, s.procs[p].(pc := Cas(after), hand := None)).(global := s.global + [t], pushed := s.pushed + [t])
  }

  function CasStep(s: State, p: Pid): State
    requires p < |s.procs| && s.procs[p].pc.Cas?
  {
    var after := s.procs[p].pc.after;
    if s.notified then At(s, p, Resume(s.procs[p], after))
    else At(s, p, PopSleeper(after)).(notified := true)
  }

  function Resume(pr: Proc, after: After): Pc {
    match after
    case Return => Gone
    case Deliver => if pr.runner then Tick else HasTask
    case Drain => DrainPop
  }

  function PopSleeperStep(s: State, p: Pid): State
    requires p < |s.procs| && s.procs[p].pc.PopSleeper?
  {
    var after := s.procs[p].pc.after;
    var (r, w) := Notify(s.registry);
    At(s, p, if w.Some? then WakeUp(w.value, after) else Resume(s.procs[p], after)).(registry := r)
  }

  /** Waking a waker reaches every ticker that is parked on it. */
  function Poke(pr: Proc, w: Waker): Proc {
    if pr.pc.Parked? && pr.waker == w then pr.(pc := Parked(true)) else pr
  }

  function WakeUpStep(s: State, p: Pid): State
    requires p < |s.procs| && s.procs[p].pc.WakeUp?
  {
    var w := s.procs[p].pc.target;
    var procs := seq(|s.procs|, i requires 0 <= i < |s.procs| => Poke(s.procs[i], w));
    s.(procs := procs[p := s.procs[p].(pc := Resume(s.procs[p], s.procs[p].pc.after))])
  }

  function PollStep(s: State, p: Pid, w: Waker): State
    requires p < |s.procs|
  {
    With(s, p, s.procs[p].(pc := Search, waker := w, took := false))
  }

  /** The search starts with the runner's own local queue. */
  function SearchStep(s: State, p: Pid): State
    requires p < |s.procs|
  {
    var pr := s.procs[p];
    if pr.local != []
    then With(s, p, pr.(pc := Found, hand := Some(pr.local[0]), local := pr.local[1..]))
    else At(s, p, SearchGlobal)
  }

  function PopGlobal(s: State): State
    requires s.global != []
  {
    s.(global := s.global[1..], popped := s.popped + 1)
  }

  /** It goes on with the global queue. A plain ticker stops there; a runner that finds nothing
      scans `others`, or nothing when the list is locked. */
  function SearchGlobalStep(s: State, p: Pid, others: seq<Pid>): State
    requires p < |s.procs|
  {
    var pr := s.procs[p];
    if s.global != [] then
      var pc := if pr.runner then StealLen(Global, AfterPop) else Found;
      With(PopGlobal(s), p, pr.(pc := pc, hand := Some(s.global[0]), took := true))
    else At(s, p, if pr.runner then SearchOthers(others) else SleepMutate)
  }

  function TryPopStep(s: State, p: Pid): State
    requires p < |s.procs|
  {
    if s.global != []
    then With(PopGlobal(s), p, s.procs[p].(pc := Cas(Deliver), hand := Some(s.global[0]), took := true))
    else At(s, p, Gone)
  }

  function SearchOthersStep(s: State, p: Pid): State
    requires p < |s.procs| && s.procs[p].pc.SearchOthers?
  {
    var rest := s.procs[p].pc.rest;
    At(s, p, if rest == [] then SleepMutate else StealLen(Victim(rest[0]), Scan(rest[1..])))
  }

  function StealLenStep(s: State, p: Pid): State
    requires p < |s.procs| && s.procs[p].pc.StealLen?
  {
    var pc := s.procs[p].pc;
    var want := (SourceLen(s, pc.src) + 1) / 2;
    At(s, p, if want > 0 then StealRoom(pc.src, want, pc.why) else StealLoop(pc.src, 0, pc.why))
  }

  function StealRoomStep(s: State, p: Pid): State
    requires p < |s.procs| && s.procs[p].pc.StealRoom?
    requires |s.procs[p].local| <= LOCAL_CAPACITY
  {
    var pc := s.procs[p].pc;
    var room := LOCAL_CAPACITY - |s.procs[p].local|;
    At(s, p, StealLoop(pc.src, if pc.want <= room then pc.want else room, pc.why))
  }

  /** The pop of one iteration of the stealing loop, or the way out of it. */
  function StealLoopStep(s: State, p: Pid): State
    requires p < |s.procs| && s.procs[p].pc.StealLoop?
  {
    var pr := s.procs[p];
    var pc := pr.pc;
    if pc.left == 0 || SourceLen(s, pc.src) == 0 then AfterSteal(s, p, pc.why)
    else match pc.src
      case Global => With(PopGlobal(s), p, pr.(pc := StealPush(Global, pc.left, pc.why, s.global[0]), took := true))
      case Victim(v) =>
        var vp := s.procs[v];
        At(With(s, v, vp.(local := vp.local[1..])), p, StealPush(pc.src, pc.left, pc.why, vp.local[0]))
  }

  function StealPushStep(s: State, p: Pid): State
    requires p < |s.procs| && s.procs[p].pc.StealPush? && s.procs[p].pc.left > 0
  {
    var pr := s.procs[p];
    var pc := pr.pc;
    With(s, p, pr.(pc := StealLoop(pc.src, pc.left - 1, pc.why), local := pr.local + [pc.item]))
  }

  function AfterSteal(s: State, p: Pid, why: Reason): State
    requires p < |s.procs|
  {
    var pr := s.procs[p];
    match why
    case AfterPop => At(s, p, Found)
    case OnTick => At(s, p, HasTask)
    case Scan(rest) =>
      if pr.local != []
      then With(s, p, pr.(pc := Found, hand := Some(pr.local[0]), local := pr.local[1..]))
      else At(s, p, SearchOthers(rest))
  }

  /** `sleep`: the registry update, in the critical section. */
  function SleepMutateStep(s: State, p: Pid): State
    requires p < |s.procs|
  {
    var pr := s.procs[p];
    if pr.id == 0 then
      var (r, id) := Insert(s.registry, pr.waker);
      With(s, p, pr.(pc := SleepStore, id := id)).(registry := r, lock := Some(p))
    else
      var (r, wasNotified) := Update(s.registry, pr.id, pr.waker);
      if wasNotified then At(s, p, SleepStore).(registry := r, lock := Some(p))
      else At(s, p, Parked(false)).(registry := r)
  }

  /** A runnable was found: a registered ticker leaves the registry before it notifies. */
  function FoundStep(s: State, p: Pid): State
    requires p < |s.procs|
    requires s.procs[p].id != 0 ==> s.registry.count > 0
  {
    var pr := s.procs[p];
    if pr.id == 0 then At(s, p, Cas(Deliver))
    else
      var (r, _) := Remove(s.registry, pr.id);
      With(s, p, pr.(pc := WakeStore, id := 0)).(registry := r, lock := Some(p))
  }

  /** The store of `notified` that ends a critical section. */
  function StoreStep(s: State, p: Pid, pc: Pc): State
    requires p < |s.procs|
  {
    At(s, p, pc).(notified := IsNotified(s.registry), lock := None)
  }

  function TickStep(s: State, p: Pid): State
    requires p < |s.procs|
  {
    var pr := s.procs[p];
    var ticks := (pr.ticks + 1) % TICKS_MODULUS;
    var pc := if ticks % TICKS_PER_STEAL == 0 then StealLen(Global, OnTick) else HasTask;
    With(s, p, pr.(pc := pc, ticks := ticks, bumps := pr.bumps + 1))
  }

  function RunTaskStep(s: State, p: Pid): State
    requires p < |s.procs| && s.procs[p].hand.Some?
  {
    With(s, p, s.procs[p].(pc := Resting, hand := None)).(ran := s.ran + multiset{s.procs[p].hand.value})
  }

  /** A ticker or a runner is dropped; a runner first returns its local queue. */
  function DropStep(s: State, p: Pid): State
    requires p < |s.procs|
  {
    At(s, p, if s.procs[p].runner then DrainPop else if s.procs[p].id != 0 then DropMutate else Gone)
  }

  function DrainPopStep(s: State, p: Pid): State
    requires p < |s.procs|
  {
    var pr := s.procs[p];
    if pr.local != [] then With(s, p, pr.(pc := DrainPush, hand := Some(pr.local[0]), local := pr.local[1..]))
    else At(s, p, if pr.id != 0 then DropMutate else Gone)
  }

  function DropMutateStep(s: State, p: Pid): State
    requires p < |s.procs| && s.registry.count > 0
  {
    var pr := s.procs[p];
    var (r, wasNotified) := Remove(s.registry, pr.id);
    With(s, p, pr.(pc := DropStore(wasNotified), id := 0)).(registry := r, lock := Some(p))
  }

  /** One atomic step of process `p`. The guards `hand.Some?`, `|local| <= LOCAL_CAPACITY`,
      `left > 0` and `count > 0` hold in every reachable state (`GuardsHold`). */
  ghost predicate ProcStep(s: State, p: Pid, s': State)
    requires p < |s.procs|
  {
    var pr := s.procs[p];
    match pr.pc
    case Gone => false
    case Push => pr.hand.Some? && s' == PushStep(s, p, Return)
    case TryPop => s' == TryPopStep(s, p)
    case Cas(_) => s' == CasStep(s, p)
    case PopSleeper(_) => s.lock.None? && s' == PopSleeperStep(s, p)
    case WakeUp(_, _) => s' == WakeUpStep(s, p)
    case Resting => (exists w :: s' == PollStep(s, p, w)) || (MayDrop(s, p) && s' == DropStep(s, p))
    case Search => s' == SearchStep(s, p)
    case SearchGlobal => exists others :: ScanOrder(s, p, others) && s' == SearchGlobalStep(s, p, others)
    case SearchOthers(_) => s' == SearchOthersStep(s, p)
    case StealLen(_, _) => s' == StealLenStep(s, p)
    case StealRoom(_, _, _) => |pr.local| <= LOCAL_CAPACITY && s' == StealRoomStep(s, p)
    case StealLoop(_, _, _) => s' == StealLoopStep(s, p)
    case StealPush(_, left, _, _) => left > 0 && s' == StealPushStep(s, p)
    case Found => (pr.id != 0 ==> s.lock.None? && s.registry.count > 0) && s' == FoundStep(s, p)
    case WakeStore => s' == StoreStep(s, p, Cas(Deliver))
    case SleepMutate => s.lock.None? && s' == SleepMutateStep(s, p)
    case SleepStore => s' == StoreStep(s, p, Search)
    case Parked(_) => (exists w :: s' == PollStep(s, p, w)) || (MayDrop(s, p) && s' == DropStep(s, p))
    case Tick => s' == TickStep(s, p)
    case HasTask => pr.hand.Some? && s' == RunTaskStep(s, p)
    case DrainPop => s' == DrainPopStep(s, p)
    case DrainPush => pr.hand.Some? && s' == PushStep(s, p, Drain)
    case DropMutate => s.lock.None? && s.registry.count > 0 && s' == DropMutateStep(s, p)
    case DropStore(wasNotified) => s' == StoreStep(s, p, if wasNotified then Cas(Return) else Gone)
  }

  /** Dropping a runner takes the write lock on the list of local queues. */
  predicate MayDrop(s: State, p: Pid)
    requires p < |s.procs|
  {
    s.procs[p].runner ==> ListUnread(s)
  }

  /** All other listed runners in some order, or nothing when the list is being written. */
  ghost predicate ScanOrder(s: State, p: Pid, others: seq<Pid>) {
    || others == []
    || ((forall v :: v in others <==> Registered(s, v) && v != p)
        && forall i, j :: 0 <= i < j < |others| ==> others[i] != others[j])
  }

  ghost predicate EnterStep(s: State, s': State) {
    || (exists t :: s' == ScheduleCall(s, t))
    || s' == TryTickCall(s)
    || s' == NewTicker(s)
    || (ListUnread(s) && s' == NewRunner(s))
  }

  ghost predicate Next(s: State, s': State) {
    EnterStep(s, s') || exists p :: 0 <= p < |s.procs| && ProcStep(s, p, s')
  }

  /** A run of the executor: any interleaving, of any length, from any state. */
  ghost predicate IsRun(run: seq<State>) {
    && run != []
    && (|run| > 1 ==> IsRun(run[..|run| - 1]) && Next(run[|run| - 2], run[|run| - 1]))
  }
}
