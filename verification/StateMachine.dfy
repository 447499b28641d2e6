/** The Supvisors state machine (supvisors/statemachine.py): what each state suggests, the table
    of the transitions, and the loop that transitions as much as possible. */
module StateMachine {
  import opened SupvisorsTypes
  import opened StateModes

  datatype FailureStrategy = Continue | Resync | Shutdown

  /** Options, and the part of the mapper that is fixed during the evaluation of one event.
      `order` is the iteration order of the instances; `initial` are the declared ones. */
  datatype RawConfig = Config(
    local: Identifier,
    order: seq<Identifier>,
    initial: set<Identifier>,
    mapper: Mapper,
    strict: bool,
    list: bool,
    timeout: bool,
    core: bool,
    user: bool,
    strategy: FailureStrategy,
    autoFence: bool)
  {
    function Known(): set<Identifier> {
      set i | i in order
    }

    function Core(): set<Identifier> {
      set i | i in mapper.core
    }

    /** The mapper filters the core list with the known instances. */
    ghost predicate Valid() {
      && local in order && NO_MASTER !in order
      && local in initial && initial <= Known() && Core() <= Known()
      && mapper.Valid()
    }
  }

  const ALONE: Identifier := Id("alone")

  type Config = k: RawConfig | k.Valid()
    ghost witness Config(ALONE, [ALONE], {ALONE}, Mapper([], (i: Identifier) => i.name),
                         false, false, false, false, false, Continue, false)

  datatype Ending = Restart | Shutdown

  /** The state machine and its context: `lost` are the instances invalidated by the last
      evaluation, `conflicts` tells if a process runs on several instances, `sent` are the
      requests sent to the local Supervisor. */
  datatype Fsm = Fsm(views: Views, lost: set<Identifier>, conflicts: bool, sent: seq<Ending>)

  /** What one evaluation reads out of the state machine: the clock, the progress of the jobs,
      the Master picked by accept_master, and the conflicts left when instances are lost. */
  datatype Env = Env(timedOut: bool, starting: bool, stopping: bool, accepted: Identifier, conflictsLeft: bool)

  ghost predicate FsmValid(k: Config, c: Fsm) {
    ViewsValid(k.local, c.views) && c.views.Keys == k.Known()
  }

  function State(k: Config, v: Views): FsmState
    requires k.local in v
  {
    v[k.local].state
  }

  function MasterOf(k: Config, v: Views): Identifier
    requires k.local in v
  {
    v[k.local].master
  }

  predicate IsMaster(k: Config, v: Views)
    requires k.local in v
  {
    MasterOf(k, v) == k.local
  }

  function MasterState(k: Config, v: Views): Option<FsmState>
    requires k.local in v
  {
    if MasterOf(k, v) in v then Some(v[MasterOf(k, v)].state) else None
  }

  function InstanceStateOf(k: Config, v: Views, i: Identifier): InstanceState
    requires k.local in v && i in v[k.local].instanceStates
  {
    v[k.local].instanceStates[i]
  }

  predicate LocalRunning(k: Config, v: Views)
    requires ViewsValid(k.local, v)
  {
    InstanceStateOf(k, v, k.local).Running?
  }

  predicate IsWorking(s: FsmState) {
    s.Distribution? || s.Operation? || s.Conciliation?
  }

  // ---- Acknowledgement of the failed and of the checked instances ----

  function FencedState(k: Config, v: Views, i: Identifier): InstanceState
    requires k.local in v
  {
    if i != k.local && k.autoFence && MasterState(k, v).Some? && IsWorking(MasterState(k, v).value) then Isolated
    else Stopped
  }

  function WithoutFailed(k: Config, v: Views, order: seq<Identifier>): (r: Views)
    requires ViewsValid(k.local, v) && forall i :: i in order ==> i in v
    ensures ViewsValid(k.local, r) && r.Keys == v.Keys
    decreases |order|
  {
    if order == [] then v
    else
      var i := order[0];
      var v' := if InstanceStateOf(k, v, i).Failed? then WithInstanceState(k.local, v, i, FencedState(k, v, i)) else v;
      WithoutFailed(k, v', order[1..])
  }

  function WithoutChecked(k: Config, v: Views, order: seq<Identifier>): (r: Views)
    requires ViewsValid(k.local, v) && forall i :: i in order ==> i in v
    ensures ViewsValid(k.local, r) && r.Keys == v.Keys
    decreases |order|
  {
    if order == [] then v
    else
      var i := order[0];
      var v' := if InstanceStateOf(k, v, i).Checked? then WithInstanceState(k.local, v, i, Running) else v;
      WithoutChecked(k, v', order[1..])
  }

  function FailedIn(k: Config, v: Views): set<Identifier>
    requires k.local in v
  {
    set i | i in v[k.local].instanceStates && v[k.local].instanceStates[i].Failed?
  }

  function CheckedIn(k: Config, v: Views): set<Identifier>
    requires k.local in v
  {
    set i | i in v[k.local].instanceStates && v[k.local].instanceStates[i].Checked?
  }

  // ---- Synchronization conditions, on the stable instances ----

  predicate InitialRunning(k: Config, stable: set<Identifier>) {
    k.initial != {} && k.initial <= stable
  }

  predicate AllRunning(k: Config, stable: set<Identifier>) {
    |stable| == |k.Known()|
  }

  predicate CoreRunning(k: Config, stable: set<Identifier>) {
    k.Core() != {} && k.Core() <= stable
  }

  /** Precedence of the failures: user, core, strict, list. */
  predicate FailureSeen(k: Config, stable: set<Identifier>, lost: set<Identifier>) {
    if k.user then lost != {}
    else if k.core then !CoreRunning(k, stable)
    else if k.strict then !InitialRunning(k, stable)
    else k.list && !AllRunning(k, stable)
  }

  predicate MasterRunning(k: Config, v: Views)
    requires ViewsValid(k.local, v)
  {
    MasterOf(k, v) != NO_MASTER && MasterOf(k, v) in v && InstanceStateOf(k, v, MasterOf(k, v)).Running?
  }

  predicate SyncReached(k: Config, v: Views, stable: set<Identifier>, timedOut: bool)
    requires ViewsValid(k.local, v)
  {
    || (k.strict && InitialRunning(k, stable))
    || (k.list && AllRunning(k, stable))
    || (k.timeout && timedOut)
    || (k.core && CoreRunning(k, stable))
    || (k.user && MasterRunning(k, v))
  }

  function WithMaster(k: Config, v: Views, m: Identifier): (r: Views)
    requires ViewsValid(k.local, v)
    ensures ViewsValid(k.local, r) && r.Keys == v.Keys
  {
    v[k.local := v[k.local].(master := m)]
  }

  function WithState(k: Config, v: Views, s: FsmState): (r: Views)
    requires ViewsValid(k.local, v)
    ensures ViewsValid(k.local, r) && r.Keys == v.Keys
  {
    v[k.local := v[k.local].(state := s)]
  }

  ghost function WithAccepted(k: Config, v: Views, choice: Identifier): (r: Views)
    requires ViewsValid(k.local, v)
    ensures ViewsValid(k.local, r) && r.Keys == v.Keys
  {
    if MasterIdentifiers(k.local, v) - {NO_MASTER} == {} then v
    else WithMaster(k, v, Accepted(k.mapper, k.local, v, choice))
  }

  // ---- What each state suggests ----

  /** The checks of all states past SYNCHRONIZATION. */
  ghost function SynchronizedCheck(k: Config, c: Fsm): Option<FsmState>
    requires FsmValid(k, c)
  {
    if !LocalRunning(k, c.views) then Some(Off)
    else if FailureSeen(k, StableIdentifiers(k.local, c.views), c.lost) && k.strategy.Resync? then Some(Synchronization)
    else if FailureSeen(k, StableIdentifiers(k.local, c.views), c.lost) && k.strategy.Shutdown? then Some(ShuttingDown)
    else None
  }

  ghost function MasterSlaveCheck(k: Config, c: Fsm): Option<FsmState>
    requires FsmValid(k, c)
  {
    if SynchronizedCheck(k, c).Some? then SynchronizedCheck(k, c)
    else if !MasterAgreed(k.local, c.views) then Some(Election)
    else None
  }

  ghost function WorkingNext(k: Config, c: Fsm, e: Env): Option<FsmState>
    requires FsmValid(k, c) && IsWorking(State(k, c.views))
  {
    if MasterSlaveCheck(k, c).Some? then MasterSlaveCheck(k, c)
    else if !IsMaster(k, c.views) then MasterState(k, c.views)
    else
      var busy := e.starting || e.stopping;
      match State(k, c.views)
      case Distribution => Some(if e.starting then FsmState.Distribution else Operation)
      case Operation => Some(if !busy && c.conflicts then Conciliation else Operation)
      case _ => Some(if busy || c.conflicts then Conciliation else Operation)
  }

  ghost function EndingNext(k: Config, c: Fsm, e: Env): FsmState
    requires FsmValid(k, c)
  {
    var s := State(k, c.views);
    if MasterSlaveCheck(k, c).Some? then Final
    else if IsMaster(k, c.views) then (if e.stopping then s else Final)
    else if MasterState(k, c.views) == Some(s) then s
    else Final
  }

  /** The part of ELECTION that follows the checks. */
  ghost function Elected(k: Config, c: Fsm): (r: (Fsm, FsmState))
    requires FsmValid(k, c) && LocalRunning(k, c.views)
    ensures FsmValid(k, r.0)
  {
    assert k.local in Peers(k.local, c.views);
    var d := ElectionDecision(k.mapper, k.local, c.views);
    (c.(views := d.1), d.0)
  }

  /** The instances are acknowledged first; only DISTRIBUTION leaves the checked ones aside. */
  function CheckInstances(k: Config, c: Fsm, e: Env): (r: Fsm)
    requires FsmValid(k, c)
    ensures FsmValid(k, r)
  {
    var lost := FailedIn(k, c.views);
    var v := WithoutFailed(k, c.views, k.order);
    Fsm(if State(k, c.views).Distribution? then v else WithoutChecked(k, v, k.order), lost,
        if lost != {} then e.conflictsLeft else c.conflicts, c.sent)
  }

  /** OPERATION and CONCILIATION go back to ELECTION when new instances come. */
  predicate NewInstances(k: Config, c: Fsm)
    requires FsmValid(k, c)
  {
    && (State(k, c.views).Operation? || State(k, c.views).Conciliation?)
    && CheckedIn(k, WithoutFailed(k, c.views, k.order)) != {}
  }

  /** The evaluation of the current state, once the instances are acknowledged. */
  ghost function Decide(k: Config, c: Fsm, e: Env): (r: (Fsm, Option<FsmState>))
    requires FsmValid(k, c)
    ensures FsmValid(k, r.0)
  {
    match State(k, c.views)
    case Off => (c, Some(if LocalRunning(k, c.views) then Synchronization else Off))
    case Synchronization =>
      if !LocalRunning(k, c.views) then (c, Some(Off))
      else
        var v := if k.user then WithAccepted(k, c.views, e.accepted) else c.views;
        var reached := SyncReached(k, v, StableIdentifiers(k.local, c.views), e.timedOut);
        (c.(views := v), Some(if reached then FsmState.Election else Synchronization))
    case Election =>
      if SynchronizedCheck(k, c).Some? then (c, SynchronizedCheck(k, c))
      else
        var d := Elected(k, c);
        (d.0, Some(d.1))
    case Distribution => (c, WorkingNext(k, c, e))
    case Operation => (c, WorkingNext(k, c, e))
    case Conciliation => (c, WorkingNext(k, c, e))
    case Restarting => (c, Some(EndingNext(k, c, e)))
    case ShuttingDown => (c, Some(EndingNext(k, c, e)))
    case Final => (c, None)
  }

  ghost function Next(k: Config, c: Fsm, e: Env): (r: (Fsm, Option<FsmState>))
    requires FsmValid(k, c)
    ensures FsmValid(k, r.0)
  {
    var c' := CheckInstances(k, c, e);
    if NewInstances(k, c) then (c', Some(FsmState.Election)) else Decide(k, c', e)
  }

  /** The table of the transitions. */
  predicate Allowed(from: FsmState, to: FsmState) {
    match from
    case Off => to.Synchronization?
    case Synchronization => to.Off? || to.Election?
    case Election => to.Off? || to.Synchronization? || to.Distribution? || to.ShuttingDown?
    case Distribution => to.Off? || to.Election? || to.Operation? || to.Restarting? || to.ShuttingDown?
    case Operation =>
      to.Off? || to.Synchronization? || to.Election? || to.Conciliation? || to.Restarting? || to.ShuttingDown?
    case Conciliation => to.Off? || to.Synchronization? || to.Operation? || to.Restarting? || to.ShuttingDown?
    case Restarting => to.Final?
    case ShuttingDown => to.Final?
    case Final => false
  }

  /** The request sent to the local Supervisor when leaving a state. */
  function SentOnExit(s: FsmState): seq<Ending> {
    match s
    case Restarting => [Ending.Restart]
    case ShuttingDown => [Ending.Shutdown]
    case _ => []
  }

  /** The loop goes on with this suggestion. */
  predicate Moves(k: Config, c: Fsm, next: Option<FsmState>)
    requires FsmValid(k, c)
  {
    next.Some? && Allowed(State(k, c.views), next.value)
  }

  function Entered(k: Config, c: Fsm, s: FsmState): (r: Fsm)
    requires FsmValid(k, c)
    ensures FsmValid(k, r)
  {
    c.(views := WithState(k, c.views, s), sent := c.sent + SentOnExit(State(k, c.views)))
  }

  /** A turn of the loop: the state machine, and the suggestion that it is about to follow. */
  datatype Turn = Turn(fsm: Fsm, next: Option<FsmState>)

  ghost predicate LeadsTo(k: Config, p: Turn, e: Env, q: Turn) {
    && FsmValid(k, p.fsm) && Moves(k, p.fsm, p.next)
    && Next(k, Entered(k, p.fsm, p.next.value), e) == (q.fsm, q.next)
  }

  ghost predicate Linked<T(!new), E(!new)>(leads: (T, E, T) -> bool, run: seq<T>, env: nat -> E, start: nat, j: nat) {
    j + 1 < |run| ==> leads(run[j], env(start + j), run[j + 1])
  }

  ghost predicate Chained<T(!new), E(!new)>(leads: (T, E, T) -> bool, run: seq<T>, env: nat -> E, start: nat) {
    run != [] && forall j: nat :: Linked(leads, run, env, start, j)
  }

  ghost function Leads(k: Config): (Turn, Env, Turn) -> bool {
    (p, e, q) => LeadsTo(k, p, e, q)
  }

  /** Successive turns of the loop, the first of which reads the environment at `start`. */
  ghost predicate IsRun(k: Config, run: seq<Turn>, env: nat -> Env, start: nat) {
    Chained(Leads(k), run, env, start)
  }

  /** The loop ends after this turn. */
  ghost predicate Stops(k: Config, p: Turn) {
    FsmValid(k, p.fsm) && !Moves(k, p.fsm, p.next)
  }

  /** The loop never ends. */
  ghost predicate Spins(k: Config, run: nat -> Turn, env: nat -> Env) {
    forall i: nat :: LeadsTo(k, run(i), env(i), run(i + 1))
  }
}
