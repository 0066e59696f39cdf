/**
 * The launcher as a state machine. Each step is one critical section of the launcher; between two steps of a
 * request the runner's status batches and the actions of other instances may interleave in any way. Only the offline
 * sweep is several critical sections in one step: it runs in the goroutine that also serves the status batches, and
 * holds the lock that keeps requests out, so nothing comes between them.
 */
module LauncherRuns {
  import opened Sequences
  import opened Instances
  import opened Devices
  import opened Preparation
  import opened StorageMatching
  import opened Reconciler
  import opened EnvVars

  /** Where the list of instances to run comes from: the storage at start-up, or a request. */
  datatype Source = Stored(list: seq<StoredInstance>) | Desired(desired: seq<InstanceInfo>)

  /** A stop action is queued (`false`) or has found its instance (`true`). */
  type StopTasks = map<InstanceID, bool>

  datatype StartTask = Queued(rt: Runtime) | Running | Done | AlreadyStarted

  /**
   * A restart for the environment: a stop and a start action.  `again`: a second restart is queued behind the running
   * start.  `built`: the runtime spec was rebuilt before the start ended.
   */
  datatype EnvTask =
    | StopQueued | StopFound | StartQueued(rt: Runtime) | EnvRunning(again: bool) | EnvDone(built: bool)
    | EnvAlreadyStarted

  datatype Phase =
    | Boot
    | Idle
    | StoppingAll(stops: StopTasks, source: Source)
    | Ready(source: Source)
    | StoppingSome(stops: StopTasks, starts: seq<StoredInstance>)
    | Starting(tasks: map<InstanceID, StartTask>)
    | Restarting(envTasks: map<InstanceID, EnvTask>, saved: map<InstanceID, RunState>)

  /** What the latest run worked from. */
  datatype Basis = Basis(source: Source, config: NodeConfig, services: Services, sorted: seq<StoredInstance>)

  /**
   * `restarted`: instances were restarted for their environment since the last RunStatuses message.
   * `raced`: a status batch arrived while instances were checked and restarted for it.
   * `revisited`: an instance was restarted a second time, because the iteration produced it again after it was put
   * back into the map.
   */
  datatype State = State(
    core: Core, rows: Rows, writes: nat, phase: Phase, basis: Option<Basis>, envVars: seq<EnvVarsInfo>,
    restarted: bool, raced: bool, revisited: bool)

  datatype Step =
    | Load(list: seq<StoredInstance>, services: Services)
    | Request(desired: seq<InstanceInfo>, force: bool)
    | StopFind(id: InstanceID)
    | StopDelete(id: InstanceID)
    | Calculate(list: seq<StoredInstance>, uuids: seq<InstanceID>, config: NodeConfig, services: Services,
                sorted: seq<StoredInstance>)
    | StopsFinished
    | StartBegin(id: InstanceID)
    | StartReport(id: InstanceID, status: RunStatus)
    | StartFail(id: InstanceID, error: LaunchError, built: bool)
    | Finish(order: seq<InstanceID>, errorOrder: seq<InstanceID>)
    | Batch(reports: seq<Report>)
    | Sweep(onlineTime: int, now: int, order: seq<InstanceID>)
    | EnvBegin(request: Option<seq<EnvVarsInfo>>, now: int)
    | EnvVisit(id: InstanceID)
    | EnvFinish(order: seq<InstanceID>)

  /* ---- Steps ---- */

  ghost predicate UsableServices(services: Services) {
    forall id :: id in services && services[id].error == None ==> services[id].config.Some?
  }

  ghost predicate Init(s: State) {
    && s.core == Core(map[], map[], false, [])
    && s.phase == Boot && s.basis == None && !s.restarted && !s.raced && !s.revisited
  }

  /** The matching of a request against the storage; at start-up the stored list itself runs. */
  function Matched(s: State, source: Source, list: seq<StoredInstance>, uuids: seq<InstanceID>): Matching
    requires source.Desired? ==> |source.desired| <= |uuids|
  {
    match source
    case Stored(stored) => Matching(stored, [], s.rows, 0)
    case Desired(desired) => MatchDesired(list, s.rows, desired, uuids)
  }

  ghost predicate CanStop(stops: StopTasks, step: Step) {
    match step
    case StopFind(id) => id in stops && !stops[id]
    case StopDelete(id) => id in stops && stops[id]
    case _ => false
  }

  ghost predicate CanStart(s: State, tasks: map<InstanceID, StartTask>, step: Step) {
    match step
    case StartBegin(id) => id in tasks && tasks[id].Queued?
    case StartReport(id, status) =>
      id in tasks && tasks[id].Running? && id in s.core.current && status.state != Unset
    case StartFail(id, _, _) => id in tasks && tasks[id].Running? && id in s.core.current
    case Finish(order, errorOrder) =>
      && (forall id :: id in tasks ==> tasks[id].Done? || tasks[id].AlreadyStarted?)
      && IsOrder(order, s.core.current.Keys) && IsOrder(errorOrder, s.core.errors.Keys)
    case _ => false
  }

  /** What the present environment variables select for a running instance. */
  function SelectedFor(s: State, id: InstanceID): seq<string>
    requires id in s.core.current
  {
    Overrides(s.envVars, s.core.current[id].instance.info.ident)
  }

  /**
   * The iteration over the running instances produces every one that was not put into the map meanwhile; one that was
   * put back since it was last produced may be produced once more.
   */
  predicate Produced(tasks: map<InstanceID, EnvTask>, id: InstanceID) {
    id in tasks ==> tasks[id] == EnvRunning(false) || tasks[id].EnvDone?
  }

  ghost predicate CanRestart(s: State, tasks: map<InstanceID, EnvTask>, step: Step) {
    match step
    case EnvVisit(id) =>
      id in s.core.current && Produced(tasks, id) && s.core.current[id].overrides != SelectedFor(s, id)
    case StopFind(id) => id in tasks && tasks[id].StopQueued?
    case StopDelete(id) => id in tasks && tasks[id].StopFound? && id in s.core.current
    case StartBegin(id) => id in tasks && tasks[id].StartQueued?
    case StartReport(id, status) =>
      id in tasks && tasks[id].EnvRunning? && id in s.core.current && status.state != Unset
    case StartFail(id, _, _) => id in tasks && tasks[id].EnvRunning? && id in s.core.current
    case EnvFinish(order) =>
      && (forall id :: id in tasks ==> tasks[id].EnvDone? || tasks[id].EnvAlreadyStarted?)
      && (forall id :: id in s.core.current && id !in tasks ==> s.core.current[id].overrides == SelectedFor(s, id))
      && IsOrder(order, set id | id in tasks && id in s.core.current && ReportNeeded(s, id))
    case _ => false
  }

  ghost predicate ReportNeeded(s: State, id: InstanceID) {
    s.phase.Restarting? && id in s.phase.saved && id in s.core.current &&
    s.phase.saved[id] != s.core.current[id].status.state
  }

  ghost predicate CanCalculate(s: State, source: Source, step: Step)
    requires step.Calculate?
  {
    && (source.Desired? ==> |source.desired| <= |step.uuids|)
    && Fresh(step.uuids, s.rows)
    && IsListing(step.list, s.rows)
    && UsableServices(step.services)
    && multiset(step.sorted) == multiset(Matched(s, source, step.list, step.uuids).running)
    && Descending(step.sorted)
  }

  /** The steps the launcher, its actions, the runner and the timer may take. */
  ghost predicate Can(s: State, step: Step) {
    match step
    case Batch(reports) => forall r :: r in reports ==> r.status.state != Unset
    case Load(list, services) => s.phase.Boot? && IsListing(list, s.rows)
    case Request(desired, force) => s.phase.Idle?
    case Calculate(_, _, _, _, _) => s.phase.Ready? && CanCalculate(s, s.phase.source, step)
    case StopsFinished => (s.phase.StoppingAll? || s.phase.StoppingSome?) && s.phase.stops == map[]
    case Sweep(onlineTime, now, order) =>
      s.phase.Idle? && IsOrder(order, ExpiredIds(s.core.current, onlineTime, now))
    case EnvBegin(_, _) => s.phase.Idle?
    case _ =>
      if s.phase.StoppingAll? || s.phase.StoppingSome? then CanStop(s.phase.stops, step)
      else if s.phase.Starting? then CanStart(s, s.phase.tasks, step)
      else if s.phase.Restarting? then CanRestart(s, s.phase.envTasks, step)
      else false
  }

  /** A stop action that finds its instance goes on; otherwise it ends with "already stopped". */
  function StopTask(s: State, stops: StopTasks, step: Step): (Core, StopTasks)
    requires step.StopFind? || step.StopDelete?
  {
    if step.StopDelete? then (Stopped(s.core, step.id), stops - {step.id})
    else if step.id in s.core.current then (s.core, stops[step.id := true])
    else (s.core, stops - {step.id})
  }

  /** A start action registers its instance unless one is registered already. */
  ghost function BeginStart(s: State, rt: Runtime): (Core, bool) {
    if rt.instance.id in s.core.current then (s.core, false) else (Inserted(s.core, rt), true)
  }

  ghost function StartResult(s: State, step: Step): Core
    requires (step.StartReport? || step.StartFail?) && step.id in s.core.current
  {
    if step.StartReport? then Reported(s.core, step.id, step.status, SelectedFor(s, step.id))
    else StartFailed(s.core, step.id, step.error, if step.built then Some(SelectedFor(s, step.id)) else None)
  }

  ghost function DoStart(s: State, tasks: map<InstanceID, StartTask>, step: Step): State
    requires CanStart(s, tasks, step)
  {
    if step.StartBegin? then
      var (core, ok) := BeginStart(s, tasks[step.id].rt);
      s.(core := core, phase := Starting(tasks[step.id := if ok then Running else AlreadyStarted]))
    else if step.Finish? then
      s.(core := Ended(s.core, step.order, step.errorOrder), phase := Idle, restarted := false, raced := false,
         revisited := false)
    else
      s.(core := StartResult(s, step), phase := Starting(tasks[step.id := Done]))
  }

  /** An instance whose override list differs: its state is saved and a stop and a start action are queued. */
  ghost function DoVisit(s: State, tasks: map<InstanceID, EnvTask>, saved: map<InstanceID, RunState>, id: InstanceID)
    : State
    requires id in s.core.current && Produced(tasks, id)
  {
    var task := if id in tasks && tasks[id].EnvRunning? then EnvRunning(true) else StopQueued;
    s.(phase := Restarting(tasks[id := task], saved[id := s.core.current[id].status.state]),
       restarted := true, revisited := s.revisited || id in tasks)
  }

  function AfterStart(task: EnvTask, built: bool): EnvTask
    requires task.EnvRunning?
  {
    if task.again then StopQueued else EnvDone(built)
  }

  ghost function DoRestart(s: State, tasks: map<InstanceID, EnvTask>, saved: map<InstanceID, RunState>, step: Step)
    : State
    requires CanRestart(s, tasks, step)
  {
    if step.EnvVisit? then DoVisit(s, tasks, saved, step.id)
    else if step.StopFind? then
      var task := if step.id in s.core.current then StopFound else EnvAlreadyStarted;
      s.(phase := Restarting(tasks[step.id := task], saved))
    else if step.StopDelete? then
      s.(core := Stopped(s.core, step.id),
         phase := Restarting(tasks[step.id := StartQueued(s.core.current[step.id])], saved))
    else if step.StartBegin? then
      var (core, ok) := BeginStart(s, tasks[step.id].rt);
      s.(core := core,
         phase := Restarting(tasks[step.id := if ok then EnvRunning(false) else EnvAlreadyStarted], saved))
    else if step.EnvFinish? then
      s.(core := s.core.(sent := Send(s.core.sent, Clouds(step.order, s.core.current))), phase := Idle)
    else
      s.(core := StartResult(s, step),
         phase := Restarting(tasks[step.id := AfterStart(tasks[step.id], step.StartReport? || step.built)], saved))
  }

  function QueueStops(ids: set<InstanceID>): StopTasks {
    map id | id in ids :: false
  }

  ghost function DoCalculate(s: State, source: Source, step: Step): State
    requires step.Calculate? && CanCalculate(s, source, step)
  {
    var m := Matched(s, source, step.list, step.uuids);
    var prep := PrepareAll(step.config, step.services, step.sorted);
    var stops := Stops(step.services, s.core.current, prep.prepared);
    State(Calculated(s.core, step.config, step.services, step.sorted),
          RowsAfter(m), s.writes + WritesAfter(m),
          StoppingSome(QueueStops(stops), Starts(step.services, s.core.current, prep.prepared)),
          Some(Basis(source, step.config, step.services, step.sorted)), s.envVars, s.restarted, s.raced, s.revisited)
  }

  /** At start-up every stored instance counts as running, so that the stop actions clean it up. */
  function Loaded(list: seq<StoredInstance>, services: Services): Runtimes {
    map id | id in Ids(list) && FindId(list, id).Some? ::
      var i := FindId(list, id).value;
      if Unusable(services, i) == None then NewRuntime(i, ServiceOf(services, i))
      else Fail(NewRuntime(i, None), Unusable(services, i).value)
  }

  function ToStart(services: Services, starts: seq<StoredInstance>): map<InstanceID, StartTask> {
    map id | id in Ids(starts) && FindId(starts, id).Some? ::
      Queued(NewRuntime(FindId(starts, id).value, ServiceOf(services, FindId(starts, id).value)))
  }

  ghost function DoStop(s: State, step: Step): State
    requires (step.StopFind? || step.StopDelete?) && (s.phase.StoppingAll? || s.phase.StoppingSome?)
  {
    var (core, rest) := StopTask(s, s.phase.stops, step);
    s.(core := core, phase := s.phase.(stops := rest))
  }

  ghost function DoStopsFinished(s: State): State {
    if s.phase.StoppingAll? then s.(phase := Ready(s.phase.source))
    else if s.phase.StoppingSome? && s.basis.Some? then
      s.(phase := Starting(ToStart(s.basis.value.services, s.phase.starts)))
    else s
  }

  ghost function Do(s: State, step: Step): State
    requires Can(s, step)
  {
    if step.Batch? then
      s.(core := UpdateInstancesStatuses(s.core, step.reports), raced := s.raced || s.phase.Restarting?)
    else if step.Load? then
      var current := Loaded(step.list, step.services);
      s.(core := s.core.(current := current),
         phase := StoppingAll(QueueStops(current.Keys), Stored(step.list)))
    else if step.Request? then
      s.(phase := if step.force then StoppingAll(QueueStops(s.core.current.Keys), Desired(step.desired))
                  else Ready(Desired(step.desired)))
    else if step.Calculate? then DoCalculate(s, s.phase.source, step)
    else if step.StopsFinished? then DoStopsFinished(s)
    else if step.Sweep? then s.(core := Swept(s.core, step.order))
    else if step.EnvBegin? then
      s.(phase := Restarting(map[], map[]),
         envVars := Cleaned(if step.request.Some? then step.request.value else s.envVars, step.now))
    else if s.phase.Starting? then DoStart(s, s.phase.tasks, step)
    else if s.phase.Restarting? then DoRestart(s, s.phase.envTasks, s.phase.saved, step)
    else DoStop(s, step)
  }
}
