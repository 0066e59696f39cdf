/** What every run of the launcher keeps, phase by phase, about which instances are where. */
module LauncherInvariant {
  import opened Sequences
  import opened Instances
  import opened Devices
  import opened Preparation
  import opened StorageMatching
  import opened Reconciler
  import opened EnvVars
  import opened LauncherRuns

  /** The instance runs what row `id` asks for, with the service version the latest run found. */
  ghost predicate FineRun(
      instance: StoredInstance, service: Option<ServiceEntry>, id: InstanceID, rows: Rows, services: Services)
  {
    && instance.id == id
    && id in rows
    && InfoEqual(instance.info, rows[id])
    && service.Some? && service.value.config.Some?
    && ServiceOf(services, instance).Some?
    && service.value.version == ServiceOf(services, instance).value.version
  }

  ghost predicate Fine(rt: Runtime, id: InstanceID, rows: Rows, services: Services) {
    FineRun(rt.instance, rt.service, id, rows, services)
  }

  ghost predicate Keyed(current: Runtimes) {
    forall id :: id in current ==> current[id].instance.id == id && current[id].service.Some?
                                    && current[id].service.value.config.Some?
  }

  ghost predicate ErrorsFine(errors: Runtimes, rows: Rows) {
    forall id :: id in errors ==>
      id in rows && errors[id].instance == StoredInstance(rows[id], id) && errors[id].status.state == Failed
  }

  ghost predicate SourceInv(source: Source, rows: Rows) {
    match source
    case Stored(list) => IsListing(list, rows)
    case Desired(desired) => true
  }

  /** The rows answer the request one by one. */
  ghost predicate Answered(source: Source, rows: Rows) {
    source.Desired? ==> exists running :: IsListing(running, rows) && Answers(running, source.desired)
  }

  /** The rows were prepared in the order of the basis, and the error instances are those that failed. */
  ghost predicate RunBasis(basis: Basis, errors: Runtimes, rows: Rows) {
    && UsableServices(basis.services)
    && IsListing(basis.sorted, rows)
    && Answered(basis.source, rows)
    && ErrorsFine(errors, rows)
    && (errors == map[] ==> PrepareAll(basis.config, basis.services, basis.sorted).failed == [])
  }

  ghost predicate Partition3(a: set<InstanceID>, b: set<InstanceID>, c: set<InstanceID>, all: set<InstanceID>) {
    a !! b && a !! c && b !! c && a + b + c == all
  }

  ghost predicate AllFine(current: Runtimes, rows: Rows, services: Services) {
    forall id :: id in current ==> FineRun(current[id].instance, current[id].service, id, rows, services)
  }

  function QueuedIds(tasks: map<InstanceID, StartTask>): set<InstanceID> {
    set id | id in tasks && tasks[id].Queued?
  }

  function WaitingIds(tasks: map<InstanceID, EnvTask>): set<InstanceID> {
    set id | id in tasks && tasks[id].StartQueued?
  }

  ghost predicate StartFine(i: StoredInstance, rows: Rows, services: Services) {
    i.id in rows && rows[i.id] == i.info && Unusable(services, i) == None
  }

  ghost predicate StoppingSomeInv(
      core: Core, rows: Rows, services: Services, stops: StopTasks, starts: seq<StoredInstance>)
  {
    && core.inProgress
    && stops.Keys <= core.current.Keys
    && DistinctIds(starts)
    && Partition3(core.current.Keys - stops.Keys, Elements(Ids(starts)), core.errors.Keys, rows.Keys)
    && AllFine(core.current - stops.Keys, rows, services)
    && (forall id :: id in core.current && id !in stops ==> core.current[id].status.state != Unset)
    && (forall i :: i in starts ==> StartFine(i, rows, services))
  }

  ghost predicate StartTaskInv(task: StartTask, id: InstanceID, core: Core, rows: Rows, services: Services) {
    match task
    case Queued(rt) => Fine(rt, id, rows, services)
    case AlreadyStarted => false
    case _ => id in core.current
  }

  ghost predicate StartingInv(core: Core, rows: Rows, services: Services, tasks: map<InstanceID, StartTask>) {
    && core.inProgress
    && Partition3(core.current.Keys, QueuedIds(tasks), core.errors.Keys, rows.Keys)
    && AllFine(core.current, rows, services)
    && (forall id :: id in tasks ==> StartTaskInv(tasks[id], id, core, rows, services))
    && (forall id :: id in core.current && (id in tasks ==> tasks[id].Done?) ==>
          core.current[id].status.state != Unset)
  }

  ghost predicate EnvTaskInv(task: EnvTask, id: InstanceID, core: Core, rows: Rows, services: Services) {
    match task
    case StartQueued(rt) => Fine(rt, id, rows, services)
    case EnvAlreadyStarted => false
    case _ => id in core.current
  }

  ghost predicate RestartingInv(core: Core, rows: Rows, services: Services, tasks: map<InstanceID, EnvTask>) {
    && !core.inProgress
    && Partition3(core.current.Keys, WaitingIds(tasks), core.errors.Keys, rows.Keys)
    && AllFine(core.current, rows, services)
    && (forall id :: id in tasks ==> EnvTaskInv(tasks[id], id, core, rows, services))
    && (forall id :: id in core.current && (id in tasks ==> !tasks[id].EnvRunning?) ==>
          core.current[id].status.state != Unset)
  }

  /** Between operations: current and failed instances are disjoint and together are exactly the stored ones. */
  ghost predicate IdleInv(core: Core, rows: Rows, services: Services) {
    && !core.inProgress
    && core.current.Keys !! core.errors.Keys
    && core.current.Keys + core.errors.Keys == rows.Keys
    && AllFine(core.current, rows, services)
    && (forall id :: id in core.current ==> core.current[id].status.state != Unset)
  }

  /** The phases in which the launcher works from the result of a calculation. */
  predicate Calculating(phase: Phase) {
    phase.Idle? || phase.StoppingSome? || phase.Starting? || phase.Restarting?
  }

  ghost predicate PhaseInv(phase: Phase, core: Core, rows: Rows, services: Services) {
    match phase
    case Boot => core.current == map[] && core.errors == map[] && !core.inProgress
    case StoppingAll(stops, source) =>
      SourceInv(source, rows) && !core.inProgress && core.current.Keys == stops.Keys
    case Ready(source) => SourceInv(source, rows) && !core.inProgress && Keyed(core.current)
    case Idle => IdleInv(core, rows, services)
    case StoppingSome(stops, starts) => StoppingSomeInv(core, rows, services, stops, starts)
    case Starting(tasks) => StartingInv(core, rows, services, tasks)
    case Restarting(tasks, saved) => RestartingInv(core, rows, services, tasks) && tasks.Keys == saved.Keys
  }

  function ServicesOf(s: State): Services {
    if s.basis.Some? then s.basis.value.services else map[]
  }

  ghost predicate Inv(s: State) {
    && (Calculating(s.phase) ==> s.basis.Some? && RunBasis(s.basis.value, s.core.errors, s.rows))
    && PhaseInv(s.phase, s.core, s.rows, ServicesOf(s))
  }

  /* ---- Status batches ---- */

  /** Only statuses differ, and a new status is never empty. */
  ghost predicate SameButStatus(a: Runtimes, b: Runtimes) {
    && a.Keys == b.Keys
    && forall id :: id in a ==>
         && b[id].instance == a[id].instance && b[id].service == a[id].service
         && (b[id].status.state == a[id].status.state || b[id].status.state != Unset)
  }

  lemma {:induction false} BatchChangesStatusOnly(current: Runtimes, reports: seq<Report>)
    requires forall r :: r in reports ==> r.status.state != Unset
    ensures SameButStatus(current, ApplyReports(current, reports))
  {
    if reports != [] {
      BatchChangesStatusOnly(current, reports[..|reports| - 1]);
    }
  }

  lemma SameButStatusKeeps(phase: Phase, core: Core, after: Core, rows: Rows, services: Services)
    requires PhaseInv(phase, core, rows, services) && SameButStatus(core.current, after.current)
    requires after.errors == core.errors && after.inProgress == core.inProgress
    ensures PhaseInv(phase, after, rows, services)
  {
    hide FineRun;
    if phase.StoppingSome? {
      assert after.current.Keys - phase.stops.Keys == core.current.Keys - phase.stops.Keys;
      forall id | id in after.current - phase.stops.Keys
        ensures FineRun(after.current[id].instance, after.current[id].service, id, rows, services)
      {
        assert id in core.current - phase.stops.Keys;
      }
    }
  }

  /* ---- Stop actions ---- */

  /** A stop among some: what is kept, started and failed stays as it is. */
  lemma StopSomeKeeps(s: State, step: Step)
    requires Inv(s) && s.phase.StoppingSome? && CanStop(s.phase.stops, step)
    ensures Inv(DoStop(s, step))
    ensures step.StopFind? ==> step.id in s.core.current
  {
    hide FineRun, AllFine, RunBasis, Ids, StartFine;
    var stops, t := s.phase.stops, DoStop(s, step);
    assert t.core.current.Keys - t.phase.stops.Keys == s.core.current.Keys - stops.Keys;
    assert t.core.current - t.phase.stops.Keys == s.core.current - stops.Keys;
  }

  lemma StopKeeps(s: State, step: Step)
    requires Inv(s) && (s.phase.StoppingAll? || s.phase.StoppingSome?)
    requires CanStop(s.phase.stops, step)
    ensures Inv(DoStop(s, step))
    ensures step.StopFind? ==> step.id in s.core.current
  {
    if s.phase.StoppingSome? {
      StopSomeKeeps(s, step);
    } else {
      hide FineRun, AllFine, RunBasis, Ids;
    }
  }

  lemma ToStartTasks(services: Services, starts: seq<StoredInstance>)
    requires DistinctIds(starts)
    ensures var tasks := ToStart(services, starts);
            && QueuedIds(tasks) == Elements(Ids(starts)) == tasks.Keys
            && forall i :: i in starts ==> i.id in tasks && tasks[i.id] == Queued(NewRuntime(i, ServiceOf(services, i)))
  {
    forall i | i in starts
      ensures i.id in Ids(starts) && FindId(starts, i.id) == Some(i)
    {
      var k :| 0 <= k < |starts| && starts[k] == i;
      assert Ids(starts)[k] == i.id;
      FindIdDistinct(starts, i);
    }
    forall id | id in Ids(starts)
      ensures FindId(starts, id).Some?
    {
      var ids := Ids(starts);
      var k :| 0 <= k < |ids| && ids[k] == id;
      assert starts[k] in starts;
    }
  }

  lemma InfoEqualReflexive(info: InstanceInfo)
    ensures InfoEqual(info, info)
  {
  }

  lemma StopsFinishedKeeps(core: Core, rows: Rows, services: Services, starts: seq<StoredInstance>)
    requires StoppingSomeInv(core, rows, services, map[], starts) && UsableServices(services)
    ensures StartingInv(core, rows, services, ToStart(services, starts))
  {
    hide InfoEqual, ToStart;
    ToStartTasks(services, starts);
    var tasks := ToStart(services, starts);
    var none: StopTasks := map[];
    assert core.current.Keys - none.Keys == core.current.Keys;
    assert core.current - none.Keys == core.current;
    var ids := Ids(starts);
    forall id | id in tasks
      ensures StartTaskInv(tasks[id], id, core, rows, services)
    {
      assert id in ids;
      var k :| 0 <= k < |ids| && ids[k] == id;
      assert starts[k] in starts;
      assert StartFine(starts[k], rows, services);
      InfoEqualReflexive(starts[k].info);
    }
  }

  /* ---- Start actions ---- */

  lemma MoveAcross(a: set<InstanceID>, b: set<InstanceID>, c: set<InstanceID>, all: set<InstanceID>, id: InstanceID)
    requires Partition3(a, b, c, all)
    ensures id in b ==> id !in a && Partition3(a + {id}, b - {id}, c, all)
    ensures id in a ==> Partition3(a - {id}, b + {id}, c, all)
  {
    if id in b {
      assert a + {id} + (b - {id}) + c == all;
    }
    if id in a {
      assert a - {id} + (b + {id}) + c == all;
    }
  }

  lemma InsertFine(core: Core, rt: Runtime, id: InstanceID, rows: Rows, services: Services)
    requires AllFine(core.current, rows, services) && Fine(rt, id, rows, services)
    ensures rt.instance.id == id
    ensures Inserted(core, rt).current == core.current[id := rt.(status := NO_STATUS)]
    ensures AllFine(Inserted(core, rt).current, rows, services)
  {
  }

  lemma StartTasksGrow(
      core: Core, after: Core, rows: Rows, services: Services, tasks: map<InstanceID, StartTask>,
      id: InstanceID, task: StartTask)
    requires forall other :: other in tasks ==> StartTaskInv(tasks[other], other, core, rows, services)
    requires core.current.Keys <= after.current.Keys && task == Running && id in after.current
    ensures var left := tasks[id := task];
            forall other :: other in left ==> StartTaskInv(left[other], other, after, rows, services)
  {
    var left := tasks[id := task];
    forall other | other in left
      ensures StartTaskInv(left[other], other, after, rows, services)
    {
      if other != id {
        assert StartTaskInv(tasks[other], other, core, rows, services);
      }
    }
  }

  lemma EnvTasksGrow(
      core: Core, after: Core, rows: Rows, services: Services, tasks: map<InstanceID, EnvTask>,
      id: InstanceID, task: EnvTask)
    requires forall other :: other in tasks ==> EnvTaskInv(tasks[other], other, core, rows, services)
    requires core.current.Keys <= after.current.Keys && task == EnvRunning(false) && id in after.current
    ensures var left := tasks[id := task];
            forall other :: other in left ==> EnvTaskInv(left[other], other, after, rows, services)
  {
    var left := tasks[id := task];
    forall other | other in left
      ensures EnvTaskInv(left[other], other, after, rows, services)
    {
      if other != id {
        assert EnvTaskInv(tasks[other], other, core, rows, services);
      }
    }
  }

  /** The branch "already started" is never taken. */
  lemma StartBeginKeeps(
      core: Core, rows: Rows, services: Services, tasks: map<InstanceID, StartTask>, id: InstanceID)
    requires StartingInv(core, rows, services, tasks) && id in tasks && tasks[id].Queued?
    ensures id !in core.current && tasks[id].rt.instance.id == id
    ensures StartingInv(Inserted(core, tasks[id].rt), rows, services, tasks[id := Running])
  {
    hide Partition3, FineRun;
    assert StartTaskInv(tasks[id], id, core, rows, services);
    assert id in QueuedIds(tasks);
    var rt := tasks[id].rt;
    InsertFine(core, rt, id, rows, services);
    assert QueuedIds(tasks[id := Running]) == QueuedIds(tasks) - {id};
    assert Inserted(core, rt).current.Keys == core.current.Keys + {id};
    MoveAcross(core.current.Keys, QueuedIds(tasks), core.errors.Keys, rows.Keys, id);
    StartTasksGrow(core, Inserted(core, rt), rows, services, tasks, id, Running);
  }

  /** The result of a start action changes the status of its instance, never to the empty one. */
  lemma ResultChangesStatusOnly(s: State, step: Step)
    requires (step.StartReport? || step.StartFail?) && step.id in s.core.current
    requires step.StartReport? ==> step.status.state != Unset
    ensures var after := StartResult(s, step);
            && SameButStatus(s.core.current, after.current)
            && after.errors == s.core.errors && after.inProgress == s.core.inProgress && after.sent == s.core.sent
            && after.current[step.id].status.state != Unset
            && (step.StartFail? ==> after.current[step.id].status.state == Failed)
            && forall id :: id in s.core.current && id != step.id ==> after.current[id] == s.core.current[id]
  {
  }

  lemma StartDoneKeeps(
      core: Core, rows: Rows, services: Services, tasks: map<InstanceID, StartTask>, id: InstanceID)
    requires StartingInv(core, rows, services, tasks) && id in tasks && tasks[id].Running?
    requires id in core.current && core.current[id].status.state != Unset
    ensures StartingInv(core, rows, services, tasks[id := Done])
  {
    hide FineRun;
    assert QueuedIds(tasks[id := Done]) == QueuedIds(tasks);
  }

  lemma StartKeeps(s: State, step: Step)
    requires Inv(s) && s.phase.Starting? && CanStart(s, s.phase.tasks, step)
    ensures Inv(DoStart(s, s.phase.tasks, step))
  {
    hide FineRun, RunBasis;
    var tasks, services := s.phase.tasks, ServicesOf(s);
    if step.StartBegin? {
      StartBeginKeeps(s.core, s.rows, services, tasks, step.id);
    } else if step.Finish? {
      forall id | id in tasks
        ensures tasks[id].Done?
      {
        assert StartTaskInv(tasks[id], id, s.core, s.rows, services);
      }
      assert QueuedIds(tasks) == {};
    } else {
      ResultChangesStatusOnly(s, step);
      SameButStatusKeeps(s.phase, s.core, StartResult(s, step), s.rows, services);
      StartDoneKeeps(StartResult(s, step), s.rows, services, tasks, step.id);
    }
  }

  lemma SweepKeeps(core: Core, rows: Rows, services: Services, order: seq<InstanceID>)
    requires IdleInv(core, rows, services) && forall id :: id in order ==> id in core.current
    ensures IdleInv(Swept(core, order), rows, services)
  {
    hide FineRun;
    assert SameButStatus(core.current, Swept(core, order).current);
    SameButStatusKeeps(Idle, core, Swept(core, order), rows, services);
  }

  /* ---- Restarts for the environment ---- */

  lemma RestartStopKeeps(
      core: Core, rows: Rows, services: Services, tasks: map<InstanceID, EnvTask>, id: InstanceID)
    requires RestartingInv(core, rows, services, tasks) && id in tasks && tasks[id].StopFound?
    requires id in core.current
    ensures RestartingInv(Stopped(core, id), rows, services, tasks[id := StartQueued(core.current[id])])
  {
    hide Partition3, FineRun;
    var after, left := Stopped(core, id), tasks[id := StartQueued(core.current[id])];
    assert after.current.Keys == core.current.Keys - {id};
    assert WaitingIds(left) == WaitingIds(tasks) + {id};
    MoveAcross(core.current.Keys, WaitingIds(tasks), core.errors.Keys, rows.Keys, id);
    assert FineRun(core.current[id].instance, core.current[id].service, id, rows, services);
    forall other | other in left
      ensures EnvTaskInv(left[other], other, after, rows, services)
    {
      if other != id {
        assert EnvTaskInv(tasks[other], other, core, rows, services);
      }
    }
  }

  lemma RestartBeginKeeps(
      core: Core, rows: Rows, services: Services, tasks: map<InstanceID, EnvTask>, id: InstanceID)
    requires RestartingInv(core, rows, services, tasks) && id in tasks && tasks[id].StartQueued?
    ensures id !in core.current && tasks[id].rt.instance.id == id
    ensures RestartingInv(Inserted(core, tasks[id].rt), rows, services, tasks[id := EnvRunning(false)])
  {
    hide Partition3, FineRun;
    assert EnvTaskInv(tasks[id], id, core, rows, services);
    assert id in WaitingIds(tasks);
    var rt := tasks[id].rt;
    InsertFine(core, rt, id, rows, services);
    assert WaitingIds(tasks[id := EnvRunning(false)]) == WaitingIds(tasks) - {id};
    assert Inserted(core, rt).current.Keys == core.current.Keys + {id};
    MoveAcross(core.current.Keys, WaitingIds(tasks), core.errors.Keys, rows.Keys, id);
    EnvTasksGrow(core, Inserted(core, rt), rows, services, tasks, id, EnvRunning(false));
  }

  /** A task that moves on without touching the map. */
  lemma RestartTaskKeeps(
      core: Core, rows: Rows, services: Services, tasks: map<InstanceID, EnvTask>, id: InstanceID, task: EnvTask)
    requires RestartingInv(core, rows, services, tasks) && id in tasks && !tasks[id].StartQueued?
    requires task.StopFound? || task.StopQueued? || task.EnvDone? || task == EnvRunning(true)
    requires task.EnvRunning? || (id in core.current && core.current[id].status.state != Unset)
    requires task.EnvRunning? ==> tasks[id].EnvRunning?
    ensures RestartingInv(core, rows, services, tasks[id := task])
  {
    hide FineRun;
    assert EnvTaskInv(tasks[id], id, core, rows, services);
    assert WaitingIds(tasks[id := task]) == WaitingIds(tasks);
  }

  /** The first visit to an instance. */
  lemma NewTaskKeeps(core: Core, rows: Rows, services: Services, tasks: map<InstanceID, EnvTask>, id: InstanceID)
    requires RestartingInv(core, rows, services, tasks) && id !in tasks && id in core.current
    ensures RestartingInv(core, rows, services, tasks[id := StopQueued])
  {
    hide FineRun;
    assert WaitingIds(tasks[id := StopQueued]) == WaitingIds(tasks);
  }

  lemma RestartVisits(s: State, step: Step)
    requires Inv(s) && s.phase.Restarting? && CanRestart(s, s.phase.envTasks, step) && step.EnvVisit?
    ensures Inv(DoRestart(s, s.phase.envTasks, s.phase.saved, step))
  {
    hide FineRun, RunBasis, Partition3, AllFine, Selected, Texts;
    var tasks, id := s.phase.envTasks, step.id;
    if id !in tasks {
      NewTaskKeeps(s.core, s.rows, ServicesOf(s), tasks, id);
    } else {
      RestartTaskKeeps(s.core, s.rows, ServicesOf(s), tasks, id,
                       if tasks[id].EnvRunning? then EnvRunning(true) else StopQueued);
    }
  }

  lemma StillRestarting(s: State, core: Core, tasks: map<InstanceID, EnvTask>)
    requires Inv(s) && s.phase.Restarting? && core.errors == s.core.errors
    requires RestartingInv(core, s.rows, ServicesOf(s), tasks) && tasks.Keys == s.phase.envTasks.Keys
    ensures Inv(s.(core := core, phase := Restarting(tasks, s.phase.saved)))
  {
  }

  lemma RestartFinds(s: State, step: Step)
    requires Inv(s) && s.phase.Restarting? && CanRestart(s, s.phase.envTasks, step) && step.StopFind?
    ensures step.id in s.core.current
    ensures Inv(DoRestart(s, s.phase.envTasks, s.phase.saved, step))
  {
    hide FineRun, RunBasis, Partition3, AllFine;
    assert EnvTaskInv(s.phase.envTasks[step.id], step.id, s.core, s.rows, ServicesOf(s));
    RestartTaskKeeps(s.core, s.rows, ServicesOf(s), s.phase.envTasks, step.id, StopFound);
    StillRestarting(s, s.core, s.phase.envTasks[step.id := StopFound]);
  }

  lemma RestartDeletes(s: State, step: Step)
    requires Inv(s) && s.phase.Restarting? && CanRestart(s, s.phase.envTasks, step) && step.StopDelete?
    ensures Inv(DoRestart(s, s.phase.envTasks, s.phase.saved, step))
  {
    hide FineRun, RunBasis, Partition3, AllFine;
    RestartStopKeeps(s.core, s.rows, ServicesOf(s), s.phase.envTasks, step.id);
    StillRestarting(s, Stopped(s.core, step.id), s.phase.envTasks[step.id := StartQueued(s.core.current[step.id])]);
  }

  lemma RestartBegins(s: State, step: Step)
    requires Inv(s) && s.phase.Restarting? && CanRestart(s, s.phase.envTasks, step) && step.StartBegin?
    ensures s.phase.envTasks[step.id].rt.instance.id == step.id && step.id !in s.core.current
    ensures Inv(DoRestart(s, s.phase.envTasks, s.phase.saved, step))
  {
    hide FineRun, RunBasis, Partition3, AllFine;
    RestartBeginKeeps(s.core, s.rows, ServicesOf(s), s.phase.envTasks, step.id);
    StillRestarting(s, Inserted(s.core, s.phase.envTasks[step.id].rt), s.phase.envTasks[step.id := EnvRunning(false)]);
  }

  lemma RestartResults(s: State, step: Step)
    requires Inv(s) && s.phase.Restarting? && CanRestart(s, s.phase.envTasks, step)
    requires step.StartReport? || step.StartFail?
    ensures Inv(DoRestart(s, s.phase.envTasks, s.phase.saved, step))
  {
    hide FineRun, RunBasis, Partition3, AllFine, Selected, Texts;
    var task := AfterStart(s.phase.envTasks[step.id], step.StartReport? || step.built);
    ResultChangesStatusOnly(s, step);
    RestartResultKeeps(s.core, StartResult(s, step), s.rows, ServicesOf(s), s.phase.envTasks, step.id, task);
    StillRestarting(s, StartResult(s, step), s.phase.envTasks[step.id := task]);
  }

  lemma RestartFinishes(s: State, step: Step)
    requires Inv(s) && s.phase.Restarting? && CanRestart(s, s.phase.envTasks, step) && step.EnvFinish?
    ensures Inv(DoRestart(s, s.phase.envTasks, s.phase.saved, step))
  {
    RestartedAll(s.core, s.rows, ServicesOf(s), s.phase.envTasks);
  }

  lemma RestartResultKeeps(
      core: Core, after: Core, rows: Rows, services: Services, tasks: map<InstanceID, EnvTask>, id: InstanceID,
      task: EnvTask)
    requires RestartingInv(core, rows, services, tasks) && id in tasks && tasks[id].EnvRunning?
    requires task.StopQueued? || task.EnvDone?
    requires SameButStatus(core.current, after.current)
    requires id in after.current && after.current[id].status.state != Unset
    requires after.errors == core.errors && after.inProgress == core.inProgress
    ensures RestartingInv(after, rows, services, tasks[id := task])
  {
    hide FineRun;
    SameButStatusKeeps(Restarting(tasks, map other | other in tasks :: Active), core, after, rows, services);
    RestartTaskKeeps(after, rows, services, tasks, id, task);
  }

  lemma RestartedAll(core: Core, rows: Rows, services: Services, tasks: map<InstanceID, EnvTask>)
    requires RestartingInv(core, rows, services, tasks)
    requires forall id :: id in tasks ==> tasks[id].EnvDone? || tasks[id].EnvAlreadyStarted?
    ensures IdleInv(core, rows, services)
  {
    hide FineRun;
    forall id | id in tasks
      ensures tasks[id].EnvDone?
    {
      assert EnvTaskInv(tasks[id], id, core, rows, services);
    }
    assert WaitingIds(tasks) == {};
  }

  lemma EnvBeginKeeps(core: Core, rows: Rows, services: Services)
    requires IdleInv(core, rows, services)
    ensures RestartingInv(core, rows, services, map[])
  {
    hide FineRun;
    assert WaitingIds(map[]) == {};
  }

  /* ---- Calculating the difference ---- */

  lemma ListingPermutation(list: seq<StoredInstance>, other: seq<StoredInstance>, rows: Rows)
    requires IsListing(list, rows) && multiset(other) == multiset(list)
    ensures IsListing(other, rows)
  {
    PermutedIds(list, other);
  }

  ghost predicate FailureOf(failed: seq<Failure>, instance: StoredInstance) {
    exists f :: f in failed && f.instance == instance
  }

  lemma {:induction false} FailedRuntimesFine(services: Services, failed: seq<Failure>)
    ensures var errors := FailedRuntimes(services, failed);
            && (errors == map[] ==> failed == [])
            && (forall id :: id in errors ==> errors[id].status.state == Failed && errors[id].instance.id == id)
  {
    if failed != [] {
      FailedRuntimesFine(services, failed[..|failed| - 1]);
      assert failed[|failed| - 1].instance.id in FailedRuntimes(services, failed);
    }
  }

  /** Every error instance stems from a failure. */
  lemma {:induction false} FailedRuntimeOrigin(services: Services, failed: seq<Failure>, id: InstanceID)
    requires id in FailedRuntimes(services, failed)
    ensures FailureOf(failed, FailedRuntimes(services, failed)[id].instance)
  {
    var n := |failed| - 1;
    if id == failed[n].instance.id {
      assert failed[n] in failed;
    } else {
      FailedRuntimeOrigin(services, failed[..n], id);
      var f :| f in failed[..n] && f.instance == FailedRuntimes(services, failed[..n])[id].instance;
      assert f in failed;
    }
  }

  lemma {:induction false} FailureRecorded(services: Services, failed: seq<Failure>, f: Failure)
    requires f in failed
    ensures f.instance.id in FailedRuntimes(services, failed)
  {
    var n := |failed| - 1;
    assert failed == failed[..n] + [failed[n]];
    if f != failed[n] {
      FailureRecorded(services, failed[..n], f);
    }
  }

  /** The rows after the matching, and that they answer the request. */
  lemma MatchedRows(s: State, step: Step)
    requires Inv(s) && s.phase.Ready? && step.Calculate? && CanCalculate(s, s.phase.source, step)
    ensures var rows := RowsAfter(Matched(s, s.phase.source, step.list, step.uuids));
            && IsListing(step.sorted, rows)
            && Answered(s.phase.source, rows)
  {
    var source := s.phase.source;
    var m := Matched(s, source, step.list, step.uuids);
    match source {
      case Stored(list) =>
        assert RowsAfter(m) == s.rows;
        ListingPermutation(list, step.sorted, s.rows);
      case Desired(desired) =>
        StorageMatched(step.list, s.rows, desired, step.uuids);
        ListingPermutation(m.running, step.sorted, RowsAfter(m));
        assert Answers(m.running, desired);
    }
  }

  /**
   * The difference is the same partition for every iteration order of the maps: the current instances split into
   * kept and stopped ones, the prepared into kept and started ones, and the kept ones are exactly the active
   * instances of the same version and the same info apart from the priority, which they take over.
   */
  lemma DifferencePartition(services: Services, current: Runtimes, prepared: seq<StoredInstance>)
    requires DistinctIds(prepared)
    ensures var stops, starts := Stops(services, current, prepared), Starts(services, current, prepared);
            var kept := set p | p in prepared && KeptId(services, current, p) :: p.id;
            && current.Keys == kept + stops && kept !! stops
            && Elements(Ids(prepared)) == kept + Elements(Ids(starts)) && kept !! Elements(Ids(starts))
            && DistinctIds(starts)
            && (forall i :: i in starts ==> i in prepared)
            && (Descending(prepared) ==> Descending(starts))
            && (forall p :: p in prepared && p.id in current ==>
                  Reprioritized(current, prepared)[p.id] == WithPriority(current[p.id], p.info.priority))
  {
    StartsElements(services, current, prepared);
    forall p | p in prepared
      ensures FindId(prepared, p.id) == Some(p)
    {
      FindIdDistinct(prepared, p);
    }
    CurrentPartition(services, current, prepared);
    PreparedSplit(services, current, prepared);
  }

  /** Two infos agree in every compared field but the priority. */
  ghost predicate SameButPriority(a: InstanceInfo, b: InstanceInfo) {
    && a.ident == b.ident && a.uid == b.uid && a.storagePath == b.storagePath && a.statePath == b.statePath
    && a.network.subnet == b.network.subnet && a.network.ip == b.network.ip && a.network.vlanID == b.network.vlanID
    && Covers(a.network.dnsServers, b.network.dnsServers) && Covers(a.network.firewallRules, b.network.firewallRules)
  }

  /**
   * An instance keeps running exactly if it is active, runs the version that the service now has, and its info differs
   * at most in the priority; the new priority is taken over, and nothing else of it changes.
   */
  lemma KeptIsExact(services: Services, current: Runtimes, prepared: seq<StoredInstance>, p: StoredInstance)
    requires DistinctIds(prepared) && p in prepared && p.id in current
    requires current[p.id].service.Some? && p.info.ident.serviceID in services
    ensures var rt, now := current[p.id], Reprioritized(current, prepared)[p.id];
            && (p.id !in Stops(services, current, prepared) <==>
                  && rt.status.state == Active && SameButPriority(rt.instance.info, p.info)
                  && rt.service.value.version == services[p.info.ident.serviceID].version)
            && now.instance.id == rt.instance.id && now.instance.info == rt.instance.info.(priority := p.info.priority)
            && now.service == rt.service && now.status == rt.status && now.overrides == rt.overrides
    ensures forall id :: id in current && (forall q :: q in prepared ==> q.id != id) ==>
              Reprioritized(current, prepared)[id] == current[id]
  {
    FindIdDistinct(prepared, p);
  }

  lemma CurrentPartition(services: Services, current: Runtimes, prepared: seq<StoredInstance>)
    requires forall p :: p in prepared ==> FindId(prepared, p.id) == Some(p)
    ensures var stops := Stops(services, current, prepared);
            var kept := set p | p in prepared && KeptId(services, current, p) :: p.id;
            current.Keys == kept + stops && kept !! stops
  {
    var stops := Stops(services, current, prepared);
    var kept := set p | p in prepared && KeptId(services, current, p) :: p.id;
    forall id
      ensures id in current <==> id in kept || id in stops
      ensures !(id in kept && id in stops)
    {
      if id in current && id !in stops {
        assert FindId(prepared, id).value in prepared;
      }
    }
  }

  lemma PreparedSplit(services: Services, current: Runtimes, prepared: seq<StoredInstance>)
    requires DistinctIds(prepared)
    requires forall p :: p in prepared ==> FindId(prepared, p.id) == Some(p)
    ensures var starts := Starts(services, current, prepared);
            var kept := set p | p in prepared && KeptId(services, current, p) :: p.id;
            Elements(Ids(prepared)) == kept + Elements(Ids(starts)) && kept !! Elements(Ids(starts))
  {
    hide Starts, KeptId, Ids, FindId;
    var starts := Starts(services, current, prepared);
    var kept := set p | p in prepared && KeptId(services, current, p) :: p.id;
    StartsElements(services, current, prepared);
    IdsElements(prepared);
    IdsElements(starts);
    forall p, q | p in prepared && KeptId(services, current, p) && q in starts
      ensures p.id != q.id
    {
      assert FindId(prepared, q.id) == Some(q) && FindId(prepared, p.id) == Some(p);
    }
    assert Elements(Ids(prepared)) == kept + Elements(Ids(starts));
  }

  lemma StartsElements(services: Services, current: Runtimes, prepared: seq<StoredInstance>)
    requires DistinctIds(prepared)
    ensures var starts := Starts(services, current, prepared);
            && (forall i :: i in starts <==> i in prepared && !KeptId(services, current, i))
            && DistinctIds(starts)
            && (Descending(prepared) ==> Descending(starts))
  {
    var start := NotKept(services, current);
    FilterElements(start, prepared);
    FilterDistinctIds(start, prepared);
    FilterDescending(start, prepared);
  }

  lemma IdsElements(list: seq<StoredInstance>)
    ensures Elements(Ids(list)) == set i | i in list :: i.id
  {
    var ids := Ids(list);
    forall i | i in list
      ensures i.id in ids
    {
      var k :| 0 <= k < |list| && list[k] == i;
      assert ids[k] == i.id;
    }
    forall id | id in ids
      ensures exists i :: i in list && i.id == id
    {
      var k :| 0 <= k < |ids| && ids[k] == id;
      assert list[k] in list;
    }
  }

  lemma {:induction false} FilterDescending(p: StoredInstance -> bool, list: seq<StoredInstance>)
    ensures Descending(list) ==> Descending(Filter(p, list))
  {
    if list != [] {
      var n := |list| - 1;
      FilterDescending(p, list[..n]);
      FilterElements(p, list[..n]);
      if Descending(list) {
        forall i | i in Filter(p, list[..n])
          ensures i.info.priority >= list[n].info.priority
        {
          var k :| 0 <= k < n && list[k] == i;
        }
      }
    }
  }

  lemma CalculateKeeps(s: State, step: Step)
    requires Inv(s) && s.phase.Ready? && step.Calculate? && CanCalculate(s, s.phase.source, step)
    ensures Inv(DoCalculate(s, s.phase.source, step))
  {
    MatchedRows(s, step);
    var rows := RowsAfter(Matched(s, s.phase.source, step.list, step.uuids));
    CalculatedInv(s.core, rows, step.config, step.services, step.sorted);
    var t := DoCalculate(s, s.phase.source, step);
    assert RunBasis(t.basis.value, t.core.errors, rows);
    assert PhaseInv(t.phase, t.core, rows, step.services);
  }

  /** What a calculation leaves behind. */
  lemma CalculatedInv(core: Core, rows: Rows, config: NodeConfig, services: Services, sorted: seq<StoredInstance>)
    requires IsListing(sorted, rows) && Keyed(core.current)
    ensures var prep := PrepareAll(config, services, sorted);
            var t := Calculated(core, config, services, sorted);
            && StoppingSomeInv(t, rows, services,
                               QueueStops(Stops(services, core.current, prep.prepared)),
                               Starts(services, core.current, prep.prepared))
            && ErrorsFine(t.errors, rows)
            && (t.errors == map[] ==> prep.failed == [])
  {
    hide FineRun, ErrorsFine, StartFine, Partition3, Starts, FailedRuntimes;
    FailedAreErrors(config, services, sorted, rows);
    CalculatedPartition(core, rows, config, services, sorted);
    CalculatedFine(core, rows, config, services, sorted);
    var stops := Stops(services, core.current, PrepareAll(config, services, sorted).prepared);
    assert QueueStops(stops).Keys == stops;
  }

  lemma FailedAreErrors(config: NodeConfig, services: Services, sorted: seq<StoredInstance>, rows: Rows)
    requires IsListing(sorted, rows)
    ensures var prep := PrepareAll(config, services, sorted);
            var errors := FailedRuntimes(services, prep.failed);
            && ErrorsFine(errors, rows)
            && (errors == map[] ==> prep.failed == [])
            && (forall id :: id in errors <==> exists f :: f in prep.failed && f.instance.id == id)
  {
    var prep := PrepareAll(config, services, sorted);
    var errors := FailedRuntimes(services, prep.failed);
    PreparePartition(config, services, sorted);
    FailedRuntimesFine(services, prep.failed);
    forall id | id in errors
      ensures id in rows && errors[id].instance == StoredInstance(rows[id], id)
      ensures exists f :: f in prep.failed && f.instance.id == id
    {
      FailedRuntimeOrigin(services, prep.failed, id);
      var f :| f in prep.failed && f.instance == errors[id].instance;
      assert f.instance in sorted;
    }
    forall f | f in prep.failed
      ensures f.instance.id in errors
    {
      FailureRecorded(services, prep.failed, f);
    }
  }

  lemma ErrorsAreFailures(config: NodeConfig, services: Services, sorted: seq<StoredInstance>, rows: Rows)
    requires IsListing(sorted, rows)
    ensures var prep := PrepareAll(config, services, sorted);
            var errors := FailedRuntimes(services, prep.failed);
            && DistinctIds(prep.prepared)
            && errors.Keys !! Elements(Ids(prep.prepared))
            && errors.Keys + Elements(Ids(prep.prepared)) == rows.Keys
            && (forall p :: p in prep.prepared ==> StartFine(p, rows, services))
  {
    hide PrepareAll, FailedRuntimes, ErrorsFine, Unusable;
    var prep := PrepareAll(config, services, sorted);
    var errors := FailedRuntimes(services, prep.failed);
    PreparePartition(config, services, sorted);
    PrepareDisjoint(config, services, sorted);
    PreparedUsable(config, services, sorted);
    FailedAreErrors(config, services, sorted, rows);
    IdsElements(prep.prepared);
    forall p | p in prep.prepared
      ensures StartFine(p, rows, services) && p.id !in errors
    {
      assert p in sorted;
    }
    forall id | id in rows
      ensures id in errors || id in Elements(Ids(prep.prepared))
    {
      var i := StoredInstance(rows[id], id);
      assert i in sorted;
      if i !in prep.prepared {
        var f :| f in prep.failed && f.instance == i;
      }
    }
    assert errors.Keys + Elements(Ids(prep.prepared)) == rows.Keys;
  }

  /** The core, the stops and the starts a calculation leaves behind. */
  lemma CalculatedPartition(
      core: Core, rows: Rows, config: NodeConfig, services: Services, sorted: seq<StoredInstance>)
    requires IsListing(sorted, rows)
    ensures var prep := PrepareAll(config, services, sorted);
            var t := Calculated(core, config, services, sorted);
            var stops := Stops(services, core.current, prep.prepared);
            var starts := Starts(services, core.current, prep.prepared);
            && stops <= t.current.Keys
            && DistinctIds(starts)
            && Partition3(t.current.Keys - stops, Elements(Ids(starts)), t.errors.Keys, rows.Keys)
            && (forall i :: i in starts ==> StartFine(i, rows, services))
  {
    ErrorsAreFailures(config, services, sorted, rows);
    var prep := PrepareAll(config, services, sorted);
    DifferencePartition(services, core.current, prep.prepared);
    var t := Calculated(core, config, services, sorted);
    var stops, starts := Stops(services, core.current, prep.prepared), Starts(services, core.current, prep.prepared);
    assert t.current.Keys == core.current.Keys;
    assert t.current.Keys - stops + Elements(Ids(starts)) == Elements(Ids(prep.prepared));
  }

  lemma CalculatedFine(
      core: Core, rows: Rows, config: NodeConfig, services: Services, sorted: seq<StoredInstance>)
    requires IsListing(sorted, rows) && Keyed(core.current)
    ensures var prep := PrepareAll(config, services, sorted);
            var t := Calculated(core, config, services, sorted);
            var stops := Stops(services, core.current, prep.prepared);
            && AllFine(t.current - stops, rows, services)
            && (forall id :: id in t.current && id !in stops ==> t.current[id].status.state == Active)
  {
    ErrorsAreFailures(config, services, sorted, rows);
    var prep := PrepareAll(config, services, sorted);
    var t := Calculated(core, config, services, sorted);
    var stops := Stops(services, core.current, prep.prepared);
    forall id | id in t.current && id !in stops
      ensures FineRun(t.current[id].instance, t.current[id].service, id, rows, services)
      ensures t.current[id].status.state == Active
    {
      var p := FindId(prep.prepared, id).value;
      assert StartFine(p, rows, services);
    }
  }

  /* ---- All steps ---- */

  lemma IdleKeyed(core: Core, rows: Rows, services: Services)
    requires IdleInv(core, rows, services)
    ensures Keyed(core.current)
  {
  }

  lemma LoadKeeps(s: State, step: Step)
    requires Inv(s) && Can(s, step) && step.Load?
    ensures Inv(Do(s, step))
  {
  }

  lemma RequestKeeps(s: State, step: Step)
    requires Inv(s) && Can(s, step) && step.Request?
    ensures Inv(Do(s, step))
  {
    hide FineRun, RunBasis;
    IdleKeyed(s.core, s.rows, ServicesOf(s));
  }

  lemma StopsFinishedStep(s: State, step: Step)
    requires Inv(s) && Can(s, step) && step.StopsFinished?
    ensures Inv(Do(s, step))
  {
    hide FineRun, StoppingSomeInv, StartingInv, ToStart;
    if s.phase.StoppingSome? {
      StopsFinishedKeeps(s.core, s.rows, ServicesOf(s), s.phase.starts);
    }
  }

  lemma SweepStep(s: State, step: Step)
    requires Inv(s) && Can(s, step) && step.Sweep?
    ensures Inv(Do(s, step))
  {
    hide FineRun, RunBasis, IdleInv;
    SweepKeeps(s.core, s.rows, ServicesOf(s), step.order);
  }

  lemma EnvBeginStep(s: State, step: Step)
    requires Inv(s) && Can(s, step) && step.EnvBegin?
    ensures Inv(Do(s, step))
  {
    hide FineRun, RunBasis, IdleInv, RestartingInv;
    EnvBeginKeeps(s.core, s.rows, ServicesOf(s));
  }

  lemma OperationKeeps(s: State, step: Step)
    requires Inv(s) && Can(s, step)
    requires step.Load? || step.Request? || step.Calculate? || step.StopsFinished? || step.Sweep? || step.EnvBegin?
    ensures Inv(Do(s, step))
  {
    if step.Load? {
      hide *;
      LoadKeeps(s, step);
    } else if step.Request? {
      hide *;
      RequestKeeps(s, step);
    } else if step.Calculate? {
      hide Inv;
      CalculateKeeps(s, step);
    } else if step.StopsFinished? {
      hide *;
      StopsFinishedStep(s, step);
    } else if step.Sweep? {
      hide *;
      SweepStep(s, step);
    } else {
      hide *;
      EnvBeginStep(s, step);
    }
  }

  lemma BatchKeeps(s: State, step: Step)
    requires Inv(s) && Can(s, step) && step.Batch?
    ensures Inv(Do(s, step))
  {
    BatchChangesStatusOnly(s.core.current, step.reports);
    SameButStatusKeeps(s.phase, s.core, UpdateInstancesStatuses(s.core, step.reports), s.rows, ServicesOf(s));
  }

  /** A step of an action belongs to the phase the launcher is in. */
  ghost predicate ActionStep(s: State, step: Step) {
    if s.phase.Starting? then CanStart(s, s.phase.tasks, step) && Do(s, step) == DoStart(s, s.phase.tasks, step)
    else if s.phase.Restarting? then
      && CanRestart(s, s.phase.envTasks, step)
      && Do(s, step) == DoRestart(s, s.phase.envTasks, s.phase.saved, step)
    else
      && (s.phase.StoppingAll? || s.phase.StoppingSome?)
      && CanStop(s.phase.stops, step) && Do(s, step) == DoStop(s, step)
  }

  lemma ActionOrOperation(s: State, step: Step)
    requires Can(s, step)
    ensures
      || step.Batch?
      || step.Load? || step.Request? || step.Calculate? || step.StopsFinished? || step.Sweep? || step.EnvBegin?
      || ActionStep(s, step)
  {
  }

  lemma ActionKeeps(s: State, step: Step)
    requires Inv(s) && Can(s, step) && ActionStep(s, step)
    ensures Inv(Do(s, step))
  {
    hide Inv, Can, Do;
    if s.phase.Starting? {
      StartKeeps(s, step);
    } else if s.phase.Restarting? {
      if step.EnvVisit? {
        RestartVisits(s, step);
      } else if step.StopFind? {
        RestartFinds(s, step);
      } else if step.StopDelete? {
        RestartDeletes(s, step);
      } else if step.StartBegin? {
        RestartBegins(s, step);
      } else if step.EnvFinish? {
        RestartFinishes(s, step);
      } else {
        RestartResults(s, step);
      }
    } else {
      StopKeeps(s, step);
    }
  }

  /** Every step of the launcher, in whatever order the steps come, keeps the invariant. */
  lemma StepKeepsInv(s: State, step: Step)
    requires Inv(s) && Can(s, step)
    ensures Inv(Do(s, step))
  {
    hide *;
    ActionOrOperation(s, step);
    if step.Batch? {
      BatchKeeps(s, step);
    } else if ActionStep(s, step) {
      ActionKeeps(s, step);
    } else {
      OperationKeeps(s, step);
    }
  }
}
