/** The run of the start-up: from an initial state on, whatever fits is stopped, started and reported. */
module StartRuns {
  import opened Sequences
  import opened Instances
  import opened Devices
  import opened Preparation
  import opened StorageMatching
  import opened Reconciler
  import opened EnvVars
  import opened LauncherRuns
  import opened LauncherInvariant
  import opened LauncherTheorems

  function RowsOf(list: seq<StoredInstance>): Rows {
    map id | id in Ids(list) && FindId(list, id).Some? :: FindId(list, id).value.info
  }

  /** An initial state with these instances in the storage. */
  function Start(list: seq<StoredInstance>): State {
    State(Core(map[], map[], false, []), RowsOf(list), 0, Boot, None, [], false, false, false)
  }

  /** The list is sorted as the launcher sorts it, its services are usable and its devices suffice. */
  ghost predicate Startable(list: seq<StoredInstance>, config: NodeConfig, services: Services) {
    DistinctIds(list) && Descending(list) && UsableServices(services) && Fits(config, services, list)
  }

  ghost predicate NoBatch(steps: seq<Step>) {
    forall step :: step in steps ==> !step.Batch?
  }

  function Begun(i: StoredInstance, services: Services, status: RunStatus): Runtime {
    Runtime(i, ServiceOf(services, i), status, [])
  }

  /** Exactly these instances run, all with this status. */
  ghost predicate AllRun(current: Runtimes, list: seq<StoredInstance>, services: Services, status: RunStatus) {
    && current.Keys == Elements(Ids(list))
    && forall i :: i in list ==> i.id in current && current[i.id] == Begun(i, services, status)
  }

  lemma ListingOfRows(list: seq<StoredInstance>)
    requires DistinctIds(list)
    ensures IsListing(list, RowsOf(list)) && RowsOf(list).Keys == Elements(Ids(list))
  {
    forall i | i in list ensures i.id in Ids(list) && FindId(list, i.id) == Some(i) {
      var k :| 0 <= k < |list| && list[k] == i;
      assert Ids(list)[k] == i.id;
      FindIdDistinct(list, i);
    }
    forall id | id in Ids(list) ensures FindId(list, id).Some? {
      var k :| 0 <= k < |Ids(list)| && Ids(list)[k] == id;
      assert list[k] in list;
    }
  }

  /* ---- Stopping ---- */

  lemma StopOne(s: State, id: InstanceID) returns (t: State)
    requires s.phase.StoppingAll? && id in s.phase.stops && !s.phase.stops[id] && id in s.core.current
    ensures Run(s, [StopFind(id)] + [StopDelete(id)], t)
    ensures t == s.(core := s.core.(current := s.core.current - {id}),
                    phase := StoppingAll(s.phase.stops - {id}, s.phase.source))
  {
    var r := Do(s, StopFind(id));
    t := Do(r, StopDelete(id));
    assert s.phase.stops[id := true] - {id} == s.phase.stops - {id};
    RunOne(s, StopFind(id));
    RunThenStep(s, [StopFind(id)], r, StopDelete(id));
    hide Can, Do, Run;
  }

  lemma {:induction false} StopAll(s: State) returns (steps: seq<Step>, t: State)
    requires s.phase.StoppingAll? && s.phase.stops == QueueStops(s.core.current.Keys)
    ensures Run(s, steps, t) && NoBatch(steps)
    ensures t == s.(core := s.core.(current := map[]), phase := StoppingAll(map[], s.phase.source))
    decreases |s.core.current|
  {
    if s.core.current == map[] {
      assert QueueStops({}) == map[];
      steps, t := [], s;
    } else {
      var id :| id in s.core.current;
      var r := StopOne(s, id);
      assert r.phase.stops == QueueStops(r.core.current.Keys);
      var more;
      more, t := StopAll(r);
      hide Can, Do, Run, NoBatch;
      steps := [StopFind(id)] + [StopDelete(id)] + more;
      RunThenRun(s, [StopFind(id)] + [StopDelete(id)], r, more, t);
      TwoMoreSteps(StopFind(id), StopDelete(id), more);
    }
  }

  /* ---- Calculating ---- */

  lemma NothingKept(services: Services, list: seq<StoredInstance>)
    ensures Starts(services, map[], list) == list && Stops(services, map[], list) == {}
    ensures Reprioritized(map[], list) == map[] && FailedRuntimes(services, []) == map[] && QueueStops({}) == map[]
  {
    FilterAll(NotKept(services, map[]), list);
  }

  lemma NothingRemoved(list: seq<StoredInstance>, rows: Rows)
    ensures var m := Matching(list, [], rows, 0); RowsAfter(m) == rows && WritesAfter(m) == 0
  {
    assert Ids([]) == [];
  }

  function FirstCalculation(list: seq<StoredInstance>, config: NodeConfig, services: Services): Step {
    Calculate(list, [], config, services, list)
  }

  lemma CalculateAll(s: State, list: seq<StoredInstance>, config: NodeConfig, services: Services) returns (t: State)
    requires s == Start(list).(phase := Ready(Stored(list))) && Startable(list, config, services)
    ensures Can(s, FirstCalculation(list, config, services)) && t == Do(s, FirstCalculation(list, config, services))
    ensures t == s.(core := s.core.(inProgress := true), phase := StoppingSome(map[], list),
                    basis := Some(Basis(Stored(list), config, services, list)))
  {
    CalculationIsPossible(s, list, config, services);
    AllPreparedIffFits(config, services, list);
    NothingKept(services, list);
    NothingRemoved(list, s.rows);
    hide PrepareAll, Starts, Stops, Reprioritized, FailedRuntimes, QueueStops, RowsAfter, WritesAfter, MatchDesired,
      IsListing, RowsOf, Fits, DistinctIds, Descending, Can, CanCalculate, Fresh;
    t := Do(s, FirstCalculation(list, config, services));
  }

  lemma CalculationIsPossible(s: State, list: seq<StoredInstance>, config: NodeConfig, services: Services)
    requires s == Start(list).(phase := Ready(Stored(list))) && Startable(list, config, services)
    ensures Can(s, FirstCalculation(list, config, services))
  {
    ListingOfRows(list);
    assert Matched(s, Stored(list), list, []).running == list;
    hide IsListing, RowsOf, Fits, DistinctIds, Descending, MatchDesired, UsableServices;
  }

  /* ---- Starting ---- */

  lemma StartOne(s: State, id: InstanceID, status: RunStatus) returns (t: State)
    requires s.phase.Starting? && id in s.phase.tasks && s.phase.tasks[id].Queued? && s.envVars == []
    requires s.phase.tasks[id].rt.instance.id == id && id !in s.core.current && status.state != Unset
    ensures Run(s, [StartBegin(id)] + [StartReport(id, status)], t)
    ensures var rt := s.phase.tasks[id].rt.(status := status, overrides := []);
            t == s.(core := s.core.(current := s.core.current[id := rt]), phase := Starting(s.phase.tasks[id := Done]))
  {
    var r := Do(s, StartBegin(id));
    assert Selected([], r.core.current[id].instance.info.ident) == [] && Texts([]) == [];
    assert SelectedFor(r, id) == [];
    t := Do(r, StartReport(id, status));
    assert t.core.current == s.core.current[id := s.phase.tasks[id].rt.(status := status, overrides := [])];
    assert t.phase.tasks == s.phase.tasks[id := Done];
    RunOne(s, StartBegin(id));
    RunThenStep(s, [StartBegin(id)], r, StartReport(id, status));
    hide Can, Do, Run;
  }

  /** Every task is queued and its place is free, or it is done and its instance runs. */
  ghost predicate Begins(s: State, list: seq<StoredInstance>, services: Services, status: RunStatus) {
    && s.phase.Starting? && s.envVars == []
    && s.phase.tasks.Keys == Elements(Ids(list)) && s.core.current.Keys <= s.phase.tasks.Keys
    && forall i :: i in list ==> BegunOrQueued(i, s.phase.tasks, s.core.current, services, status)
  }

  ghost predicate BegunOrQueued(
      i: StoredInstance, tasks: map<InstanceID, StartTask>, current: Runtimes, services: Services, status: RunStatus)
  {
    && i.id in tasks
    && if tasks[i.id].Done? then i.id in current && current[i.id] == Begun(i, services, status)
       else tasks[i.id] == Queued(NewRuntime(i, ServiceOf(services, i))) && i.id !in current
  }

  function ToBegin(s: State): set<InstanceID> {
    if s.phase.Starting? then s.phase.tasks.Keys - s.core.current.Keys else {}
  }

  lemma {:induction false} StartAll(s: State, list: seq<StoredInstance>, services: Services, status: RunStatus)
    returns (steps: seq<Step>, t: State)
    requires DistinctIds(list) && Begins(s, list, services, status) && status.state != Unset
    ensures Run(s, steps, t) && NoBatch(steps)
    ensures t.phase.Starting? && forall id :: id in t.phase.tasks ==> t.phase.tasks[id].Done?
    ensures AllRun(t.core.current, list, services, status)
    ensures t == s.(core := s.core.(current := t.core.current), phase := t.phase)
    decreases |ToBegin(s)|
  {
    if AllDone(s, list) {
      steps, t := [], s;
      RunNone(s);
      AllBegun(s, list, services, status);
    } else {
      hide Begins, DistinctIds, Run, AllRun, ToBegin, NoBatch, ServiceOf;
      var i :| i in list && i.id in s.phase.tasks && !s.phase.tasks[i.id].Done?;
      var r := StartNext(s, list, services, status, i);
      var first := [StartBegin(i.id)] + [StartReport(i.id, status)];
      var more;
      more, t := StartAll(r, list, services, status);
      steps := first + more;
      RunThenRun(s, first, r, more, t);
      TwoMoreSteps(StartBegin(i.id), StartReport(i.id, status), more);
    }
  }

  lemma TwoMoreSteps(a: Step, b: Step, more: seq<Step>)
    requires !a.Batch? && !b.Batch? && NoBatch(more)
    ensures NoBatch([a] + [b] + more)
  {
  }

  ghost predicate AllDone(s: State, list: seq<StoredInstance>) {
    s.phase.Starting? && forall i :: i in list && i.id in s.phase.tasks ==> s.phase.tasks[i.id].Done?
  }

  lemma StartNext(s: State, list: seq<StoredInstance>, services: Services, status: RunStatus, i: StoredInstance)
    returns (r: State)
    requires DistinctIds(list) && Begins(s, list, services, status) && status.state != Unset
    requires i in list && !s.phase.tasks[i.id].Done?
    ensures Run(s, [StartBegin(i.id)] + [StartReport(i.id, status)], r) && Begins(r, list, services, status)
    ensures |ToBegin(r)| < |ToBegin(s)|
    ensures r == s.(core := s.core.(current := r.core.current), phase := r.phase)
  {
    IsQueued(s, list, services, status, i);
    hide *;
    r := StartOne(s, i.id, status);
    OneMoreBegun(s, r, list, services, status, i);
    OneLessToBegin(s, r, i.id);
  }

  lemma IsQueued(s: State, list: seq<StoredInstance>, services: Services, status: RunStatus, i: StoredInstance)
    requires Begins(s, list, services, status) && i in list && !s.phase.tasks[i.id].Done?
    ensures s.phase.tasks[i.id].Queued? && i.id !in s.core.current && s.envVars == []
    ensures s.phase.tasks[i.id].rt.instance == i
    ensures s.phase.tasks[i.id].rt.(status := status, overrides := []) == Begun(i, services, status)
  {
    assert BegunOrQueued(i, s.phase.tasks, s.core.current, services, status);
  }

  lemma OneLessToBegin(s: State, r: State, id: InstanceID)
    requires s.phase.Starting? && r.phase.Starting? && id in s.phase.tasks && id !in s.core.current
    requires r.phase.tasks.Keys == s.phase.tasks.Keys && r.core.current.Keys == s.core.current.Keys + {id}
    ensures |ToBegin(r)| < |ToBegin(s)|
  {
    assert ToBegin(r) == ToBegin(s) - {id};
  }

  lemma RunNone(s: State)
    ensures Run(s, [], s)
  {
  }

  lemma OneMoreBegun(
      s: State, r: State, list: seq<StoredInstance>, services: Services, status: RunStatus, i: StoredInstance)
    requires DistinctIds(list) && Begins(s, list, services, status) && i in list && !s.phase.tasks[i.id].Done?
    requires r == s.(core := s.core.(current := s.core.current[i.id := Begun(i, services, status)]),
                     phase := Starting(s.phase.tasks[i.id := Done]))
    ensures Begins(r, list, services, status)
  {
    assert BegunOrQueued(i, s.phase.tasks, s.core.current, services, status);
    hide BegunOrQueued, DistinctIds, Ids, Begun;
    forall other | other in list
      ensures BegunOrQueued(other, r.phase.tasks, r.core.current, services, status)
    {
      OtherBegun(list, i, other, s.phase.tasks, s.core.current, services, status);
    }
  }

  lemma OtherBegun(
      list: seq<StoredInstance>, i: StoredInstance, other: StoredInstance, tasks: map<InstanceID, StartTask>,
      current: Runtimes, services: Services, status: RunStatus)
    requires DistinctIds(list) && i in list && other in list && BegunOrQueued(other, tasks, current, services, status)
    ensures BegunOrQueued(other, tasks[i.id := Done], current[i.id := Begun(i, services, status)], services, status)
  {
    FindIdDistinct(list, i);
    FindIdDistinct(list, other);
  }

  lemma AllBegun(s: State, list: seq<StoredInstance>, services: Services, status: RunStatus)
    requires Begins(s, list, services, status) && AllDone(s, list)
    ensures forall id :: id in s.phase.tasks ==> s.phase.tasks[id].Done?
    ensures AllRun(s.core.current, list, services, status)
  {
    forall id | id in s.phase.tasks ensures s.phase.tasks[id].Done? && id in s.core.current {
      var k :| 0 <= k < |Ids(list)| && Ids(list)[k] == id;
      assert list[k] in list;
    }
  }

  /* ---- The whole run ---- */

  lemma LoadAll(list: seq<StoredInstance>) returns (steps: seq<Step>, t: State)
    requires DistinctIds(list)
    ensures Run(Start(list), steps, t) && NoBatch(steps)
    ensures t == Start(list).(phase := Ready(Stored(list)))
  {
    var s := Start(list);
    ListingOfRows(list);
    var load := Load(list, map[]);
    var s1 := Do(s, load);
    RunOne(s, load);
    var stops, s2 := StopAll(s1);
    RunThenRun(s, [load], s1, stops, s2);
    t := Do(s2, StopsFinished);
    RunThenStep(s, [load] + stops, s2, StopsFinished);
    steps := [load] + stops + [StopsFinished];
    hide Can, Do, Run;
  }

  lemma BeginAll(s: State, list: seq<StoredInstance>, services: Services, status: RunStatus) returns (t: State)
    requires DistinctIds(list) && s.phase == StoppingSome(map[], list) && s.core.current == map[] && s.envVars == []
    requires s.basis.Some? && s.basis.value.services == services
    ensures Can(s, StopsFinished) && t == Do(s, StopsFinished) && Begins(t, list, services, status)
    ensures t == s.(phase := t.phase)
  {
    ToStartTasks(services, list);
    t := Do(s, StopsFinished);
    hide ToStart;
  }

  lemma EndAll(s: State, list: seq<StoredInstance>) returns (t: State)
    requires s.phase.Starting? && forall id :: id in s.phase.tasks ==> s.phase.tasks[id].Done?
    requires DistinctIds(list) && s.core.current.Keys == Elements(Ids(list)) && s.core.errors == map[]
    ensures Can(s, Finish(Ids(list), [])) && t == Do(s, Finish(Ids(list), []))
    ensures t.phase.Idle? && t.core.current == s.core.current && t.core.errors == map[] && !t.core.inProgress
    ensures t.envVars == s.envVars && !t.restarted && t.rows == s.rows
  {
    t := Do(s, Finish(Ids(list), []));
  }

  /** From an initial state a run without batches leads to the idle state in which what is stored runs. */
  lemma AllInstancesRun(list: seq<StoredInstance>, config: NodeConfig, services: Services, status: RunStatus)
    returns (steps: seq<Step>, t: State)
    requires Startable(list, config, services) && status.state != Unset
    ensures Init(Start(list)) && Run(Start(list), steps, t) && NoBatch(steps)
    ensures t.phase.Idle? && !t.core.inProgress && !t.restarted && t.envVars == [] && t.rows == RowsOf(list)
    ensures AllRun(t.core.current, list, services, status) && t.core.errors == map[]
  {
    hide Can, Do, Run, RowsOf, AllRun;
    var s0 := Start(list);
    var first, s1 := LoadAll(list);
    var s2 := CalculateAll(s1, list, config, services);
    var s3 := BeginAll(s2, list, services, status);
    hide Fits, Descending, UsableServices;
    var starts, s4 := StartAll(s3, list, services, status);
    assert s4.core.current.Keys == Elements(Ids(list)) by {
      RunKeys(s4.core.current, list, services, status);
    }
    t := EndAll(s4, list);
    var calculate, end := FirstCalculation(list, config, services), Finish(Ids(list), []);
    RunThenStep(s0, first, s1, calculate);
    RunThenStep(s0, first + [calculate], s2, StopsFinished);
    RunThenRun(s0, first + [calculate] + [StopsFinished], s3, starts, s4);
    RunThenStep(s0, first + [calculate] + [StopsFinished] + starts, s4, end);
    steps := first + [calculate] + [StopsFinished] + starts + [end];
  }

  lemma RunKeys(current: Runtimes, list: seq<StoredInstance>, services: Services, status: RunStatus)
    requires AllRun(current, list, services, status)
    ensures current.Keys == Elements(Ids(list))
  {
  }
}
