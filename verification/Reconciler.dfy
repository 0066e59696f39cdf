/** The launcher's state and what each of its critical sections does to it. */
module Reconciler {
  import opened Sequences
  import opened Instances
  import opened Devices
  import opened Preparation

  /** `Unset` is the empty state string of an instance that has not reported yet. */
  datatype RunState = Unset | Active | Inactive | Failed

  datatype RunStatus = RunStatus(state: RunState, error: Option<LaunchError>, exitCode: int)

  const NO_STATUS := RunStatus(Unset, None, 0)

  /** A status the runner reports about one instance. */
  datatype Report = Report(id: InstanceID, status: RunStatus)

  datatype Runtime = Runtime(
    instance: StoredInstance, service: Option<ServiceEntry>, status: RunStatus, overrides: seq<string>)

  datatype ErrorInfo = ErrorInfo(exitCode: int, message: Option<LaunchError>)

  datatype CloudStatus = CloudStatus(ident: InstanceIdent, version: string, state: RunState, error: Option<ErrorInfo>)

  datatype Message = RunStatuses(all: seq<CloudStatus>) | UpdateStatuses(changed: seq<CloudStatus>)

  type Runtimes = map<InstanceID, Runtime>

  /** The launcher's maps, its in-progress flag and the messages it has sent. */
  datatype Core = Core(current: Runtimes, errors: Runtimes, inProgress: bool, sent: seq<Message>)

  function Cloud(rt: Runtime): CloudStatus {
    CloudStatus(
      rt.instance.info.ident,
      if rt.service.Some? then rt.service.value.version else "",
      rt.status.state,
      if rt.status.state == Failed then Some(ErrorInfo(rt.status.exitCode, rt.status.error)) else None)
  }

  function NewRuntime(instance: StoredInstance, service: Option<ServiceEntry>): Runtime {
    Runtime(instance, service, NO_STATUS, [])
  }

  /** The state becomes failed; the exit code of an earlier report stays. */
  function Fail(rt: Runtime, error: LaunchError): Runtime {
    rt.(status := RunStatus(Failed, Some(error), rt.status.exitCode))
  }

  /* ---- The cloud's view ---- */

  type View = map<InstanceIdent, CloudStatus>

  function Overwrite(view: View, statuses: seq<CloudStatus>): View {
    if statuses == [] then view
    else
      var last := statuses[|statuses| - 1];
      Overwrite(view, statuses[..|statuses| - 1])[last.ident := last]
  }

  /** What the receiver knows: RunStatuses replaces the view, UpdateStatuses overwrites its entries in order. */
  function Replay(sent: seq<Message>): View {
    if sent == [] then map[]
    else match sent[|sent| - 1]
      case RunStatuses(all) => Overwrite(map[], all)
      case UpdateStatuses(changed) => Overwrite(Replay(sent[..|sent| - 1]), changed)
  }

  function Clouds(ids: seq<InstanceID>, runtimes: Runtimes): seq<CloudStatus>
    requires forall id :: id in ids ==> id in runtimes
  {
    seq(|ids|, k requires 0 <= k < |ids| => Cloud(runtimes[ids[k]]))
  }

  /** `order` is one of the orders in which iteration may visit `keys`. */
  ghost predicate IsOrder(order: seq<InstanceID>, keys: set<InstanceID>) {
    Distinct(order) && forall id :: id in order <==> id in keys
  }

  /* ---- Runner status batch ---- */

  predicate Changes(current: Runtimes, report: Report) {
    report.id in current && current[report.id].status.state != report.status.state
  }

  function ApplyReport(current: Runtimes, report: Report): Runtimes {
    if Changes(current, report) then current[report.id := current[report.id].(status := report.status)] else current
  }

  function ApplyReports(current: Runtimes, reports: seq<Report>): Runtimes {
    if reports == [] then current
    else ApplyReport(ApplyReports(current, reports[..|reports| - 1]), reports[|reports| - 1])
  }

  /** The statuses a batch makes the launcher send, oldest first. */
  function Updates(current: Runtimes, reports: seq<Report>): seq<CloudStatus> {
    if reports == [] then []
    else
      var before := ApplyReports(current, reports[..|reports| - 1]);
      var report := reports[|reports| - 1];
      Updates(current, reports[..|reports| - 1]) +
      if Changes(before, report) then [Cloud(before[report.id].(status := report.status))] else []
  }

  function Send(sent: seq<Message>, changed: seq<CloudStatus>): seq<Message> {
    if changed == [] then sent else sent + [UpdateStatuses(changed)]
  }

  function UpdateInstancesStatuses(core: Core, reports: seq<Report>): Core {
    core.(current := ApplyReports(core.current, reports),
          sent := if core.inProgress then core.sent else Send(core.sent, Updates(core.current, reports)))
  }

  /* ---- Calculating the difference ---- */

  function FindId(list: seq<StoredInstance>, id: InstanceID): (found: Option<StoredInstance>)
    ensures found.Some? ==> found.value in list && found.value.id == id
    ensures found.None? ==> forall s :: s in list ==> s.id != id
  {
    if list == [] then None
    else if list[0].id == id then Some(list[0])
    else FindId(list[1..], id)
  }

  lemma FindIdDistinct(list: seq<StoredInstance>, i: StoredInstance)
    requires DistinctIds(list) && i in list
    ensures FindId(list, i.id) == Some(i)
  {
    var k :| 0 <= k < |list| && list[k] == i;
    assert list[k] in list;
    var found := FindId(list, i.id).value;
    var j :| 0 <= j < |list| && list[j] == found;
  }

  lemma SameIdSame(list: seq<StoredInstance>, a: StoredInstance, b: StoredInstance)
    requires DistinctIds(list) && a in list && b in list && a.id == b.id
    ensures a == b
  {
    FindIdDistinct(list, a);
    FindIdDistinct(list, b);
  }

  lemma OnceInMultiset(list: seq<StoredInstance>, x: StoredInstance)
    requires DistinctIds(list) && x in list
    ensures multiset(list)[x] == 1
  {
    var k :| 0 <= k < |list| && list[k] == x;
    assert list == list[..k] + [x] + list[k + 1..];
    assert x !in list[..k] && x !in list[k + 1..];
    assert x !in multiset(list[..k]) && x !in multiset(list[k + 1..]);
  }

  lemma {:induction false} PreparedUsable(config: NodeConfig, services: Services, instances: seq<StoredInstance>)
    ensures forall p :: p in PrepareAll(config, services, instances).prepared ==> Unusable(services, p) == None
    decreases |instances|
  {
    if instances != [] {
      PreparedUsable(config, services, instances[..|instances| - 1]);
    }
  }

  /** Reordering a list without repeated IDs repeats none. */
  lemma PermutedIds(list: seq<StoredInstance>, other: seq<StoredInstance>)
    requires DistinctIds(list) && multiset(other) == multiset(list)
    ensures DistinctIds(other) && forall x :: x in list <==> x in other
  {
    forall x
      ensures x in list <==> x in other
    {
      assert x in list <==> x in multiset(list);
      assert x in other <==> x in multiset(other);
    }
    forall i, j | 0 <= i < j < |other|
      ensures other[i].id != other[j].id
    {
      if other[i].id == other[j].id {
        SameIdSame(list, other[i], other[j]);
        TwiceInMultiset(other, i, j);
        OnceInMultiset(list, other[i]);
        assert false;
      }
    }
  }

  function ServiceOf(services: Services, instance: StoredInstance): Option<ServiceEntry> {
    if instance.info.ident.serviceID in services then Some(services[instance.info.ident.serviceID]) else None
  }

  function WithPriority(rt: Runtime, priority: nat): Runtime {
    rt.(instance := rt.instance.(info := rt.instance.info.(priority := priority)))
  }

  /** A running instance is left alone if it is active, of the same version and, priority aside, has the same info. */
  predicate Kept(services: Services, rt: Runtime, start: StoredInstance) {
    && (rt.service.Some? && ServiceOf(services, start).Some? ==>
          rt.service.value.version == ServiceOf(services, start).value.version)
    && rt.status.state == Active
    && InfoEqual(WithPriority(rt, start.info.priority).instance.info, start.info)
  }

  predicate KeptId(services: Services, current: Runtimes, start: StoredInstance) {
    start.id in current && Kept(services, current[start.id], start)
  }

  function Reprioritized(current: Runtimes, prepared: seq<StoredInstance>): Runtimes {
    map id | id in current ::
      var start := FindId(prepared, id);
      if start.Some? then WithPriority(current[id], start.value.info.priority) else current[id]
  }

  function NotKept(services: Services, current: Runtimes): StoredInstance -> bool {
    (start: StoredInstance) => !KeptId(services, current, start)
  }

  function Starts(services: Services, current: Runtimes, prepared: seq<StoredInstance>): seq<StoredInstance> {
    Filter(NotKept(services, current), prepared)
  }

  function Stops(services: Services, current: Runtimes, prepared: seq<StoredInstance>): set<InstanceID> {
    set id | id in current && (FindId(prepared, id).None? || !Kept(services, current[id], FindId(prepared, id).value))
  }

  /** The core after the difference is calculated; `sorted` are the requested instances by priority. */
  function Calculated(core: Core, config: NodeConfig, services: Services, sorted: seq<StoredInstance>): Core
  {
    var prep := PrepareAll(config, services, sorted);
    core.(inProgress := true, current := Reprioritized(core.current, prep.prepared),
          errors := FailedRuntimes(services, prep.failed))
  }

  /** The map of failed instances, filled in the order in which they failed. */
  function FailedRuntimes(services: Services, failed: seq<Failure>): Runtimes {
    if failed == [] then map[]
    else
      var f := failed[|failed| - 1];
      FailedRuntimes(services, failed[..|failed| - 1])
        [f.instance.id := Fail(NewRuntime(f.instance, ServiceOf(services, f.instance)), f.error)]
  }

  /* ---- Stop and start actions, end of run ---- */

  function Stopped(core: Core, id: InstanceID): Core {
    core.(current := core.current - {id})
  }

  function Inserted(core: Core, rt: Runtime): Core {
    core.(current := core.current[rt.instance.id := rt.(status := NO_STATUS)])
  }

  /** The start action knows its result; a status that arrived from the runner meanwhile takes precedence. */
  function Reported(core: Core, id: InstanceID, status: RunStatus, overrides: seq<string>): Core
    requires id in core.current
  {
    var rt := core.current[id].(overrides := overrides);
    core.(current := core.current[id := if rt.status.state == Unset then rt.(status := status) else rt])
  }

  /** The start action failed, before (`None`) or after it had rebuilt the runtime spec. */
  function StartFailed(core: Core, id: InstanceID, error: LaunchError, overrides: Option<seq<string>>): Core
    requires id in core.current
  {
    var rt := core.current[id];
    core.(current := core.current[id :=
            Fail(if overrides.Some? then rt.(overrides := overrides.value) else rt, error)])
  }

  /** How a start action ends: before the runner was asked, with the spec rebuilt or not, or with its answer. */
  datatype StartOutcome =
    | SetupFailed(error: LaunchError, built: bool)
    | RunnerAnswered(status: ReportedStatus)

  /** The runner never reports the empty state. */
  type ReportedStatus = status: RunStatus | status.state != Unset witness RunStatus(Failed, None, 0)

  function StartEnd(core: Core, id: InstanceID, result: StartOutcome, overrides: seq<string>): Core
    requires id in core.current
  {
    match result
    case SetupFailed(error, built) => StartFailed(core, id, error, if built then Some(overrides) else None)
    case RunnerAnswered(status) => Reported(core, id, status, overrides)
  }

  /** An instance that is stopped and started again, with nothing in between. */
  function Restarted(rt: Runtime, result: StartOutcome, overrides: seq<string>): Runtime {
    match result
    case SetupFailed(error, built) =>
      Fail(rt.(status := NO_STATUS, overrides := if built then overrides else rt.overrides), error)
    case RunnerAnswered(status) => rt.(status := status, overrides := overrides)
  }

  function Ended(core: Core, order: seq<InstanceID>, errorOrder: seq<InstanceID>): Core
    requires forall id :: id in order ==> id in core.current
    requires forall id :: id in errorOrder ==> id in core.errors
  {
    core.(inProgress := false,
          sent := core.sent + [RunStatuses(Clouds(order, core.current) + Clouds(errorOrder, core.errors))])
  }

  /* ---- Offline sweep ---- */

  predicate IsOffline(error: Option<LaunchError>) {
    error == Some(ServiceUnusable(OfflineTimeout))
  }

  predicate Expired(rt: Runtime, onlineTime: int, now: int) {
    && rt.service.Some? && rt.service.value.config.Some?
    && rt.service.value.config.value.offlineTTL != 0
    && onlineTime + rt.service.value.config.value.offlineTTL < now
    && !IsOffline(rt.status.error)
  }

  function ExpiredIds(current: Runtimes, onlineTime: int, now: int): set<InstanceID> {
    set id | id in current && Expired(current[id], onlineTime, now)
  }

  function FailAll(current: Runtimes, ids: set<InstanceID>): Runtimes {
    map id | id in current ::
      if id in ids then Fail(current[id], ServiceUnusable(OfflineTimeout)) else current[id]
  }

  /** The expired instances are stopped, put back as failed and reported, in the order they were collected. */
  function Swept(core: Core, order: seq<InstanceID>): Core
    requires forall id :: id in order ==> id in core.current
  {
    var current := FailAll(core.current, Elements(order));
    core.(current := current, sent := Send(core.sent, Clouds(order, current)))
  }
}
