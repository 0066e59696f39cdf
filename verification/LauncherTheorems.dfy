/** What holds of the launcher after any run: convergence, status reporting and idempotence. */
module LauncherTheorems {
  import opened Sequences
  import opened Instances
  import opened Devices
  import opened Preparation
  import opened StorageMatching
  import opened Reconciler
  import opened LauncherRuns
  import opened LauncherInvariant
  import opened LauncherView

  /** `steps` lead from `s` to `t`. */
  ghost predicate Run(s: State, steps: seq<Step>, t: State)
    decreases |steps|
  {
    if steps == [] then s == t
    else Can(s, steps[0]) && Run(Do(s, steps[0]), steps[1..], t)
  }

  lemma {:induction false} RunKeeps(s: State, steps: seq<Step>, t: State)
    requires Inv(s) && ViewInv(s) && Run(s, steps, t)
    ensures Inv(t) && ViewInv(t)
    decreases |steps|
  {
    hide Inv, ViewInv, Can, Do;
    if steps != [] {
      StepKeepsInv(s, steps[0]);
      StepKeepsView(s, steps[0]);
      RunKeeps(Do(s, steps[0]), steps[1..], t);
    }
  }

  lemma InitInv(s: State)
    requires Init(s)
    ensures Inv(s) && ViewInv(s)
  {
  }

  /**
   * Convergence: whatever stop and start actions fail and however they interleave with status batches, after
   * every operation the running and the failed instances are disjoint and together are exactly the stored ones;
   * after a request the stored ones answer the requested ones one by one, also if an ident is requested repeatedly;
   * every running instance has a service with its configuration, no state is empty, and failed instances are in the
   * failed state.
   */
  lemma Convergence(s: State, steps: seq<Step>, t: State)
    requires Init(s) && Run(s, steps, t) && t.phase.Idle?
    ensures t.core.current.Keys !! t.core.errors.Keys
    ensures t.core.current.Keys + t.core.errors.Keys == t.rows.Keys
    ensures forall id :: id in t.core.current ==>
              && InfoEqual(t.core.current[id].instance.info, t.rows[id])
              && t.core.current[id].service.Some? && t.core.current[id].service.value.config.Some?
              && t.core.current[id].status.state != Unset
    ensures forall id :: id in t.core.errors ==>
              t.core.errors[id].instance == StoredInstance(t.rows[id], id) && t.core.errors[id].status.state == Failed
    ensures t.basis.Some? && (t.basis.value.source.Desired? ==>
              exists running :: IsListing(running, t.rows) && Answers(running, t.basis.value.source.desired))
  {
    InitInv(s);
    RunKeeps(s, steps, t);
  }

  /** All that runs is to be stopped, and nothing is started before. */
  ghost predicate Emptying(s: State) {
    || (s.phase.StoppingAll? && s.core.current.Keys == s.phase.stops.Keys)
    || (s.phase.Ready? && s.core.current == map[])
  }

  lemma EmptyingStep(s: State, step: Step)
    requires Emptying(s) && Can(s, step) && !step.Calculate?
    ensures Emptying(Do(s, step))
  {
    if step.Batch? {
      BatchKeepsKeys(s.core.current, step.reports);
      hide ApplyReports;
    }
  }

  lemma {:induction false} BatchKeepsKeys(current: Runtimes, reports: seq<Report>)
    ensures ApplyReports(current, reports).Keys == current.Keys
  {
    if reports != [] {
      BatchKeepsKeys(current, reports[..|reports| - 1]);
    }
  }

  lemma {:induction false} EmptyingRun(s: State, steps: seq<Step>, t: State)
    requires Emptying(s) && Run(s, steps, t) && forall step :: step in steps ==> !step.Calculate?
    ensures Emptying(t)
    decreases |steps|
  {
    hide Emptying, Can, Do;
    if steps != [] {
      EmptyingStep(s, steps[0]);
      EmptyingRun(Do(s, steps[0]), steps[1..], t);
    }
  }

  /**
   * At start-up every stored instance, and at a forced request every running one, is stopped before the calculation:
   * whatever happens in between, nothing runs when it begins.
   */
  lemma AllStopFirst(s: State, first: Step, steps: seq<Step>, t: State)
    requires first.Load? || (first.Request? && first.force)
    requires Can(s, first) && Run(Do(s, first), steps, t) && forall step :: step in steps ==> !step.Calculate?
    ensures first.Load? ==> Do(s, first).phase.StoppingAll? && Do(s, first).phase.stops.Keys == s.rows.Keys
    ensures t.phase.Ready? ==> t.core.current == map[]
  {
    if first.Load? {
      LoadStopsAll(s, first);
    }
    FirstEmpties(s, first);
    hide Emptying, Can, Do;
    EmptyingRun(Do(s, first), steps, t);
    OnlyEmpty(t);
  }

  lemma OnlyEmpty(t: State)
    requires Emptying(t)
    ensures t.phase.Ready? ==> t.core.current == map[]
  {
  }

  lemma FirstEmpties(s: State, first: Step)
    requires (first.Load? || (first.Request? && first.force)) && Can(s, first)
    ensures Emptying(Do(s, first))
  {
    hide Loaded, IsListing;
  }

  lemma LoadStopsAll(s: State, first: Step)
    requires first.Load? && Can(s, first)
    ensures Do(s, first).phase.StoppingAll? && Do(s, first).phase.stops.Keys == s.rows.Keys
  {
    ListingSize(first.list, s.rows);
    LoadedKeys(first.list, first.services);
    hide IsListing, Loaded, Ids;
  }

  lemma LoadedKeys(list: seq<StoredInstance>, services: Services)
    ensures Loaded(list, services).Keys == Elements(Ids(list))
  {
    forall id | id in Ids(list) ensures FindId(list, id).Some? {
      var k :| 0 <= k < |Ids(list)| && Ids(list)[k] == id;
      assert list[k] in list;
    }
    hide Unusable, NewRuntime, Fail, ServiceOf;
  }

  /** In every reachable state a stop action finds its instance and a start action finds its place free. */
  lemma NoActionMissesItsInstance(s: State, steps: seq<Step>, t: State, step: Step)
    requires Init(s) && Run(s, steps, t) && Can(t, step)
    ensures step.StopFind? ==> step.id in t.core.current
    ensures step.StartBegin? ==> step.id !in t.core.current
    ensures t.phase.Starting? ==> forall id :: id in t.phase.tasks ==> !t.phase.tasks[id].AlreadyStarted?
    ensures t.phase.Restarting? ==> forall id :: id in t.phase.envTasks ==> !t.phase.envTasks[id].EnvAlreadyStarted?
  {
    InitInv(s);
    RunKeeps(s, steps, t);
    if t.phase.Starting? {
      TasksStartOnce(t);
    } else if t.phase.Restarting? {
      TasksRestartOnce(t);
    }
    ActionOrOperation(t, step);
    if step.StopFind? {
      if t.phase.Restarting? {
        RestartFinds(t, step);
      } else {
        StopKeeps(t, step);
      }
    } else if step.StartBegin? {
      if t.phase.Restarting? {
        RestartBegins(t, step);
      } else {
        StartBeginKeeps(t.core, t.rows, ServicesOf(t), t.phase.tasks, step.id);
      }
    }
  }

  lemma TasksStartOnce(t: State)
    requires Inv(t) && t.phase.Starting?
    ensures forall id :: id in t.phase.tasks ==> !t.phase.tasks[id].AlreadyStarted?
  {
    forall id | id in t.phase.tasks
      ensures !t.phase.tasks[id].AlreadyStarted?
    {
      assert StartTaskInv(t.phase.tasks[id], id, t.core, t.rows, ServicesOf(t));
    }
  }

  lemma TasksRestartOnce(t: State)
    requires Inv(t) && t.phase.Restarting?
    ensures forall id :: id in t.phase.envTasks ==> !t.phase.envTasks[id].EnvAlreadyStarted?
  {
    forall id | id in t.phase.envTasks
      ensures !t.phase.envTasks[id].EnvAlreadyStarted?
    {
      assert EnvTaskInv(t.phase.envTasks[id], id, t.core, t.rows, ServicesOf(t));
    }
  }

  /**
   * Status reporting, if no two stored instances have one ident: after every operation the receiver knows exactly the
   * stored instances, and of each running and each failed one the full status, unless instances were restarted for
   * their environment since the last RunStatuses message; even then it knows every state, unless in such a restart a
   * status batch came in between or the iteration produced a restarted instance a second time.
   */
  lemma StatusesReported(s: State, steps: seq<Step>, t: State)
    requires Init(s) && Run(s, steps, t) && t.phase.Idle? && DistinctRowIdents(t.rows)
    ensures var view := Replay(t.core.sent);
            && ViewKeys(view, t.rows)
            && (forall id :: id in t.core.errors ==> Shown(view, t.core.errors[id]))
            && (!t.restarted ==> forall id :: id in t.core.current ==> Shown(view, t.core.current[id]))
            && (!t.raced && !t.revisited ==>
                  forall id :: id in t.core.current ==> StateShown(view, t.core.current[id]))
  {
    InitInv(s);
    RunKeeps(s, steps, t);
  }

  /** After a request the stored idents are distinct exactly if the requested ones are. */
  lemma IdentsAsRequested(s: State, steps: seq<Step>, t: State)
    requires Init(s) && Run(s, steps, t) && t.phase.Idle? && t.basis.Some? && t.basis.value.source.Desired?
    ensures DistinctRowIdents(t.rows) <==> DistinctDesired(t.basis.value.source.desired)
  {
    InitInv(s);
    RunKeeps(s, steps, t);
    hide InfoEqual, DistinctRowIdents, DistinctDesired, IsListing, Answers;
    var desired := t.basis.value.source.desired;
    var running :| IsListing(running, t.rows) && Answers(running, desired);
    AnswerIdents(running, t.rows, desired);
  }

  lemma AnswerIdents(running: seq<StoredInstance>, rows: Rows, desired: seq<InstanceInfo>)
    requires IsListing(running, rows) && Answers(running, desired)
    ensures DistinctRowIdents(rows) <==> DistinctDesired(desired)
  {
    forall i | 0 <= i < |desired|
      ensures running[i].info.ident == desired[i].ident
      ensures running[i].id in rows && rows[running[i].id] == running[i].info
    {
      AnswerIdent(running[i].info, desired[i]);
      assert running[i] in running;
    }
    forall a, b | a in rows && b in rows && a != b && DistinctDesired(desired)
      ensures rows[a].ident != rows[b].ident
    {
      var i :| 0 <= i < |running| && running[i] == StoredInstance(rows[a], a);
      var j :| 0 <= j < |running| && running[j] == StoredInstance(rows[b], b);
      assert desired[i].ident != desired[j].ident;
    }
  }

  lemma {:induction false} RunThenRun(s: State, first: seq<Step>, t: State, second: seq<Step>, u: State)
    requires Run(s, first, t) && Run(t, second, u)
    ensures Run(s, first + second, u)
    decreases |first|
  {
    hide Can, Do;
    if first == [] {
      assert first + second == second;
    } else {
      RunThenRun(Do(s, first[0]), first[1..], t, second, u);
      assert (first + second)[1..] == first[1..] + second;
    }
  }

  lemma RunOne(s: State, step: Step)
    requires Can(s, step)
    ensures Run(s, [step], Do(s, step))
  {
    hide Can, Do;
    assert [step][1..] == [];
    assert Run(Do(s, step), [], Do(s, step));
  }

  lemma RunThenStep(s: State, first: seq<Step>, t: State, step: Step)
    requires Run(s, first, t) && Can(t, step)
    ensures Run(s, first + [step], Do(t, step))
  {
    hide Can, Do, Run;
    RunOne(t, step);
    RunThenRun(s, first, t, [step], Do(t, step));
  }

  /* ---- Idempotence ---- */

  /** The last request left no failed instance and all instances are active. */
  ghost predicate AllActive(t: State) {
    && t.core.errors == map[]
    && forall id :: id in t.core.current ==> t.core.current[id].status.state == Active
  }

  /**
   * Requesting what is stored, with the same services and node configuration, writes nothing to the storage and
   * stops and starts nothing, whatever the storage order, whatever new IDs are on offer and however the sort breaks
   * ties; after a request as well as after the start-up.
   */
  lemma RequestIsIdempotent(
      s: State, steps: seq<Step>, t: State, again: seq<InstanceInfo>, step: Step, u: State)
    requires Init(s) && Run(s, steps, t) && t.phase.Idle? && AllActive(t)
    requires t.basis.Some? && Settled(t.rows, again)
    requires step.Calculate? && Run(t, [Request(again, false), step], u)
    requires step.config == t.basis.value.config && step.services == t.basis.value.services
    ensures u.rows == t.rows && u.writes == t.writes
    ensures u.phase == StoppingSome(map[], [])
    ensures u.core.current == t.core.current && u.core.errors == map[]
  {
    InitInv(s);
    RunKeeps(s, steps, t);
    IdleAgain(t, again, step, u);
  }

  /** After a request every permutation of it meets this condition, if what it asks for of one ident is the same. */
  lemma RepetitionIsSettled(s: State, steps: seq<Step>, t: State, again: seq<InstanceInfo>)
    requires Init(s) && Run(s, steps, t) && t.phase.Idle? && t.basis.Some? && t.basis.value.source.Desired?
    requires multiset(again) == multiset(t.basis.value.source.desired)
    requires forall d, e :: d in again && e in again && d.ident == e.ident ==> d == e
    ensures Settled(t.rows, again)
  {
    InitInv(s);
    RunKeeps(s, steps, t);
    var desired := t.basis.value.source.desired;
    hide InfoEqual, Settled;
    var running :| IsListing(running, t.rows) && Answers(running, desired);
    forall d | d in desired ensures d in again {
      assert d in multiset(again);
    }
    AnsweredIsSettled(t.rows, running, desired, again);
  }

  lemma IdleAgain(t: State, again: seq<InstanceInfo>, step: Step, u: State)
    requires Inv(t) && t.phase.Idle? && AllActive(t)
    requires t.basis.Some? && Settled(t.rows, again)
    requires step.Calculate? && Run(t, [Request(again, false), step], u)
    requires step.config == t.basis.value.config && step.services == t.basis.value.services
    ensures u.rows == t.rows && u.writes == t.writes
    ensures u.phase == StoppingSome(map[], [])
    ensures u.core.current == t.core.current && u.core.errors == map[]
  {
    RequestThenCalculate(t, again, step, u);
    var m := MatchDesired(step.list, t.rows, again, step.uuids);
    assert multiset(step.sorted) == multiset(m.running);
    SamePreparation(t, again, step);
    NothingToDo(t, step.sorted);
    NothingFailed(step.services);
    hide PrepareAll, MatchDesired, Inv, Stops, Starts, Reprioritized, FailedRuntimes, Do, Can, CanCalculate, IsListing,
      RowsAfter, WritesAfter, Run, QueueStops;
  }

  lemma NothingFailed(services: Services)
    ensures FailedRuntimes(services, []) == map[] && QueueStops({}) == map[]
  {
  }

  lemma RunTwo(s: State, first: Step, second: Step, t: State)
    requires Run(s, [first, second], t)
    ensures Can(s, first) && Can(Do(s, first), second) && t == Do(Do(s, first), second)
  {
    hide Can, Do;
    assert [first, second][1..] == [second] && [second][1..] == [];
    assert Run(Do(s, first), [second], t);
    assert Run(Do(Do(s, first), second), [], t);
  }

  /** `u` is what the calculation for the desired instances makes of `t`. */
  ghost predicate CalculatedFrom(t: State, desired: seq<InstanceInfo>, step: Step, u: State)
    requires step.Calculate? && |desired| <= |step.uuids|
  {
    var m := MatchDesired(step.list, t.rows, desired, step.uuids);
    var prep := PrepareAll(step.config, step.services, step.sorted);
    && multiset(step.sorted) == multiset(m.running)
    && u.rows == RowsAfter(m) && u.writes == t.writes + WritesAfter(m)
    && u.core == Calculated(t.core, step.config, step.services, step.sorted)
    && u.phase == StoppingSome(QueueStops(Stops(step.services, t.core.current, prep.prepared)),
                               Starts(step.services, t.core.current, prep.prepared))
  }

  lemma CalculateEffect(t: State, desired: seq<InstanceInfo>, step: Step)
    requires step.Calculate? && Can(t.(phase := Ready(Desired(desired))), step)
    ensures |desired| <= |step.uuids| && IsListing(step.list, t.rows)
    ensures CalculatedFrom(t, desired, step, Do(t.(phase := Ready(Desired(desired))), step))
  {
    hide PrepareAll, MatchDesired, RowsAfter, WritesAfter, Stops, Starts, IsListing, Calculated, Fresh, Descending;
  }

  lemma RequestThenCalculate(t: State, again: seq<InstanceInfo>, step: Step, u: State)
    requires t.phase.Idle? && step.Calculate? && Run(t, [Request(again, false), step], u)
    ensures |again| <= |step.uuids| && IsListing(step.list, t.rows)
    ensures CalculatedFrom(t, again, step, u)
  {
    hide *;
    RunTwo(t, Request(again, false), step, u);
    RequestEffect(t, again);
    CalculateEffect(t, again, step);
  }

  lemma RequestEffect(t: State, again: seq<InstanceInfo>)
    requires t.phase.Idle? && Can(t, Request(again, false))
    ensures Do(t, Request(again, false)) == t.(phase := Ready(Desired(again)))
  {
  }

  /** The matching writes nothing, and preparation succeeds for everything, in the new order as in the old. */
  lemma SamePreparation(t: State, again: seq<InstanceInfo>, step: Step)
    requires Inv(t) && t.phase.Idle? && t.core.errors == map[]
    requires t.basis.Some? && Settled(t.rows, again)
    requires step.Calculate? && |again| <= |step.uuids| && IsListing(step.list, t.rows)
    requires multiset(step.sorted) == multiset(MatchDesired(step.list, t.rows, again, step.uuids).running)
    requires step.config == t.basis.value.config && step.services == t.basis.value.services
    ensures var m := MatchDesired(step.list, t.rows, again, step.uuids);
            WritesAfter(m) == 0 && RowsAfter(m) == t.rows
    ensures IsListing(step.sorted, t.rows)
    ensures var prep := PrepareAll(step.config, step.services, step.sorted);
            prep.failed == [] && prep.prepared == step.sorted
  {
    var b := t.basis.value;
    assert RunBasis(b, t.core.errors, t.rows);
    hide Inv, PrepareAll, MatchDesired, ErrorsFine, Settled;
    MatchingIsIdempotent(step.list, t.rows, again, step.uuids);
    ListingPermutation(step.list, step.sorted, t.rows);
    ListingsPermute(step.sorted, b.sorted, t.rows);
    FitsInEveryOrder(step.config, step.services, step.sorted, b.sorted);
    AllPreparedIffFits(step.config, step.services, step.sorted);
  }

  /** Two listings of the same rows are permutations of each other. */
  lemma ListingsPermute(a: seq<StoredInstance>, b: seq<StoredInstance>, rows: Rows)
    requires IsListing(a, rows) && IsListing(b, rows)
    ensures multiset(a) == multiset(b)
  {
    forall x
      ensures multiset(a)[x] == multiset(b)[x]
    {
      ListingMember(a, rows, x);
      ListingMember(b, rows, x);
      if x in a {
        OnceInMultiset(a, x);
        OnceInMultiset(b, x);
      } else {
        assert x !in multiset(a) && x !in multiset(b);
      }
    }
  }

  lemma ListingMember(list: seq<StoredInstance>, rows: Rows, x: StoredInstance)
    requires IsListing(list, rows)
    ensures x in list <==> x.id in rows && rows[x.id] == x.info
  {
    if x.id in rows && rows[x.id] == x.info {
      assert StoredInstance(rows[x.id], x.id) == x;
    }
  }

  /** An active instance that runs what is asked for is kept, priority included. */
  lemma KeptWhenActive(rt: Runtime, p: StoredInstance, rows: Rows, services: Services)
    requires FineRun(rt.instance, rt.service, p.id, rows, services) && rt.status.state == Active
    requires p.id in rows && rows[p.id] == p.info
    ensures Kept(services, rt, p) && WithPriority(rt, p.info.priority) == rt
  {
    hide NetworkEqual;
  }

  /** With everything prepared, every running instance is kept. */
  lemma NothingToDo(t: State, prepared: seq<StoredInstance>)
    requires Inv(t) && t.phase.Idle? && AllActive(t) && IsListing(prepared, t.rows)
    ensures Stops(ServicesOf(t), t.core.current, prepared) == {}
    ensures Starts(ServicesOf(t), t.core.current, prepared) == []
    ensures Reprioritized(t.core.current, prepared) == t.core.current
  {
    var services, current := ServicesOf(t), t.core.current;
    assert t.core.current.Keys == t.rows.Keys && AllFine(current, t.rows, services);
    hide Inv, FineRun, Kept, WithPriority, FindId, Starts, NotKept;
    forall p | p in prepared
      ensures p.id in current && Kept(services, current[p.id], p) && FindId(prepared, p.id) == Some(p)
      ensures WithPriority(current[p.id], p.info.priority) == current[p.id]
    {
      FindIdDistinct(prepared, p);
      assert FineRun(current[p.id].instance, current[p.id].service, p.id, t.rows, services);
      KeptWhenActive(current[p.id], p, t.rows, services);
    }
    NothingToStart(services, current, prepared);
    forall id | id in current
      ensures StoredInstance(t.rows[id], id) in prepared
    {
    }
    hide IsListing, AllFine;
    AllKept(services, current, prepared);
  }

  lemma AllKept(services: Services, current: Runtimes, prepared: seq<StoredInstance>)
    requires forall p :: p in prepared ==>
               && p.id in current && Kept(services, current[p.id], p) && FindId(prepared, p.id) == Some(p)
               && WithPriority(current[p.id], p.info.priority) == current[p.id]
    requires forall id :: id in current ==> exists p :: p in prepared && p.id == id
    ensures Stops(services, current, prepared) == {}
    ensures Reprioritized(current, prepared) == current
  {
    hide Kept, WithPriority, FindId;
    forall id | id in current
      ensures FindId(prepared, id).Some? && Kept(services, current[id], FindId(prepared, id).value)
      ensures WithPriority(current[id], FindId(prepared, id).value.info.priority) == current[id]
    {
      var p :| p in prepared && p.id == id;
    }
  }

  lemma NothingToStart(services: Services, current: Runtimes, prepared: seq<StoredInstance>)
    requires forall p :: p in prepared ==> KeptId(services, current, p)
    ensures Starts(services, current, prepared) == []
  {
    FilterNone(NotKept(services, current), prepared);
  }
}
