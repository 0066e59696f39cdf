/** Runs that end with a wrong belief of the receiver, from an initial state of the launcher on. */
module MisreportRuns {
  import opened Sequences
  import opened Instances
  import opened Devices
  import opened Preparation
  import opened StorageMatching
  import opened Reconciler
  import opened EnvVars
  import opened LauncherRuns
  import opened LauncherInvariant
  import opened LauncherView
  import opened LauncherTheorems
  import opened RestartReports
  import opened SharedIdents
  import opened StartRuns

  /* ---- Restarts ---- */

  /** A request that overrides one variable of every instance. */
  function OneVariable(): Step {
    EnvBegin(Some([EnvVarsInfo(InstanceFilter(None, None, None), [EnvVar("MODE", "1", None)])]), 0)
  }

  lemma OneVariableChanges(s: State, i: StoredInstance, services: Services, status: RunStatus)
    requires s.phase.Idle? && s.core.current == map[i.id := Begun(i, services, status)]
    ensures Can(s, OneVariable()) && OnlyOutdated(Do(s, OneVariable()), i.id)
  {
    var infos := [EnvVarsInfo(InstanceFilter(None, None, None), [EnvVar("MODE", "1", None)])];
    assert Cleaned(infos, 0) == infos;
    assert infos[..0] == [];
    assert |Selected(infos, i.info.ident)| == 1;
    assert |Overrides(infos, i.info.ident)| == 1;
    var t := Do(s, OneVariable());
    assert t.envVars == infos && t.core == s.core;
    hide Selected, Texts, Cleaned;
  }

  lemma OnlyRow(i: StoredInstance, current: Runtimes, services: Services, status: RunStatus)
    requires AllRun(current, [i], services, status)
    ensures current == map[i.id := Begun(i, services, status)] && DistinctRowIdents(RowsOf([i]))
  {
    assert Ids([i]) == [i.id];
    assert i in [i];
  }

  /** Both wrong beliefs are reached from an initial state, for any instance and any error of its starts. */
  lemma MisreportsAreReachable(
      i: StoredInstance, config: NodeConfig, services: Services, error: LaunchError, raced: bool)
    returns (steps: seq<Step>, t: State)
    requires Startable([i], config, services)
    ensures Init(Start([i])) && Run(Start([i]), steps, t)
    ensures t.phase.Idle? && i.id in t.core.current && t.core.current[i.id].status.state == Failed
    ensures Believed(t, i.id) == Some(Active)
    ensures raced || NoBatch(steps)
  {
    hide Can, Do, Run, Replay, OnlyOutdated, Startable, AllRun, RowsOf, DistinctRowIdents;
    var status := RunStatus(if raced then Failed else Active, None, 0);
    var first, s := AllInstancesRun([i], config, services, status);
    OnlyRow(i, s.core.current, services, status);
    OneVariableChanges(s, i, services, status);
    if raced {
      t := RacedRestartMisreports(s, OneVariable(), i.id, error);
      steps := [OneVariable()] + RacedAttemptSteps(i.id, error) + [EnvFinish([])];
    } else {
      StatusesReported(Start([i]), first, s);
      t := RevisitedRestartMisreports(s, OneVariable(), i.id, error);
      steps := [OneVariable()] + RevisitedSteps(i.id, error) + [EnvFinish([])];
    }
    RunThenRun(Start([i]), first, s, steps, t);
    steps := first + steps;
  }

  /* ---- Shared idents ---- */

  /** A batch that reports one of two instances with one ident failed: the receiver takes both for failed. */
  lemma OneBatchMisreports(s: State, i: InstanceID, j: InstanceID) returns (t: State)
    requires s.phase.Idle? && !s.core.inProgress && i in s.core.current && j in s.core.current && i != j
    requires s.core.current[i].instance.info.ident == s.core.current[j].instance.info.ident
    requires s.core.current[i].status.state != Failed
    ensures var batch := Batch([Report(i, RunStatus(Failed, None, 0))]);
            Can(s, batch) && t == Do(s, batch)
    ensures t.phase.Idle? && t.restarted == s.restarted && j in t.core.current
    ensures t.core.current[j] == s.core.current[j] && Believed(t, j) == Some(Failed)
  {
    var status := RunStatus(Failed, None, 0);
    OneUpdate(s.core.current, i, status);
    OneOverwrites(s.core.sent, Cloud(s.core.current[i].(status := status)));
    hide ApplyReports, Updates, Replay;
    t := Do(s, Batch([Report(i, status)]));
  }

  lemma BothRun(i: StoredInstance, j: StoredInstance, current: Runtimes, services: Services, status: RunStatus)
    requires AllRun(current, [i, j], services, status) && i.id != j.id
    ensures i.id in current && current[i.id] == Begun(i, services, status)
    ensures j.id in current && current[j.id] == Begun(j, services, status)
  {
    assert i in [i, j] && j in [i, j];
  }

  /** Two instances with one ident: a run without any restart ends with an active one believed to have failed. */
  lemma SharedIdentMisreports(i: StoredInstance, j: StoredInstance, config: NodeConfig, services: Services)
    returns (steps: seq<Step>, t: State)
    requires Startable([i, j], config, services) && i.info.ident == j.info.ident
    ensures Init(Start([i, j])) && Run(Start([i, j]), steps, t)
    ensures t.phase.Idle? && !t.restarted && j.id in t.core.current && t.core.current[j.id].status.state == Active
    ensures Believed(t, j.id) == Some(Failed) && !Agree(t.core)
  {
    hide Can, Do, Run, Replay, Startable, AllRun, RowsOf, Agree, AllKnown, Owned, ViewKeys, Statuses;
    var status := RunStatus(Active, None, 0);
    DifferentIds(i, j, config, services);
    var first, s := AllInstancesRun([i, j], config, services, status);
    BothRun(i, j, s.core.current, services, status);
    t := OneBatchMisreports(s, i.id, j.id);
    var batch := Batch([Report(i.id, RunStatus(Failed, None, 0))]);
    steps := first + [batch];
    RunThenStep(Start([i, j]), first, s, batch);
    ReportedIff(Start([i, j]), steps, t);
    NotKnown(t, j.id);
  }

  lemma DifferentIds(i: StoredInstance, j: StoredInstance, config: NodeConfig, services: Services)
    requires Startable([i, j], config, services)
    ensures i.id != j.id
  {
    assert [i, j][0].id != [i, j][1].id;
  }

  lemma NotKnown(t: State, id: InstanceID)
    requires id in t.core.current && Believed(t, id) != Some(t.core.current[id].status.state)
    ensures !AllKnown(Replay(t.core.sent), t.core)
  {
    hide Replay;
    assert Cloud(t.core.current[id]) in Statuses(t.core);
  }
}
