/** What the receiver of the status messages knows after instances were restarted for their environment. */
module RestartReports {
  import opened Sequences
  import opened Instances
  import opened Devices
  import opened Preparation
  import opened StorageMatching
  import opened Reconciler
  import opened EnvVars
  import opened EnvRestarts
  import opened LauncherRuns
  import opened LauncherInvariant
  import opened LauncherView
  import opened LauncherTheorems

  /* ---- What was told last ---- */

  /** The state sent last for an instance: the one the last change of the batch left, if the batch changed it. */
  function Told(current: Runtimes, reports: seq<Report>, id: InstanceID, told: RunState): RunState {
    if reports == [] then told
    else
      var last := reports[|reports| - 1];
      if last.id == id && Changes(ApplyReports(current, reports[..|reports| - 1]), last) then last.status.state
      else Told(current, reports[..|reports| - 1], id, told)
  }

  ghost function ToldAfter(s: State, step: Step, id: InstanceID, told: RunState): RunState {
    if step.Batch? then Told(s.core.current, step.reports, id, told) else told
  }

  /** The state left by the last batch of the steps that changed the instance, or `told` if none did. */
  ghost function LastTold(s: State, steps: seq<Step>, id: InstanceID, told: RunState): RunState
    decreases |steps|
  {
    if steps == [] || !Can(s, steps[0]) then told
    else LastTold(Do(s, steps[0]), steps[1..], id, ToldAfter(s, steps[0], id, told))
  }

  ghost predicate Unfinished(steps: seq<Step>) {
    forall step :: step in steps ==> !step.EnvFinish?
  }

  /* ---- The window of a restart ---- */

  ghost predicate Receives(view: View, rows: Rows, id: InstanceID, told: RunState) {
    id in rows && rows[id].ident in view && view[rows[id].ident].state == told
  }

  /**
   * While instances restart: the receiver has what was told last, and that is the state of an unvisited instance if it
   * was `shown` before.
   */
  ghost predicate InWindow(s: State, id: InstanceID, told: RunState, shown: bool) {
    && Inv(s) && DistinctRowIdents(s.rows) && s.phase.Restarting? && id in s.rows && id !in s.core.errors
    && ViewKeys(Replay(s.core.sent), s.rows)
    && Receives(Replay(s.core.sent), s.rows, id, told)
    && (shown && id !in s.phase.envTasks ==> id in s.core.current && s.core.current[id].status.state == told)
  }

  lemma OneTells(view: View, current: Runtimes, rows: Rows, rt: Runtime, id: InstanceID, other: InstanceID)
    requires IdentsMatch(current, rows) && DistinctRowIdents(rows) && id in rows && rows[id].ident in view
    requires other in current && rt.instance == current[other].instance
    ensures view[Cloud(rt).ident := Cloud(rt)][rows[id].ident].state ==
            if id == other then rt.status.state else view[rows[id].ident].state
    ensures other in rows && Cloud(rt).ident == rows[other].ident
  {
    OtherIdents(current, rows, other);
    hide DistinctRowIdents;
  }

  /** The updates of a batch leave the receiver with what was told last. */
  lemma {:induction false} BatchTells(view: View, current: Runtimes, reports: seq<Report>, rows: Rows, id: InstanceID)
    requires IdentsMatch(current, rows) && DistinctRowIdents(rows) && ViewKeys(view, rows) && id in rows
    ensures var after := Overwrite(view, Updates(current, reports));
            && after.Keys == view.Keys
            && after[rows[id].ident].state == Told(current, reports, id, view[rows[id].ident].state)
    ensures IdentsMatch(ApplyReports(current, reports), rows) && ApplyReports(current, reports).Keys == current.Keys
  {
    hide DistinctRowIdents, Cloud;
    if reports != [] {
      var n := |reports| - 1;
      var before, updates := ApplyReports(current, reports[..n]), Updates(current, reports[..n]);
      BatchTells(view, current, reports[..n], rows, id);
      if Changes(before, reports[n]) {
        var rt := before[reports[n].id].(status := reports[n].status);
        assert Updates(current, reports) == updates + [Cloud(rt)];
        assert (updates + [Cloud(rt)])[..|updates|] == updates;
        OneTells(Overwrite(view, updates), before, rows, rt, id, reports[n].id);
      } else {
        assert Updates(current, reports) == updates;
      }
    }
  }

  lemma {:induction false} ToldIsState(current: Runtimes, reports: seq<Report>, id: InstanceID, told: RunState)
    requires id in current && current[id].status.state == told
    ensures id in ApplyReports(current, reports)
    ensures ApplyReports(current, reports)[id].status.state == Told(current, reports, id, told)
  {
    if reports != [] {
      ToldIsState(current, reports[..|reports| - 1], id, told);
    }
  }

  lemma BatchEffect(s: State, step: Step)
    requires Inv(s) && s.phase.Restarting? && step.Batch? && Can(s, step)
    ensures var t := Do(s, step);
            && t.phase == s.phase && t.rows == s.rows && t.core.errors == s.core.errors
            && t.core.current == ApplyReports(s.core.current, step.reports)
            && t.core.sent == Send(s.core.sent, Updates(s.core.current, step.reports))
  {
  }

  lemma BatchReceives(
      view: View, current: Runtimes, reports: seq<Report>, rows: Rows, id: InstanceID, told: RunState)
    requires IdentsMatch(current, rows) && DistinctRowIdents(rows) && ViewKeys(view, rows)
    requires Receives(view, rows, id, told)
    ensures var after := Overwrite(view, Updates(current, reports));
            ViewKeys(after, rows) && Receives(after, rows, id, Told(current, reports, id, told))
  {
    BatchTells(view, current, reports, rows, id);
    hide Overwrite, Updates, Told;
  }

  lemma BatchInWindow(s: State, step: Step, id: InstanceID, told: RunState, shown: bool)
    requires InWindow(s, id, told, shown) && step.Batch? && Can(s, step)
    ensures InWindow(Do(s, step), id, ToldAfter(s, step, id, told), shown)
  {
    StepKeepsInv(s, step);
    InvIdents(s);
    BatchEffect(s, step);
    var view, reports := Replay(s.core.sent), step.reports;
    hide Inv, Can, Do, Replay, Overwrite, Updates, Told, DistinctRowIdents, IdentsMatch, ApplyReports, Send, ViewKeys,
      Receives;
    BatchReceives(view, s.core.current, reports, s.rows, id, told);
    ReplaySend(s.core.sent, Updates(s.core.current, reports));
    if shown && id !in s.phase.envTasks {
      ToldIsState(s.core.current, reports, id, told);
    }
  }

  lemma RestartingStep(s: State, step: Step)
    requires s.phase.Restarting? && Can(s, step) && !step.Batch?
    ensures CanRestart(s, s.phase.envTasks, step)
    ensures Do(s, step) == DoRestart(s, s.phase.envTasks, s.phase.saved, step)
  {
    hide CanRestart, DoRestart;
  }

  lemma PlaceIsFree(s: State, step: Step)
    requires Inv(s) && s.phase.Restarting? && CanRestart(s, s.phase.envTasks, step) && step.StartBegin?
    ensures s.phase.envTasks[step.id].rt.instance.id == step.id && step.id !in s.core.current
  {
    RestartBegins(s, step);
    hide Inv, DoRestart;
  }

  /** The actions send nothing and change only visited instances. */
  lemma ActionEffect(s: State, step: Step)
    requires Inv(s) && s.phase.Restarting? && Can(s, step) && !step.Batch? && !step.EnvFinish?
    ensures var t := Do(s, step);
            && t.phase.Restarting? && t.rows == s.rows && t.core.errors == s.core.errors && t.core.sent == s.core.sent
            && s.phase.envTasks.Keys <= t.phase.envTasks.Keys
            && (forall id :: id in s.core.current && id !in t.phase.envTasks ==>
                  id in t.core.current && t.core.current[id] == s.core.current[id])
  {
    RestartingStep(s, step);
    if step.StartBegin? {
      PlaceIsFree(s, step);
    }
    hide Inv, Overrides, Can, Do;
  }

  lemma StepInWindow(s: State, step: Step, id: InstanceID, told: RunState, shown: bool)
    requires InWindow(s, id, told, shown) && Can(s, step) && !step.EnvFinish?
    ensures InWindow(Do(s, step), id, ToldAfter(s, step, id, told), shown)
  {
    if step.Batch? {
      BatchInWindow(s, step, id, told, shown);
    } else {
      StepKeepsInv(s, step);
      ActionEffect(s, step);
      hide Inv, Can, Do, Replay, ViewKeys, Receives;
    }
  }

  lemma {:induction false} RunInWindow(
      s: State, steps: seq<Step>, t: State, id: InstanceID, told: RunState, shown: bool)
    requires InWindow(s, id, told, shown) && Run(s, steps, t) && Unfinished(steps)
    ensures InWindow(t, id, LastTold(s, steps, id, told), shown)
    decreases |steps|
  {
    hide InWindow, Can, Do, ToldAfter;
    if steps != [] {
      StepInWindow(s, steps[0], id, told, shown);
      RunInWindow(Do(s, steps[0]), steps[1..], t, id, ToldAfter(s, steps[0], id, told), shown);
    }
  }

  lemma BeginsWindow(s: State, begin: Step, id: InstanceID)
    requires Inv(s) && ViewInv(s) && DistinctRowIdents(s.rows)
    requires s.phase.Idle? && begin.EnvBegin? && Can(s, begin) && id in s.core.current
    ensures Believed(s, id).Some?
    ensures InWindow(Do(s, begin), id, Believed(s, id).value, StateShown(Replay(s.core.sent), s.core.current[id]))
  {
    KnownBefore(s, id);
    StepKeepsInv(s, begin);
    BeginEffect(s, begin);
    hide Inv, ViewInv, Can, Do, Replay, ViewKeys, DistinctRowIdents;
  }

  lemma KnownBefore(s: State, id: InstanceID)
    requires Inv(s) && ViewInv(s) && DistinctRowIdents(s.rows) && s.phase.Idle? && id in s.core.current
    ensures id in s.rows && id !in s.core.errors && s.core.current[id].instance.info.ident == s.rows[id].ident
    ensures ViewKeys(Replay(s.core.sent), s.rows) && s.rows[id].ident in Replay(s.core.sent)
  {
    InvIdents(s);
    hide Replay, RunBasis, FineRun, DistinctRowIdents;
  }

  lemma BeginEffect(s: State, begin: Step)
    requires begin.EnvBegin? && Can(s, begin)
    ensures var t := Do(s, begin);
            && t.phase == Restarting(map[], map[]) && t.rows == s.rows && t.core == s.core
            && t.raced == s.raced && t.revisited == s.revisited && t.restarted == s.restarted
  {
    hide Cleaned;
  }

  /** The last step of a restart: the message names the visited instances whose state is not the saved one. */
  lemma EndsWindow(u: State, finish: Step, id: InstanceID, told: RunState, shown: bool)
    requires InWindow(u, id, told, shown) && finish.EnvFinish? && Can(u, finish)
    ensures var t := Do(u, finish);
            && id in t.core.current && t.core.current == u.core.current && u.phase.envTasks.Keys == u.phase.saved.Keys
            && (StateShown(Replay(t.core.sent), t.core.current[id]) <==>
                || (id in u.phase.saved && u.phase.saved[id] != t.core.current[id].status.state)
                || told == t.core.current[id].status.state)
            && (shown && id !in u.phase.saved ==> told == t.core.current[id].status.state)
  {
    InvIdents(u);
    StepKeepsInv(u, finish);
    FinishStep(u, finish);
    StillThere(u, finish, id);
    assert id in finish.order <==> id in u.phase.saved && u.phase.saved[id] != u.core.current[id].status.state;
    ReplaySend(u.core.sent, Clouds(finish.order, u.core.current));
    ShownExactly(Replay(u.core.sent), finish.order, u.core.current, u.rows, id);
    hide Inv, Can, Do, Replay, Clouds, Overwrite, DistinctRowIdents, ViewKeys;
  }

  /** When all actions have ended every stored instance that did not fail runs. */
  lemma StillThere(u: State, finish: Step, id: InstanceID)
    requires Inv(u) && u.phase.Restarting? && finish.EnvFinish? && Can(u, finish)
    requires id in u.rows && id !in u.core.errors
    ensures id in u.core.current && u.phase.envTasks.Keys == u.phase.saved.Keys
  {
    RestartingStep(u, finish);
    TasksDone(u, finish);
    hide FineRun, RunBasis, Overrides, Can, Do;
  }

  /**
   * If no two stored instances have one ident: after the environment was checked the receiver has a wrong state of an
   * instance exactly if the last visit saved its final state, or there was no visit, and the last thing told about it
   * (by the last batch of the window that changed it, or before the window) is another state. Of an instance whose
   * state the receiver had before, this happens only if it was restarted.
   */
  lemma RestartMisreportsIff(
      s0: State, before: seq<Step>, s: State, begin: Step, window: seq<Step>, u: State, finish: Step, id: InstanceID)
    requires Init(s0) && Run(s0, before, s) && s.phase.Idle? && DistinctRowIdents(s.rows) && id in s.core.current
    requires begin.EnvBegin? && Can(s, begin) && Unfinished(window) && Run(Do(s, begin), window, u)
    requires finish.EnvFinish? && Can(u, finish)
    ensures u.phase.Restarting? && id in u.core.current && Do(u, finish).core.current == u.core.current
    ensures Believed(s, id).Some?
    ensures var final := u.core.current[id].status.state;
            var told := LastTold(Do(s, begin), window, id, Believed(s, id).value);
            && (!StateShown(Replay(Do(u, finish).core.sent), u.core.current[id]) <==>
                  (id in u.phase.saved ==> u.phase.saved[id] == final) && told != final)
            && (StateShown(Replay(s.core.sent), s.core.current[id]) && id !in u.phase.saved ==> told == final)
  {
    InitInv(s0);
    RunKeeps(s0, before, s);
    BeginsWindow(s, begin, id);
    var shown, believed := StateShown(Replay(s.core.sent), s.core.current[id]), Believed(s, id).value;
    hide Inv, ViewInv, Can, Do, Run, LastTold, Believed, InWindow;
    RunInWindow(Do(s, begin), window, u, id, believed, shown);
    WindowIsOpen(u, id, LastTold(Do(s, begin), window, id, believed), shown);
    EndsWindow(u, finish, id, LastTold(Do(s, begin), window, id, believed), shown);
  }

  lemma WindowIsOpen(u: State, id: InstanceID, told: RunState, shown: bool)
    requires InWindow(u, id, told, shown)
    ensures u.phase.Restarting?
  {
  }

  /* ---- Which instances restart, and with which variables ---- */

  /**
   * Only outdated instances are restarted; the others and all identities are as they were at the beginning, and once
   * its spec was rebuilt an instance carries what is selected for it.
   */
  ghost predicate Follows(
      infos: seq<EnvVarsInfo>, first: Runtimes, current: Runtimes, tasks: map<InstanceID, EnvTask>)
  {
    && (forall id :: id in tasks ==> Outdated(infos, first, id))
    && (forall id :: id in first && id !in tasks ==> id in current && current[id].overrides == first[id].overrides)
    && (forall id :: id in current ==> id in first && current[id].instance == first[id].instance)
    && (forall id :: id in tasks && tasks[id].StartQueued? ==>
          id in first && tasks[id].rt.instance == first[id].instance)
    && (forall id :: id in tasks && tasks[id] == EnvDone(true) ==> id in current && !Outdated(infos, current, id))
  }

  ghost predicate Tracks(first: Runtimes, s: State) {
    s.phase.Restarting? && Follows(s.envVars, first, s.core.current, s.phase.envTasks)
  }

  lemma {:induction false} BatchKeepsOverrides(current: Runtimes, reports: seq<Report>)
    ensures var now := ApplyReports(current, reports);
            && now.Keys == current.Keys
            && forall id :: id in current ==>
                 now[id].instance == current[id].instance && now[id].overrides == current[id].overrides
  {
    if reports != [] {
      BatchKeepsOverrides(current, reports[..|reports| - 1]);
    }
  }

  lemma SameOverridesFollow(
      infos: seq<EnvVarsInfo>, first: Runtimes, current: Runtimes, now: Runtimes, tasks: map<InstanceID, EnvTask>)
    requires Follows(infos, first, current, tasks) && now.Keys == current.Keys
    requires forall id :: id in current ==>
               now[id].instance == current[id].instance && now[id].overrides == current[id].overrides
    ensures Follows(infos, first, now, tasks)
  {
    hide Overrides;
  }

  lemma OneChangeFollows(
      infos: seq<EnvVarsInfo>, first: Runtimes, current: Runtimes, tasks: map<InstanceID, EnvTask>, id: InstanceID,
      now: Runtimes, task: EnvTask)
    requires Follows(infos, first, current, tasks) && Outdated(infos, first, id)
    requires forall other :: other != id ==>
               (other in now <==> other in current) && (other in now ==> now[other] == current[other])
    requires id in now ==> now[id].instance == first[id].instance
    requires task.StartQueued? ==> task.rt.instance == first[id].instance
    requires task == EnvDone(true) ==> id in now && !Outdated(infos, now, id)
    ensures Follows(infos, first, now, tasks[id := task])
  {
    hide Overrides;
    forall other | other != id
      ensures Outdated(infos, now, other) == Outdated(infos, current, other)
    {
    }
    hide Outdated;
  }

  lemma BatchTracks(first: Runtimes, s: State, step: Step)
    requires Inv(s) && Tracks(first, s) && step.Batch? && Can(s, step)
    ensures Tracks(first, Do(s, step)) && Do(s, step).envVars == s.envVars
  {
    BatchEffect(s, step);
    BatchVars(s, step);
    BatchKeepsOverrides(s.core.current, step.reports);
    hide Inv, Can, Do, ApplyReports, Overrides, Updates, Follows;
    SameOverridesFollow(s.envVars, first, s.core.current, ApplyReports(s.core.current, step.reports), s.phase.envTasks);
  }

  lemma BatchVars(s: State, step: Step)
    requires step.Batch? && Can(s, step)
    ensures Do(s, step).envVars == s.envVars
  {
  }

  /** What an action step or a visit does to the running instances and the tasks. */
  lemma TaskEffect(s: State, step: Step)
    requires Inv(s) && s.phase.Restarting? && CanRestart(s, s.phase.envTasks, step) && !step.EnvFinish?
    ensures !step.Batch? && !step.Load? && !step.Request? && !step.Calculate? && !step.StopsFinished? && !step.Sweep?
            && !step.EnvBegin? && !step.Finish?
    ensures var t := DoRestart(s, s.phase.envTasks, s.phase.saved, step);
            var id, now := step.id, t.core.current;
            && t.envVars == s.envVars && t.phase.Restarting? && id in t.phase.envTasks
            && t.phase.envTasks == s.phase.envTasks[id := t.phase.envTasks[id]]
            && (id in s.phase.envTasks || Outdated(s.envVars, s.core.current, id))
            && (forall other :: other != id ==>
                  (other in now <==> other in s.core.current) && (other in now ==> now[other] == s.core.current[other]))
            && (id in now && id in s.core.current ==> now[id].instance == s.core.current[id].instance)
            && (id in now && id !in s.core.current ==>
                  && id in s.phase.envTasks && s.phase.envTasks[id].StartQueued?
                  && now[id].instance == s.phase.envTasks[id].rt.instance)
            && (t.phase.envTasks[id].StartQueued? ==>
                  id in s.core.current && t.phase.envTasks[id].rt.instance == s.core.current[id].instance)
            && (t.phase.envTasks[id] == EnvDone(true) ==> id in now && !Outdated(s.envVars, now, id))
  {
    if step.StartBegin? {
      PlaceIsFree(s, step);
    }
    hide Inv, Overrides;
  }

  lemma ActionTracks(first: Runtimes, s: State, step: Step)
    requires Inv(s) && Tracks(first, s) && CanRestart(s, s.phase.envTasks, step) && !step.EnvFinish?
    ensures var t := DoRestart(s, s.phase.envTasks, s.phase.saved, step);
            Tracks(first, t) && t.envVars == s.envVars
  {
    TaskEffect(s, step);
    var t := DoRestart(s, s.phase.envTasks, s.phase.saved, step);
    assert Outdated(s.envVars, first, step.id);
    assert step.id in t.core.current ==> t.core.current[step.id].instance == first[step.id].instance;
    hide Inv, CanRestart, DoRestart, Follows, Outdated;
    OneChangeFollows(s.envVars, first, s.core.current, s.phase.envTasks, step.id, t.core.current,
                     t.phase.envTasks[step.id]);
  }

  lemma {:induction false} RunTracks(first: Runtimes, s: State, steps: seq<Step>, t: State)
    requires Inv(s) && Tracks(first, s) && Run(s, steps, t) && Unfinished(steps)
    ensures Inv(t) && Tracks(first, t) && t.envVars == s.envVars
    decreases |steps|
  {
    hide Inv, Follows, Can, Do, CanRestart, DoRestart;
    if steps != [] {
      StepKeepsInv(s, steps[0]);
      if steps[0].Batch? {
        BatchTracks(first, s, steps[0]);
      } else {
        RestartingStep(s, steps[0]);
        ActionTracks(first, s, steps[0]);
      }
      RunTracks(first, Do(s, steps[0]), steps[1..], t);
    }
  }

  /**
   * A check of the environment restarts exactly the instances whose override list differed from their selection, keeps
   * the key set, and leaves every instance with its selection unless its last start failed before the spec was rebuilt.
   */
  lemma RestartsAreExact(
      s0: State, before: seq<Step>, s: State, begin: Step, window: seq<Step>, u: State, finish: Step)
    requires Init(s0) && Run(s0, before, s) && s.phase.Idle?
    requires begin.EnvBegin? && Can(s, begin) && Unfinished(window) && Run(Do(s, begin), window, u)
    requires finish.EnvFinish? && Can(u, finish)
    ensures u.phase.Restarting? && Do(u, finish).core.current == u.core.current
    ensures u.core.current.Keys == s.core.current.Keys
    ensures forall id :: id in u.phase.envTasks <==> Outdated(u.envVars, s.core.current, id)
    ensures forall id :: id in u.core.current && Outdated(u.envVars, u.core.current, id) ==>
              id in u.phase.envTasks && u.phase.envTasks[id] == EnvDone(false)
  {
    InitInv(s0);
    RunKeeps(s0, before, s);
    BeginEffect(s, begin);
    StepKeepsInv(s, begin);
    BeginTracks(s, begin);
    hide Inv, ViewInv, Can, Do, Run, Overrides, Follows;
    RunTracks(s.core.current, Do(s, begin), window, u);
    Finished(s.core.current, u, finish);
  }

  lemma BeginTracks(s: State, begin: Step)
    requires begin.EnvBegin? && Can(s, begin)
    ensures Tracks(s.core.current, Do(s, begin))
  {
    BeginEffect(s, begin);
    hide Can, Do, Overrides;
  }

  lemma Settled(infos: seq<EnvVarsInfo>, first: Runtimes, current: Runtimes, tasks: map<InstanceID, EnvTask>)
    requires Follows(infos, first, current, tasks)
    requires forall id :: id in tasks ==> tasks[id].EnvDone? && id in current
    requires forall id :: id in current && id !in tasks ==> !Outdated(infos, current, id)
    ensures current.Keys == first.Keys
    ensures forall id :: id in tasks <==> Outdated(infos, first, id)
    ensures forall id :: id in current && Outdated(infos, current, id) ==> id in tasks && tasks[id] == EnvDone(false)
  {
    hide Overrides;
    forall id | Outdated(infos, first, id) && id !in tasks ensures Outdated(infos, current, id) {
    }
  }

  lemma Finished(first: Runtimes, u: State, finish: Step)
    requires Inv(u) && Tracks(first, u) && finish.EnvFinish? && Can(u, finish)
    ensures Do(u, finish).core.current == u.core.current
    ensures u.core.current.Keys == first.Keys
    ensures forall id :: id in u.phase.envTasks <==> Outdated(u.envVars, first, id)
    ensures forall id :: id in u.core.current && Outdated(u.envVars, u.core.current, id) ==>
              id in u.phase.envTasks && u.phase.envTasks[id] == EnvDone(false)
  {
    FinishStep(u, finish);
    RestartingStep(u, finish);
    TasksDone(u, finish);
    UnvisitedSettled(u, finish);
    hide Inv, Can, Do, CanRestart, DoRestart, Outdated, Follows;
    Settled(u.envVars, first, u.core.current, u.phase.envTasks);
  }

  lemma UnvisitedSettled(u: State, finish: Step)
    requires u.phase.Restarting? && finish.EnvFinish? && CanRestart(u, u.phase.envTasks, finish)
    ensures forall id :: id in u.core.current && id !in u.phase.envTasks ==> !Outdated(u.envVars, u.core.current, id)
  {
    hide Overrides;
  }

  lemma TasksDone(u: State, finish: Step)
    requires Inv(u) && u.phase.Restarting? && finish.EnvFinish? && CanRestart(u, u.phase.envTasks, finish)
    ensures forall id :: id in u.phase.envTasks ==> u.phase.envTasks[id].EnvDone? && id in u.core.current
  {
    hide FineRun, RunBasis, DistinctRowIdents, Overrides;
    forall id | id in u.phase.envTasks ensures u.phase.envTasks[id].EnvDone? && id in u.core.current {
      assert EnvTaskInv(u.phase.envTasks[id], id, u.core, u.rows, ServicesOf(u));
    }
  }

  /* ---- Two runs that end with a wrong belief ---- */

  /** Of the running instances exactly this one has another override list than selected. */
  ghost predicate OnlyOutdated(s: State, id: InstanceID) {
    && id in s.core.current
    && forall other :: other in s.core.current ==>
         (s.core.current[other].overrides != SelectedFor(s, other) <==> other == id)
  }

  function AttemptSteps(id: InstanceID): seq<Step> {
    [EnvVisit(id)] + [StopFind(id)] + [StopDelete(id)] + [StartBegin(id)]
  }

  function Attempted(r: State, id: InstanceID): State
    requires r.phase.Restarting? && id in r.core.current
  {
    var rt := r.core.current[id];
    r.(core := r.core.(current := r.core.current[id := rt.(status := NO_STATUS)]),
       phase := Restarting(r.phase.envTasks[id := EnvRunning(false)], r.phase.saved[id := rt.status.state]),
       restarted := true, revisited := r.revisited || id in r.phase.envTasks)
  }

  /** One visit and the two actions it queues, up to the point where the start has registered the instance. */
  lemma Attempt(r: State, id: InstanceID)
    requires r.phase.Restarting? && id in r.core.current && r.core.current[id].instance.id == id
    requires id in r.phase.envTasks ==> r.phase.envTasks[id].EnvDone?
    requires r.core.current[id].overrides != SelectedFor(r, id)
    ensures Run(r, AttemptSteps(id), Attempted(r, id))
  {
    hide Can, Do, Run, SelectedFor;
    var r1 := VisitedNow(r, id);
    var r2 := FoundNow(r1, id);
    var r3 := DeletedNow(r2, id);
    var r4 := BegunNow(r3, id);
    assert r4.core.current == Attempted(r, id).core.current;
    assert r4.phase.envTasks == Attempted(r, id).phase.envTasks;
    RunOne(r, EnvVisit(id));
    RunThenStep(r, [EnvVisit(id)], r1, StopFind(id));
    RunThenStep(r, [EnvVisit(id)] + [StopFind(id)], r2, StopDelete(id));
    RunThenStep(r, [EnvVisit(id)] + [StopFind(id)] + [StopDelete(id)], r3, StartBegin(id));
  }

  lemma VisitedNow(r: State, id: InstanceID) returns (t: State)
    requires r.phase.Restarting? && id in r.core.current && r.core.current[id].overrides != SelectedFor(r, id)
    requires id in r.phase.envTasks ==> r.phase.envTasks[id].EnvDone?
    ensures Can(r, EnvVisit(id)) && t == Do(r, EnvVisit(id))
    ensures t == r.(phase := Restarting(r.phase.envTasks[id := StopQueued],
                                        r.phase.saved[id := r.core.current[id].status.state]),
                    restarted := true, revisited := r.revisited || id in r.phase.envTasks)
  {
    hide SelectedFor;
    t := Do(r, EnvVisit(id));
  }

  lemma FoundNow(r: State, id: InstanceID) returns (t: State)
    requires r.phase.Restarting? && id in r.phase.envTasks && r.phase.envTasks[id].StopQueued? && id in r.core.current
    ensures Can(r, StopFind(id)) && t == Do(r, StopFind(id))
    ensures t == r.(phase := Restarting(r.phase.envTasks[id := StopFound], r.phase.saved))
  {
    t := Do(r, StopFind(id));
  }

  lemma DeletedNow(r: State, id: InstanceID) returns (t: State)
    requires r.phase.Restarting? && id in r.phase.envTasks && r.phase.envTasks[id].StopFound? && id in r.core.current
    ensures Can(r, StopDelete(id)) && t == Do(r, StopDelete(id))
    ensures t == r.(core := Stopped(r.core, id),
                    phase := Restarting(r.phase.envTasks[id := StartQueued(r.core.current[id])], r.phase.saved))
  {
    t := Do(r, StopDelete(id));
  }

  lemma BegunNow(r: State, id: InstanceID) returns (t: State)
    requires r.phase.Restarting? && id in r.phase.envTasks && r.phase.envTasks[id].StartQueued?
    requires r.phase.envTasks[id].rt.instance.id == id && id !in r.core.current
    ensures Can(r, StartBegin(id)) && t == Do(r, StartBegin(id))
    ensures t == r.(core := Inserted(r.core, r.phase.envTasks[id].rt),
                    phase := Restarting(r.phase.envTasks[id := EnvRunning(false)], r.phase.saved))
  {
    t := Do(r, StartBegin(id));
  }

  /** The start fails before the runtime spec is rebuilt. */
  lemma FailedNow(r: State, id: InstanceID, error: LaunchError) returns (t: State)
    requires r.phase.Restarting? && id in r.core.current
    requires id in r.phase.envTasks && r.phase.envTasks[id] == EnvRunning(false)
    ensures Can(r, StartFail(id, error, false)) && t == Do(r, StartFail(id, error, false))
    ensures t == r.(core := r.core.(current := r.core.current[id := Fail(r.core.current[id], error)]),
                    phase := Restarting(r.phase.envTasks[id := EnvDone(false)], r.phase.saved))
  {
    t := Do(r, StartFail(id, error, false));
  }

  /** Nothing is sent: the state is the saved one. */
  lemma OverNow(r: State, id: InstanceID) returns (t: State)
    requires r.phase == Restarting(map[id := EnvDone(false)], map[id := Failed])
    requires id in r.core.current && r.core.current[id].status.state == Failed
    requires forall other :: other in r.core.current && other != id ==>
               r.core.current[other].overrides == SelectedFor(r, other)
    ensures Can(r, EnvFinish([])) && t == Do(r, EnvFinish([]))
    ensures t == r.(phase := Idle)
  {
    hide SelectedFor;
    assert (set other | other in r.phase.envTasks && other in r.core.current && ReportNeeded(r, other)) == {};
    t := Do(r, EnvFinish([]));
  }

  lemma OneUpdate(current: Runtimes, id: InstanceID, status: RunStatus)
    requires id in current && current[id].status.state != status.state
    ensures var reports := [Report(id, status)];
            && ApplyReports(current, reports) == current[id := current[id].(status := status)]
            && Updates(current, reports) == [Cloud(current[id].(status := status))]
  {
    var reports := [Report(id, status)];
    assert reports[..0] == [];
    assert ApplyReports(current, []) == current && Updates(current, []) == [];
    hide Cloud;
  }

  lemma OneOverwrites(sent: seq<Message>, status: CloudStatus)
    ensures var view := Replay(sent + [UpdateStatuses([status])]);
            status.ident in view && view[status.ident] == status
  {
    ReplaySend(sent, [status]);
    assert [status][..0] == [];
    hide Replay;
  }

  lemma ActivatedNow(r: State, id: InstanceID) returns (t: State)
    requires r.phase.Restarting? && id in r.core.current && r.core.current[id].status.state == Unset
    requires !r.core.inProgress
    ensures Can(r, Batch([Report(id, RunStatus(Active, None, 0))]))
    ensures t == Do(r, Batch([Report(id, RunStatus(Active, None, 0))]))
    ensures var rt := r.core.current[id].(status := RunStatus(Active, None, 0));
            && t == r.(core := r.core.(current := r.core.current[id := rt],
                                       sent := r.core.sent + [UpdateStatuses([Cloud(rt)])]),
                       raced := true)
            && rt.instance.info.ident in Replay(t.core.sent)
            && Replay(t.core.sent)[rt.instance.info.ident].state == Active
  {
    var status := RunStatus(Active, None, 0);
    OneUpdate(r.core.current, id, status);
    OneOverwrites(r.core.sent, Cloud(r.core.current[id].(status := status)));
    hide ApplyReports, Updates, Replay;
    t := Do(r, Batch([Report(id, status)]));
  }

  /** The selection looks at the ident only. */
  lemma OthersKept(s: State, t: State, id: InstanceID)
    requires OnlyOutdated(s, id) && s.envVars == t.envVars && id in t.core.current
    requires t.core.current == s.core.current[id := t.core.current[id]]
    requires t.core.current[id].instance == s.core.current[id].instance
    requires t.core.current[id].overrides == s.core.current[id].overrides
    ensures OnlyOutdated(t, id)
  {
    hide Overrides;
  }

  lemma OnlyItsOverrides(s: State, id: InstanceID)
    requires OnlyOutdated(s, id)
    ensures id in s.core.current && s.core.current[id].overrides != SelectedFor(s, id)
    ensures forall other :: other in s.core.current && other != id ==>
              s.core.current[other].overrides == SelectedFor(s, other)
  {
    hide Overrides;
  }

  /** A restart whose start fails before the spec is rebuilt: only the status and the book-keeping change. */
  lemma FailedAttempt(r: State, id: InstanceID, error: LaunchError) returns (t: State)
    requires r.phase.Restarting? && OnlyOutdated(r, id) && r.core.current[id].instance.id == id
    requires id in r.phase.envTasks ==> r.phase.envTasks[id].EnvDone?
    ensures Run(r, AttemptSteps(id) + [StartFail(id, error, false)], t) && OnlyOutdated(t, id)
    ensures t.core.sent == r.core.sent && t.envVars == r.envVars && t.raced == r.raced
    ensures t.core.current[id].instance == r.core.current[id].instance && t.core.current[id].status.state == Failed
    ensures t.phase == Restarting(r.phase.envTasks[id := EnvDone(false)],
                                  r.phase.saved[id := r.core.current[id].status.state])
  {
    hide Can, Do, Run, OnlyOutdated, SelectedFor;
    OnlyItsOverrides(r, id);
    Attempt(r, id);
    var r4 := Attempted(r, id);
    t := FailedNow(r4, id, error);
    RunThenStep(r, AttemptSteps(id), r4, StartFail(id, error, false));
    assert t.core.current == r.core.current[id := t.core.current[id]];
    OthersKept(r, t, id);
  }

  /** The same with a batch in the middle that reports the instance active. */
  lemma RacedAttempt(r: State, id: InstanceID, error: LaunchError) returns (t: State)
    requires r.phase.Restarting? && OnlyOutdated(r, id) && r.core.current[id].instance.id == id
    requires id !in r.phase.envTasks && !r.core.inProgress
    ensures Run(r, RacedAttemptSteps(id, error), t) && OnlyOutdated(t, id)
    ensures t.core.current[id].instance == r.core.current[id].instance && t.core.current[id].status.state == Failed
    ensures t.phase == Restarting(r.phase.envTasks[id := EnvDone(false)],
                                  r.phase.saved[id := r.core.current[id].status.state])
    ensures Believed(t, id) == Some(Active)
  {
    hide Can, Do, Run, OnlyOutdated, SelectedFor, Replay;
    OnlyItsOverrides(r, id);
    Attempt(r, id);
    var r4 := Attempted(r, id);
    var r5 := ActivatedNow(r4, id);
    t := FailedNow(r5, id, error);
    var batch := Batch([Report(id, RunStatus(Active, None, 0))]);
    RunThenStep(r, AttemptSteps(id), r4, batch);
    RunThenStep(r, AttemptSteps(id) + [batch], r5, StartFail(id, error, false));
    assert t.core.current == r.core.current[id := t.core.current[id]];
    OthersKept(r, t, id);
  }

  function RacedAttemptSteps(id: InstanceID, error: LaunchError): seq<Step> {
    AttemptSteps(id) + [Batch([Report(id, RunStatus(Active, None, 0))])] + [StartFail(id, error, false)]
  }

  /** The state the receiver has for a running instance. */
  function Believed(s: State, id: InstanceID): Option<RunState>
    requires id in s.core.current
  {
    var ident := s.core.current[id].instance.info.ident;
    if ident in Replay(s.core.sent) then Some(Replay(s.core.sent)[ident].state) else None
  }

  /** The restart is over: nothing is sent. */
  lemma Closed(s: State, begin: Step, steps: seq<Step>, r: State, id: InstanceID) returns (t: State)
    requires begin.EnvBegin? && Can(s, begin) && Run(Do(s, begin), steps, r)
    requires r.phase == Restarting(map[id := EnvDone(false)], map[id := Failed]) && OnlyOutdated(r, id)
    requires r.core.current[id].status.state == Failed
    ensures Run(s, [begin] + steps + [EnvFinish([])], t) && t == r.(phase := Idle)
  {
    hide Can, Do, Run, OnlyOutdated, SelectedFor, Replay;
    OnlyItsOverrides(r, id);
    t := OverNow(r, id);
    RunOne(s, begin);
    RunThenRun(s, [begin], Do(s, begin), steps, r);
    RunThenStep(s, [begin] + steps, r, EnvFinish([]));
  }

  /**
   * A batch reports an instance active in the middle of its restart and the restart then fails: the failed state
   * equals the saved one and no message corrects the receiver.
   */
  lemma RacedRestartMisreports(s: State, begin: Step, id: InstanceID, error: LaunchError) returns (t: State)
    requires s.phase.Idle? && !s.core.inProgress && begin.EnvBegin? && OnlyOutdated(Do(s, begin), id)
    requires id in s.core.current && s.core.current[id].instance.id == id && s.core.current[id].status.state == Failed
    ensures Run(s, [begin] + RacedAttemptSteps(id, error) + [EnvFinish([])], t)
    ensures t.phase.Idle? && id in t.core.current && t.core.current[id].status.state == Failed
    ensures Believed(t, id) == Some(Active)
  {
    BeginEffect(s, begin);
    hide Can, Do, Run, OnlyOutdated, SelectedFor, Replay;
    var r := RacedAttempt(Do(s, begin), id, error);
    t := Closed(s, begin, RacedAttemptSteps(id, error), r, id);
  }

  function RevisitedSteps(id: InstanceID, error: LaunchError): seq<Step> {
    AttemptSteps(id) + [StartFail(id, error, false)] + (AttemptSteps(id) + [StartFail(id, error, false)])
  }

  lemma TwoFailures(r: State, id: InstanceID, error: LaunchError) returns (t: State)
    requires r.phase == Restarting(map[], map[]) && OnlyOutdated(r, id) && r.core.current[id].instance.id == id
    ensures Run(r, RevisitedSteps(id, error), t) && OnlyOutdated(t, id)
    ensures t.core.sent == r.core.sent && t.raced == r.raced
    ensures t.core.current[id].instance == r.core.current[id].instance && t.core.current[id].status.state == Failed
    ensures t.phase == Restarting(map[id := EnvDone(false)], map[id := Failed])
  {
    hide Can, Do, Run, OnlyOutdated, SelectedFor, Replay, AttemptSteps;
    var r1 := FailedAttempt(r, id, error);
    t := FailedAttempt(r1, id, error);
    var once := AttemptSteps(id) + [StartFail(id, error, false)];
    RunThenRun(r, once, r1, once, t);
  }

  /**
   * No batch is needed: an active instance fails its restart before its spec is rebuilt, is produced a second time and
   * fails again.  The state saved at the second visit is the failed one, so nothing is sent.
   */
  lemma RevisitedRestartMisreports(s: State, begin: Step, id: InstanceID, error: LaunchError) returns (t: State)
    requires s.phase.Idle? && begin.EnvBegin? && OnlyOutdated(Do(s, begin), id)
    requires id in s.core.current && s.core.current[id].instance.id == id && s.core.current[id].status.state == Active
    requires Believed(s, id) == Some(Active)
    ensures Run(s, [begin] + RevisitedSteps(id, error) + [EnvFinish([])], t) && t.raced == s.raced
    ensures t.phase.Idle? && id in t.core.current && t.core.current[id].status.state == Failed
    ensures Believed(t, id) == Some(Active)
  {
    BeginEffect(s, begin);
    hide Can, Do, Run, OnlyOutdated, SelectedFor, Replay;
    var r := TwoFailures(Do(s, begin), id, error);
    t := Closed(s, begin, RevisitedSteps(id, error), r, id);
  }
}
