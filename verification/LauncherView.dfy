/** What the receiver of the status messages believes, over every run of the launcher. */
module LauncherView {
  import opened Sequences
  import opened Instances
  import opened Preparation
  import opened StorageMatching
  import opened Reconciler
  import opened EnvVars
  import opened LauncherRuns
  import opened LauncherInvariant

  /** The receiver has the full status of the instance. */
  ghost predicate Shown(view: View, rt: Runtime) {
    rt.instance.info.ident in view && view[rt.instance.info.ident] == Cloud(rt)
  }

  /** The receiver has at least its state. */
  ghost predicate StateShown(view: View, rt: Runtime) {
    rt.instance.info.ident in view && view[rt.instance.info.ident].state == rt.status.state
  }

  ghost predicate ViewKeys(view: View, rows: Rows) {
    forall ident :: ident in view <==> exists id :: id in rows && rows[id].ident == ident
  }

  /** Instances carry the idents of their rows. */
  ghost predicate IdentsMatch(runtimes: Runtimes, rows: Rows) {
    forall id :: id in runtimes ==> id in rows && runtimes[id].instance.info.ident == rows[id].ident
  }

  ghost predicate ErrorsShown(view: View, errors: Runtimes) {
    forall id :: id in errors ==> Shown(view, errors[id])
  }

  ghost predicate IdleView(core: Core, rows: Rows, restarted: bool, doubtful: bool, view: View) {
    && ViewKeys(view, rows)
    && ErrorsShown(view, core.errors)
    && (!restarted ==> AllShown(view, core.current))
    && (!doubtful ==> OthersStateShown(view, core.current, {}))
  }

  /** Something happened that may have left a saved state different from the one the receiver has. */
  predicate Doubtful(s: State) {
    s.raced || s.revisited
  }

  ghost predicate SavedShown(view: View, rows: Rows, saved: map<InstanceID, RunState>) {
    forall id :: id in saved ==> id in rows && rows[id].ident in view && view[rows[id].ident].state == saved[id]
  }

  ghost predicate OthersStateShown(view: View, current: Runtimes, tasks: set<InstanceID>) {
    forall id :: id in current && id !in tasks ==> StateShown(view, current[id])
  }

  ghost predicate AllShown(view: View, current: Runtimes) {
    forall id :: id in current ==> Shown(view, current[id])
  }

  /** While instances restart, the receiver still has their saved states. */
  ghost predicate RestartingView(
      s: State, view: View, tasks: map<InstanceID, EnvTask>, saved: map<InstanceID, RunState>)
  {
    && ViewKeys(view, s.rows)
    && ErrorsShown(view, s.core.errors)
    && (!s.restarted ==> tasks == map[] && AllShown(view, s.core.current))
    && (!Doubtful(s) ==> SavedShown(view, s.rows, saved) && OthersStateShown(view, s.core.current, tasks.Keys))
  }

  /** What the receiver knows when no two stored instances have one ident. */
  ghost predicate Known(s: State) {
    && (s.phase.Idle? ==> IdleView(s.core, s.rows, s.restarted, Doubtful(s), Replay(s.core.sent)))
    && (s.phase.Restarting? ==> RestartingView(s, Replay(s.core.sent), s.phase.envTasks, s.phase.saved))
  }

  /** Two stored instances of one ident share an entry of the view. */
  ghost predicate DistinctRowIdents(rows: Rows) {
    forall a, b :: a in rows && b in rows && a != b ==> rows[a].ident != rows[b].ident
  }

  ghost predicate ViewInv(s: State) {
    DistinctRowIdents(s.rows) ==> Known(s)
  }

  /* ---- Overwriting a view ---- */

  ghost predicate DistinctStatuses(statuses: seq<CloudStatus>) {
    forall i, j :: 0 <= i < j < |statuses| ==> statuses[i].ident != statuses[j].ident
  }

  ghost predicate Mentions(statuses: seq<CloudStatus>, ident: InstanceIdent) {
    exists c :: c in statuses && c.ident == ident
  }

  lemma {:induction false} OverwriteLookup(view: View, statuses: seq<CloudStatus>)
    ensures var after := Overwrite(view, statuses);
            && (forall ident :: ident in after <==> ident in view || Mentions(statuses, ident))
            && (forall ident :: ident in view && !Mentions(statuses, ident) ==> after[ident] == view[ident])
            && (DistinctStatuses(statuses) ==>
                  forall c :: c in statuses ==> c.ident in after && after[c.ident] == c)
  {
    if statuses != [] {
      var n := |statuses| - 1;
      var rest, last := statuses[..n], statuses[n];
      assert statuses == rest + [last];
      OverwriteLookup(view, rest);
      forall ident
        ensures Mentions(statuses, ident) <==> Mentions(rest, ident) || last.ident == ident
      {
        if Mentions(rest, ident) {
          var c :| c in rest && c.ident == ident;
          assert c in statuses;
        }
        assert last in statuses;
      }
      if DistinctStatuses(statuses) {
        forall c | c in rest
          ensures c.ident != last.ident
        {
          var k :| 0 <= k < n && statuses[k] == c;
        }
      }
    }
  }

  lemma ReplaySend(sent: seq<Message>, changed: seq<CloudStatus>)
    ensures Replay(Send(sent, changed)) == Overwrite(Replay(sent), changed)
  {
    assert (sent + [UpdateStatuses(changed)])[..|sent|] == sent;
  }

  lemma CloudsMembers(ids: seq<InstanceID>, runtimes: Runtimes, rows: Rows)
    requires forall id :: id in ids ==> id in runtimes
    requires IdentsMatch(runtimes, rows) && DistinctRowIdents(rows) && Distinct(ids)
    ensures var statuses := Clouds(ids, runtimes);
            && DistinctStatuses(statuses)
            && (forall id :: id in ids ==> Cloud(runtimes[id]) in statuses)
            && (forall ident :: Mentions(statuses, ident) <==> exists id :: id in ids && rows[id].ident == ident)
  {
    var statuses := Clouds(ids, runtimes);
    forall id | id in ids
      ensures Cloud(runtimes[id]) in statuses
    {
      var k :| 0 <= k < |ids| && ids[k] == id;
      assert statuses[k] == Cloud(runtimes[id]);
    }
    forall ident | Mentions(statuses, ident)
      ensures exists id :: id in ids && rows[id].ident == ident
    {
      var c :| c in statuses && c.ident == ident;
      var k :| 0 <= k < |statuses| && statuses[k] == c;
      assert ids[k] in ids;
    }
  }

  /** Reporting some instances shows exactly these and leaves all others as they were. */
  lemma ReportSome(view: View, ids: seq<InstanceID>, runtimes: Runtimes, rows: Rows)
    requires forall id :: id in ids ==> id in runtimes
    requires IdentsMatch(runtimes, rows) && DistinctRowIdents(rows) && Distinct(ids)
    requires ViewKeys(view, rows)
    ensures var after := Overwrite(view, Clouds(ids, runtimes));
            && ViewKeys(after, rows)
            && (forall id :: id in ids ==> Shown(after, runtimes[id]))
            && (forall id :: id in rows && id !in ids ==> after[rows[id].ident] == view[rows[id].ident])
  {
    CloudsMembers(ids, runtimes, rows);
    OverwriteLookup(view, Clouds(ids, runtimes));
  }

  /* ---- Status batches ---- */

  /** Whatever the receiver knew about an instance or its state it still knows after the batch. */
  ghost predicate KeepsUp(view: View, after: View, current: Runtimes, now: Runtimes, rows: Rows) {
    && current.Keys == now.Keys
    && after.Keys == view.Keys
    && IdentsMatch(now, rows)
    && (forall id :: id in current && Shown(view, current[id]) ==> Shown(after, now[id]))
    && (forall id :: id in current && StateShown(view, current[id]) ==> StateShown(after, now[id]))
    && (forall id :: id in rows && id !in current && rows[id].ident in view ==>
          after[rows[id].ident] == view[rows[id].ident])
  }

  lemma {:induction false} BatchKeepsUp(view: View, current: Runtimes, reports: seq<Report>, rows: Rows)
    requires IdentsMatch(current, rows) && DistinctRowIdents(rows) && ViewKeys(view, rows)
    ensures KeepsUp(view, Overwrite(view, Updates(current, reports)), current, ApplyReports(current, reports), rows)
  {
    if reports == [] {
    } else {
      var n := |reports| - 1;
      var before, updates := ApplyReports(current, reports[..n]), Updates(current, reports[..n]);
      BatchKeepsUp(view, current, reports[..n], rows);
      if Changes(before, reports[n]) {
        var rt := before[reports[n].id].(status := reports[n].status);
        assert Updates(current, reports) == updates + [Cloud(rt)];
        assert (updates + [Cloud(rt)])[..|updates|] == updates;
        OneReport(Overwrite(view, updates), before, reports[n].id, rt, rows);
        KeepsUpTransitive(view, Overwrite(view, updates), Overwrite(view, Updates(current, reports)),
                          current, before, ApplyReports(current, reports), rows);
      } else {
        assert Updates(current, reports) == updates;
      }
    }
  }

  lemma KeepsUpTransitive(v0: View, v1: View, v2: View, c0: Runtimes, c1: Runtimes, c2: Runtimes, rows: Rows)
    requires KeepsUp(v0, v1, c0, c1, rows) && KeepsUp(v1, v2, c1, c2, rows)
    ensures KeepsUp(v0, v2, c0, c2, rows)
  {
    hide Shown, StateShown, IdentsMatch;
  }

  lemma OtherIdents(current: Runtimes, rows: Rows, id: InstanceID)
    requires IdentsMatch(current, rows) && DistinctRowIdents(rows) && id in current
    ensures forall other :: other in rows && other != id ==> rows[other].ident != current[id].instance.info.ident
  {
  }

  lemma OneReport(view: View, current: Runtimes, id: InstanceID, rt: Runtime, rows: Rows)
    requires IdentsMatch(current, rows) && DistinctRowIdents(rows)
    requires id in current && rt.instance == current[id].instance && rows[id].ident in view
    ensures KeepsUp(view, view[Cloud(rt).ident := Cloud(rt)], current, current[id := rt], rows)
  {
    assert Cloud(rt).ident == rows[id].ident && Cloud(rt).state == rt.status.state;
    OtherIdents(current, rows, id);
    var after := view[Cloud(rt).ident := Cloud(rt)];
    hide Cloud, DistinctRowIdents;
    assert IdentsMatch(current[id := rt], rows) && Shown(after, rt) && StateShown(after, rt);
    forall other | other in current && other != id
      ensures Shown(view, current[other]) ==> Shown(after, current[other])
      ensures StateShown(view, current[other]) ==> StateShown(after, current[other])
    {
    }
    hide Shown, StateShown;
  }

  /* ---- Every step ---- */

  lemma InvIdents(s: State)
    requires Inv(s) && Calculating(s.phase) && !s.phase.StoppingSome?
    ensures IdentsMatch(s.core.current, s.rows) && IdentsMatch(s.core.errors, s.rows)
    ensures s.core.current.Keys !! s.core.errors.Keys
  {
  }

  lemma BatchShows(s: State, step: Step)
    requires Inv(s) && Known(s) && DistinctRowIdents(s.rows) && step.Batch? && Can(s, step)
    ensures Known(Do(s, step))
  {
    if s.phase.Idle? || s.phase.Restarting? {
      InvIdents(s);
      assert !s.core.inProgress;
      var view, after := Replay(s.core.sent), Overwrite(Replay(s.core.sent), Updates(s.core.current, step.reports));
      hide Inv, FineRun, RunBasis, DistinctRowIdents, IdentsMatch;
      BatchKeepsUp(view, s.core.current, step.reports, s.rows);
      ReplaySend(s.core.sent, Updates(s.core.current, step.reports));
      assert Replay(Do(s, step).core.sent) == after;
      hide Replay, Overwrite, Updates;
      BatchView(view, after, s.core.current, ApplyReports(s.core.current, step.reports), s.core.errors, s.rows);
    }
  }

  /** What a batch leaves of the parts of the view. */
  lemma BatchView(view: View, after: View, current: Runtimes, now: Runtimes, errors: Runtimes, rows: Rows)
    requires KeepsUp(view, after, current, now, rows) && IdentsMatch(errors, rows) && current.Keys !! errors.Keys
    requires ViewKeys(view, rows) && ErrorsShown(view, errors)
    ensures ViewKeys(after, rows) && ErrorsShown(after, errors)
    ensures AllShown(view, current) ==> AllShown(after, now)
    ensures forall tasks :: OthersStateShown(view, current, tasks) ==> OthersStateShown(after, now, tasks)
  {
    forall id | id in errors ensures Shown(after, errors[id]) {
      assert Shown(view, errors[id]) && id !in current;
    }
    hide Shown, StateShown;
  }

  /** Reporting every instance once shows them all and nothing else. */
  lemma ReportAll(
      order: seq<InstanceID>, errorOrder: seq<InstanceID>, current: Runtimes, errors: Runtimes, rows: Rows)
    requires IsOrder(order, current.Keys) && IsOrder(errorOrder, errors.Keys)
    requires IdentsMatch(current, rows) && IdentsMatch(errors, rows) && DistinctRowIdents(rows)
    requires current.Keys !! errors.Keys && current.Keys + errors.Keys == rows.Keys
    ensures var view := Overwrite(map[], Clouds(order, current) + Clouds(errorOrder, errors));
            && ViewKeys(view, rows)
            && ErrorsShown(view, errors)
            && (forall id :: id in current ==> Shown(view, current[id]))
  {
    var a, b := Clouds(order, current), Clouds(errorOrder, errors);
    CloudsMembers(order, current, rows);
    CloudsMembers(errorOrder, errors, rows);
    forall i, j | 0 <= i < |a| && 0 <= j < |b|
      ensures a[i].ident != b[j].ident
    {
      assert order[i] in order && errorOrder[j] in errorOrder;
      assert rows[order[i]].ident != rows[errorOrder[j]].ident;
    }
    assert DistinctStatuses(a + b);
    var view := Overwrite(map[], a + b);
    OverwriteLookup(map[], a + b);
    forall id | id in current
      ensures Shown(view, current[id])
    {
      assert Cloud(current[id]) in a;
      assert Cloud(current[id]) in a + b;
    }
    forall id | id in errors
      ensures Shown(view, errors[id])
    {
      assert Cloud(errors[id]) in b;
      assert Cloud(errors[id]) in a + b;
    }
    forall ident
      ensures ident in view <==> exists id :: id in rows && rows[id].ident == ident
    {
      AllMentioned(a, b, ident);
    }
  }

  lemma FinishShows(s: State, step: Step)
    requires Inv(s) && DistinctRowIdents(s.rows) && s.phase.Starting? && step.Finish?
    requires CanStart(s, s.phase.tasks, step)
    ensures Known(DoStart(s, s.phase.tasks, step))
  {
    InvIdents(s);
    FinishCovers(s, step);
    EndedView(s, step);
    hide CanStart, DoStart, IsOrder, Inv, IdentsMatch, DistinctRowIdents, Shown, StateShown, FineRun, Clouds, Overwrite,
      Replay, ViewKeys, ErrorsShown, Ended;
    ReportAll(step.order, step.errorOrder, s.core.current, s.core.errors, s.rows);
    ShownStates(Replay(DoStart(s, s.phase.tasks, step).core.sent), s.core.current);
  }

  lemma EndedView(s: State, step: Step)
    requires s.phase.Starting? && step.Finish? && CanStart(s, s.phase.tasks, step)
    ensures IsOrder(step.order, s.core.current.Keys) && IsOrder(step.errorOrder, s.core.errors.Keys)
    ensures forall id :: id in step.order ==> id in s.core.current
    ensures forall id :: id in step.errorOrder ==> id in s.core.errors
    ensures var t := DoStart(s, s.phase.tasks, step);
            && t.phase.Idle? && t.rows == s.rows
            && t.core.current == s.core.current && t.core.errors == s.core.errors
            && Replay(t.core.sent) == Overwrite(map[], Clouds(step.order, s.core.current) +
                                                       Clouds(step.errorOrder, s.core.errors))
  {
  }

  lemma ShownStates(view: View, runtimes: Runtimes)
    requires forall id :: id in runtimes ==> Shown(view, runtimes[id])
    ensures forall id :: id in runtimes ==> StateShown(view, runtimes[id])
  {
  }

  lemma FinishCovers(s: State, step: Step)
    requires Inv(s) && s.phase.Starting? && step.Finish? && CanStart(s, s.phase.tasks, step)
    ensures s.core.current.Keys + s.core.errors.Keys == s.rows.Keys
  {
    StartKeeps(s, step);
  }

  lemma AllMentioned(a: seq<CloudStatus>, b: seq<CloudStatus>, ident: InstanceIdent)
    ensures Mentions(a + b, ident) <==> Mentions(a, ident) || Mentions(b, ident)
  {
    if Mentions(a, ident) {
      var c :| c in a && c.ident == ident;
      assert c in a + b;
    }
    if Mentions(b, ident) {
      var c :| c in b && c.ident == ident;
      assert c in a + b;
    }
  }

  lemma SweptShows(core: Core, rows: Rows, restarted: bool, doubtful: bool, order: seq<InstanceID>)
    requires DistinctRowIdents(rows) && IdentsMatch(core.current, rows) && IdentsMatch(core.errors, rows)
    requires core.current.Keys !! core.errors.Keys
    requires Distinct(order) && forall id :: id in order ==> id in core.current
    requires IdleView(core, rows, restarted, doubtful, Replay(core.sent))
    ensures IdleView(Swept(core, order), rows, restarted, doubtful, Replay(Swept(core, order).sent))
  {
    var now := FailAll(core.current, Elements(order));
    assert IdentsMatch(now, rows);
    hide Shown, StateShown, IdentsMatch, DistinctRowIdents, ErrorsShown, ViewKeys, Overwrite, Clouds, Replay, AllShown;
    ReplaySend(core.sent, Clouds(order, now));
    ReportView(Replay(core.sent), order, core.current, now, core.errors, rows);
  }

  lemma SweepShows(s: State, step: Step)
    requires Inv(s) && Known(s) && DistinctRowIdents(s.rows) && step.Sweep? && Can(s, step)
    ensures Known(Do(s, step))
  {
    InvIdents(s);
    hide IdleView, IdentsMatch, RunBasis, PhaseInv, ExpiredIds;
    SweptShows(s.core, s.rows, s.restarted, Doubtful(s), step.order);
  }

  /** Instances that were reported are shown; of the others the receiver knows what it knew. */
  lemma ReportedOrSame(
      view: View, after: View, ids: seq<InstanceID>, current: Runtimes, now: Runtimes, rows: Rows)
    requires current.Keys == now.Keys && IdentsMatch(current, rows)
    requires ViewKeys(view, rows) && ViewKeys(after, rows)
    requires forall id :: id in ids ==> id in now && Shown(after, now[id])
    requires forall id :: id in rows && id !in ids ==> after[rows[id].ident] == view[rows[id].ident]
    requires forall id :: id in current && id !in ids ==> now[id] == current[id]
    ensures forall id :: id in current && Shown(view, current[id]) ==> Shown(after, now[id])
    ensures forall id :: id in current && StateShown(view, current[id]) ==> StateShown(after, now[id])
  {
  }

  lemma OthersShown(view: View, after: View, ids: seq<InstanceID>, errors: Runtimes, rows: Rows)
    requires IdentsMatch(errors, rows) && ErrorsShown(view, errors)
    requires ViewKeys(view, rows) && ViewKeys(after, rows)
    requires forall id :: id in rows && id !in ids ==> after[rows[id].ident] == view[rows[id].ident]
    requires forall id :: id in errors ==> id !in ids
    ensures ErrorsShown(after, errors)
  {
  }

  lemma EnvBeginShows(s: State, step: Step)
    requires Inv(s) && Known(s) && step.EnvBegin? && Can(s, step)
    ensures Known(Do(s, step))
  {
    InvIdents(s);
  }

  /** At the first visit the saved state is the one the receiver has. */
  lemma VisitView(
      view: View, rows: Rows, current: Runtimes, tasks: set<InstanceID>, saved: map<InstanceID, RunState>,
      id: InstanceID)
    requires IdentsMatch(current, rows) && id in current && id !in tasks
    requires SavedShown(view, rows, saved) && OthersStateShown(view, current, tasks)
    ensures SavedShown(view, rows, saved[id := current[id].status.state])
    ensures OthersStateShown(view, current, tasks + {id})
  {
  }

  lemma VisitStep(s: State, step: Step)
    requires s.phase.Restarting? && CanRestart(s, s.phase.envTasks, step) && step.EnvVisit?
    ensures step.id in s.core.current
    ensures var t := DoRestart(s, s.phase.envTasks, s.phase.saved, step);
            && t.core == s.core && t.rows == s.rows && t.restarted && t.raced == s.raced
            && t.phase.Restarting? && t.phase.envTasks.Keys == s.phase.envTasks.Keys + {step.id}
            && t.phase.saved == s.phase.saved[step.id := s.core.current[step.id].status.state]
            && t.revisited == (s.revisited || step.id in s.phase.envTasks)
  {
  }

  lemma VisitShows(s: State, step: Step)
    requires Inv(s) && Known(s) && s.phase.Restarting? && CanRestart(s, s.phase.envTasks, step) && step.EnvVisit?
    ensures Known(DoRestart(s, s.phase.envTasks, s.phase.saved, step))
  {
    InvIdents(s);
    VisitStep(s, step);
    var t := DoRestart(s, s.phase.envTasks, s.phase.saved, step);
    hide Inv, CanRestart, DoRestart, Replay, SavedShown, OthersStateShown, AllShown, ViewKeys, ErrorsShown, IdentsMatch;
    if !Doubtful(t) {
      VisitView(Replay(s.core.sent), s.rows, s.core.current, s.phase.envTasks.Keys, s.phase.saved, step.id);
    }
  }

  /** Steps of the actions send nothing and touch only instances that are being restarted. */
  lemma RestartActionShows(s: State, step: Step, after: Core, tasks: map<InstanceID, EnvTask>)
    requires step.StopFind? || step.StopDelete? || step.StartBegin? || step.StartReport? || step.StartFail?
    requires Known(s) && s.phase.Restarting? && step.id in s.phase.envTasks && tasks.Keys == s.phase.envTasks.Keys
    requires after.sent == s.core.sent && after.errors == s.core.errors
    requires forall id :: id in after.current && id != step.id ==>
               id in s.core.current && after.current[id] == s.core.current[id]
    ensures Known(s.(core := after, phase := Restarting(tasks, s.phase.saved)))
  {
    hide StateShown, Shown, Replay, ViewKeys;
  }

  lemma RestartShows(s: State, step: Step)
    requires Inv(s) && Known(s) && DistinctRowIdents(s.rows) && s.phase.Restarting?
    requires CanRestart(s, s.phase.envTasks, step)
    ensures Known(DoRestart(s, s.phase.envTasks, s.phase.saved, step))
  {
    if step.EnvFinish? {
      EnvFinishShows(s, step);
    } else if step.EnvVisit? {
      VisitShows(s, step);
    } else {
      var t := DoRestart(s, s.phase.envTasks, s.phase.saved, step);
      if step.StartBegin? {
        RestartBegins(s, step);
      }
      hide Inv, Known, Overrides;
      RestartActionShows(s, step, t.core, t.phase.envTasks);
    }
  }

  lemma EnvFinishShows(s: State, step: Step)
    requires Inv(s) && Known(s) && DistinctRowIdents(s.rows) && s.phase.Restarting?
    requires CanRestart(s, s.phase.envTasks, step) && step.EnvFinish?
    ensures Known(DoRestart(s, s.phase.envTasks, s.phase.saved, step))
  {
    InvIdents(s);
    EnvStates(s, Replay(s.core.sent));
    FinishOrder(s, step);
    hide Inv, Replay, Overwrite, Clouds, DistinctRowIdents, IdentsMatch, Shown, StateShown, ViewKeys, ErrorsShown,
      AllShown, SavedShown, Distinct;
    ReplaySend(s.core.sent, Clouds(step.order, s.core.current));
    ReportView(Replay(s.core.sent), step.order, s.core.current, s.core.current, s.core.errors, s.rows);
  }

  lemma FinishOrder(s: State, step: Step)
    requires s.phase.Restarting? && CanRestart(s, s.phase.envTasks, step) && step.EnvFinish?
    ensures Distinct(step.order) && forall id :: id in step.order ==> id in s.core.current
    ensures forall id :: id in s.core.current ==>
              (id in step.order <==> id in s.phase.envTasks && ReportNeeded(s, id))
  {
    hide Overrides;
  }

  /** Reporting some instances, all others being as they were: the parts of the view afterwards. */
  lemma ReportView(
      view: View, order: seq<InstanceID>, current: Runtimes, now: Runtimes, errors: Runtimes, rows: Rows)
    requires forall id :: id in order ==> id in now
    requires IdentsMatch(current, rows) && IdentsMatch(now, rows) && IdentsMatch(errors, rows)
    requires current.Keys == now.Keys && current.Keys !! errors.Keys
    requires forall id :: id in current && id !in order ==> now[id] == current[id]
    requires DistinctRowIdents(rows) && Distinct(order) && ViewKeys(view, rows) && ErrorsShown(view, errors)
    ensures var after := Overwrite(view, Clouds(order, now));
            && ViewKeys(after, rows) && ErrorsShown(after, errors)
            && (AllShown(view, current) ==> AllShown(after, now))
            && ((forall id :: id in current && id !in order ==> StateShown(view, current[id])) ==>
                  OthersStateShown(after, now, {}))
  {
    var after := Overwrite(view, Clouds(order, now));
    ReportSome(view, order, now, rows);
    hide Overwrite, Clouds, DistinctRowIdents, Distinct;
    ReportedOrSame(view, after, order, current, now, rows);
    OthersShown(view, after, order, errors, rows);
    hide ViewKeys;
  }

  /** An instance whose state is the saved one needs no message. */
  lemma EnvStates(s: State, view: View)
    requires Inv(s) && s.phase.Restarting? && RestartingView(s, view, s.phase.envTasks, s.phase.saved)
    requires IdentsMatch(s.core.current, s.rows)
    ensures !Doubtful(s) ==>
              forall id :: id in s.core.current && !(id in s.phase.envTasks && ReportNeeded(s, id)) ==>
                StateShown(view, s.core.current[id])
  {
    hide ViewKeys, ErrorsShown, RunBasis, FineRun, DistinctRowIdents;
  }

  lemma FinishStep(s: State, step: Step)
    requires s.phase.Restarting? && step.EnvFinish? && Can(s, step)
    ensures Distinct(step.order) && forall id :: id in step.order ==> id in s.core.current
    ensures Do(s, step).core.current == s.core.current
    ensures Do(s, step).core.sent == Send(s.core.sent, Clouds(step.order, s.core.current))
    ensures forall id :: id in s.core.current ==>
              (id in step.order <==> id in s.phase.envTasks && ReportNeeded(s, id))
  {
  }

  lemma ShownExactly(view: View, order: seq<InstanceID>, current: Runtimes, rows: Rows, id: InstanceID)
    requires forall other :: other in order ==> other in current
    requires IdentsMatch(current, rows) && DistinctRowIdents(rows) && Distinct(order) && ViewKeys(view, rows)
    requires id in current
    ensures StateShown(Overwrite(view, Clouds(order, current)), current[id]) <==>
            id in order || StateShown(view, current[id])
  {
    ReportSome(view, order, current, rows);
    hide Overwrite, Clouds, DistinctRowIdents, Distinct;
  }

  lemma RowsChange(s: State, step: Step)
    requires Can(s, step)
    ensures step.Calculate? || Do(s, step).rows == s.rows
    ensures step.Calculate? ==> Known(Do(s, step))
  {
    hide CanCalculate, CanStart, CanRestart;
  }

  /** Every step keeps the receiver's view in line with the launcher's state. */
  lemma StepKeepsView(s: State, step: Step)
    requires Inv(s) && ViewInv(s) && Can(s, step)
    ensures ViewInv(Do(s, step))
  {
    RowsChange(s, step);
    hide Inv, Known, Can, Do, DistinctRowIdents;
    if !step.Calculate? && DistinctRowIdents(s.rows) {
      StepKeepsKnown(s, step);
    }
  }

  lemma StepKeepsKnown(s: State, step: Step)
    requires Inv(s) && Known(s) && DistinctRowIdents(s.rows) && Can(s, step)
    ensures Known(Do(s, step))
  {
    hide *;
    ActionOrOperation(s, step);
    if step.Batch? {
      BatchShows(s, step);
    } else if step.Sweep? {
      SweepShows(s, step);
    } else if step.EnvBegin? {
      EnvBeginShows(s, step);
    } else if !ActionStep(s, step) {
      OperationShows(s, step);
    } else {
      ActionShows(s, step);
    }
  }

  /** The first steps of an operation leave the idle phase and send nothing. */
  lemma OperationShows(s: State, step: Step)
    requires Inv(s) && Known(s) && Can(s, step)
    requires step.Load? || step.Request? || step.Calculate? || step.StopsFinished?
    ensures Known(Do(s, step))
  {
    hide Inv, IdleView, RestartingView, CanCalculate, Replay;
  }

  lemma ActionShows(s: State, step: Step)
    requires Inv(s) && Known(s) && DistinctRowIdents(s.rows) && Can(s, step) && ActionStep(s, step)
    ensures Known(Do(s, step))
  {
    hide Inv, Can, Do, IdleView, RestartingView, Replay;
    if s.phase.Restarting? {
      RestartShows(s, step);
    } else if s.phase.Starting? && step.Finish? {
      FinishShows(s, step);
    }
  }
}
