/** What the receiver of the status messages knows when stored instances may share an ident. */
module SharedIdents {
  import opened Sequences
  import opened Instances
  import opened Preparation
  import opened StorageMatching
  import opened Reconciler
  import opened EnvVars
  import opened LauncherRuns
  import opened LauncherInvariant
  import opened LauncherView
  import opened LauncherTheorems

  function StatusesOf(runtimes: Runtimes): set<CloudStatus> {
    set id | id in runtimes :: Cloud(runtimes[id])
  }

  /** The statuses of all running and failed instances. */
  function Statuses(core: Core): set<CloudStatus> {
    StatusesOf(core.current) + StatusesOf(core.errors)
  }

  /** Every entry of the view is the present status of an instance of its ident. */
  ghost predicate Owned(view: View, core: Core) {
    forall ident :: ident in view ==> view[ident].ident == ident && view[ident] in Statuses(core)
  }

  /** The receiver has the status of every instance. */
  ghost predicate AllKnown(view: View, core: Core) {
    forall c :: c in Statuses(core) ==> c.ident in view && view[c.ident] == c
  }

  /** Instances that share an ident have equal statuses. */
  ghost predicate Agree(core: Core) {
    forall c, d :: c in Statuses(core) && d in Statuses(core) && c.ident == d.ident ==> c == d
  }

  ghost predicate Watching(s: State) {
    s.phase.Idle? || s.phase.Restarting?
  }

  ghost predicate SharedView(s: State) {
    Watching(s) ==>
      && ViewKeys(Replay(s.core.sent), s.rows)
      && (!s.restarted ==> Owned(Replay(s.core.sent), s.core))
      && (!s.restarted && s.phase.Restarting? ==> s.phase.envTasks == map[])
  }

  /* ---- Messages ---- */

  /** An entry that is mentioned is one of the statuses, any other is as it was. */
  lemma {:induction false} OverwriteEntry(view: View, statuses: seq<CloudStatus>, ident: InstanceIdent)
    ensures var after := Overwrite(view, statuses);
            && (ident in after <==> ident in view || Mentions(statuses, ident))
            && (Mentions(statuses, ident) ==> after[ident] in statuses && after[ident].ident == ident)
            && (ident in view && !Mentions(statuses, ident) ==> after[ident] == view[ident])
  {
    if statuses != [] {
      var n := |statuses| - 1;
      assert statuses == statuses[..n] + [statuses[n]];
      OverwriteEntry(view, statuses[..n], ident);
      MentionsNext(statuses[..n], statuses[n], ident);
    }
  }

  lemma MentionsNext(statuses: seq<CloudStatus>, last: CloudStatus, ident: InstanceIdent)
    ensures Mentions(statuses + [last], ident) <==> Mentions(statuses, ident) || last.ident == ident
  {
    if Mentions(statuses, ident) {
      var c :| c in statuses && c.ident == ident;
      assert c in statuses + [last];
    }
    assert last in statuses + [last];
  }

  lemma CloudsElements(order: seq<InstanceID>, runtimes: Runtimes)
    requires forall id :: id in order ==> id in runtimes
    ensures forall c :: c in Clouds(order, runtimes) <==> exists id :: id in order && c == Cloud(runtimes[id])
  {
    hide Cloud;
    var statuses := Clouds(order, runtimes);
    forall id | id in order ensures Cloud(runtimes[id]) in statuses {
      var k :| 0 <= k < |order| && order[k] == id;
      assert statuses[k] == Cloud(runtimes[id]);
    }
  }

  lemma CloudIdent(runtimes: Runtimes, rows: Rows, id: InstanceID)
    requires IdentsMatch(runtimes, rows) && id in runtimes
    ensures id in rows && Cloud(runtimes[id]).ident == rows[id].ident
  {
  }

  /** A message about some of the instances, all others being as they were. */
  lemma SomeReported(view: View, core: Core, now: Runtimes, order: seq<InstanceID>, rows: Rows)
    requires IdentsMatch(now, rows) && now.Keys == core.current.Keys && forall id :: id in order ==> id in now
    requires IdentsMatch(core.current, rows) && ViewKeys(view, rows)
    requires forall id :: id in now && id !in order ==> now[id] == core.current[id]
    ensures var after := Overwrite(view, Clouds(order, now));
            ViewKeys(after, rows) && (Owned(view, core) ==> Owned(after, core.(current := now)))
  {
    var statuses := Clouds(order, now);
    var after := Overwrite(view, statuses);
    CloudsElements(order, now);
    hide Overwrite, Clouds, Cloud, IdentsMatch;
    forall ident
      ensures ident in after <==> ident in view
      ensures ident in after && Owned(view, core) ==>
                after[ident].ident == ident && after[ident] in Statuses(core.(current := now))
    {
      OverwriteEntry(view, statuses, ident);
      if Mentions(statuses, ident) {
        var c :| c in statuses && c.ident == ident;
        var id :| id in order && c == Cloud(now[id]);
        CloudIdent(now, rows, id);
      } else if ident in view && Owned(view, core) {
        StillOwned(view[ident], core, now, order, rows);
      }
    }
  }

  lemma StillOwned(c: CloudStatus, core: Core, now: Runtimes, order: seq<InstanceID>, rows: Rows)
    requires IdentsMatch(now, rows) && now.Keys == core.current.Keys && IdentsMatch(core.current, rows)
    requires forall id :: id in order ==> id in now
    requires forall id :: id in now && id !in order ==> now[id] == core.current[id]
    requires c in Statuses(core) && !Mentions(Clouds(order, now), c.ident)
    ensures c in Statuses(core.(current := now))
  {
    CloudsElements(order, now);
    hide Cloud, Clouds, IdentsMatch;
    if c !in StatusesOf(core.errors) {
      var id :| id in core.current && c == Cloud(core.current[id]);
      CloudIdent(core.current, rows, id);
      CloudIdent(now, rows, id);
      forall other | other in order
        ensures Cloud(now[other]).ident != c.ident
      {
        assert Cloud(now[other]) in Clouds(order, now);
      }
    }
  }

  /** One change of a batch. */
  lemma OneReported(view: View, core: Core, id: InstanceID, rt: Runtime, rows: Rows)
    requires IdentsMatch(core.current, rows) && id in core.current && rt.instance == core.current[id].instance
    requires ViewKeys(view, rows)
    ensures var after := view[Cloud(rt).ident := Cloud(rt)];
            && ViewKeys(after, rows) && IdentsMatch(core.current[id := rt], rows)
            && (Owned(view, core) ==> Owned(after, core.(current := core.current[id := rt])))
  {
    assert Clouds([id], core.current[id := rt]) == [Cloud(rt)];
    assert [Cloud(rt)][..0] == [];
    assert Overwrite(view, [Cloud(rt)]) == view[Cloud(rt).ident := Cloud(rt)];
    assert IdentsMatch(core.current[id := rt], rows);
    hide Cloud, IdentsMatch, Overwrite, Clouds, Owned, ViewKeys;
    SomeReported(view, core, core.current[id := rt], [id], rows);
  }

  lemma {:induction false} BatchReported(view: View, core: Core, reports: seq<Report>, rows: Rows)
    requires IdentsMatch(core.current, rows) && ViewKeys(view, rows)
    ensures var after, now := Overwrite(view, Updates(core.current, reports)), ApplyReports(core.current, reports);
            && ViewKeys(after, rows) && IdentsMatch(now, rows)
            && (Owned(view, core) ==> Owned(after, core.(current := now)))
  {
    hide Cloud, IdentsMatch, Owned, ViewKeys;
    if reports == [] {
      assert core.(current := core.current) == core;
    } else {
      var n := |reports| - 1;
      var before, updates := ApplyReports(core.current, reports[..n]), Updates(core.current, reports[..n]);
      BatchReported(view, core, reports[..n], rows);
      if Changes(before, reports[n]) {
        var rt := before[reports[n].id].(status := reports[n].status);
        assert Updates(core.current, reports) == updates + [Cloud(rt)];
        assert (updates + [Cloud(rt)])[..|updates|] == updates;
        OneReported(Overwrite(view, updates), core.(current := before), reports[n].id, rt, rows);
      } else {
        assert Updates(core.current, reports) == updates;
      }
    }
  }

  /* ---- Steps ---- */

  lemma BatchShares(s: State, step: Step)
    requires Inv(s) && SharedView(s) && step.Batch? && Can(s, step) && Watching(s)
    ensures SharedView(Do(s, step))
  {
    InvIdents(s);
    var view, updates := Replay(s.core.sent), Updates(s.core.current, step.reports);
    assert !s.core.inProgress;
    hide Inv, Owned, ViewKeys, IdentsMatch, Replay, Overwrite, ApplyReports, Updates;
    BatchReported(view, s.core, step.reports, s.rows);
    ReplaySend(s.core.sent, updates);
    OwnedBySame(Overwrite(view, updates), s.core.(current := ApplyReports(s.core.current, step.reports)),
                Do(s, step).core);
  }

  /** What the messages were plays no part. */
  lemma OwnedBySame(view: View, a: Core, b: Core)
    requires a.current == b.current && a.errors == b.errors
    ensures Owned(view, a) == Owned(view, b)
  {
  }

  lemma SweepShares(s: State, step: Step)
    requires Inv(s) && SharedView(s) && step.Sweep? && Can(s, step)
    ensures SharedView(Do(s, step))
  {
    InvIdents(s);
    var now := FailAll(s.core.current, Elements(step.order));
    SweepOrder(s, step);
    SweptIdents(s.core.current, s.rows, Elements(step.order));
    hide Inv, Owned, ViewKeys, IdentsMatch, Replay, Overwrite, Clouds, FailAll, Can, Do, ExpiredIds, Elements;
    SomeReported(Replay(s.core.sent), s.core, now, step.order, s.rows);
    ReplaySend(s.core.sent, Clouds(step.order, now));
    OwnedBySame(Overwrite(Replay(s.core.sent), Clouds(step.order, now)), s.core.(current := now), Do(s, step).core);
  }

  lemma SweptIdents(current: Runtimes, rows: Rows, ids: set<InstanceID>)
    requires IdentsMatch(current, rows)
    ensures IdentsMatch(FailAll(current, ids), rows)
  {
  }

  lemma SweepOrder(s: State, step: Step)
    requires step.Sweep? && Can(s, step)
    ensures s.phase.Idle? && forall id :: id in step.order ==> id in s.core.current
    ensures var now := FailAll(s.core.current, Elements(step.order));
            && now.Keys == s.core.current.Keys
            && (forall id :: id in now && id !in step.order ==> now[id] == s.core.current[id])
            && Do(s, step) == s.(core := Swept(s.core, step.order))
  {
  }

  lemma RestartShares(s: State, step: Step)
    requires Inv(s) && SharedView(s) && s.phase.Restarting? && CanRestart(s, s.phase.envTasks, step)
    ensures SharedView(DoRestart(s, s.phase.envTasks, s.phase.saved, step))
  {
    if step.EnvFinish? {
      RestartEndShares(s, step);
    } else {
      hide Inv, Overrides, Owned, ViewKeys, Replay;
    }
  }

  lemma RestartEndShares(s: State, step: Step)
    requires Inv(s) && SharedView(s) && s.phase.Restarting? && CanRestart(s, s.phase.envTasks, step) && step.EnvFinish?
    ensures SharedView(DoRestart(s, s.phase.envTasks, s.phase.saved, step))
  {
    InvIdents(s);
    FinishOrder(s, step);
    var t := DoRestart(s, s.phase.envTasks, s.phase.saved, step);
    hide Inv, Owned, ViewKeys, IdentsMatch, Replay, Overwrite, Clouds, CanRestart;
    SomeReported(Replay(s.core.sent), s.core, s.core.current, step.order, s.rows);
    ReplaySend(s.core.sent, Clouds(step.order, s.core.current));
    assert s.core.(current := s.core.current) == s.core;
    OwnedBySame(Overwrite(Replay(s.core.sent), Clouds(step.order, s.core.current)), s.core, t.core);
  }

  lemma AllReported(core: Core, order: seq<InstanceID>, errorOrder: seq<InstanceID>, rows: Rows)
    requires IsOrder(order, core.current.Keys) && IsOrder(errorOrder, core.errors.Keys)
    requires IdentsMatch(core.current, rows) && IdentsMatch(core.errors, rows)
    requires core.current.Keys + core.errors.Keys == rows.Keys
    ensures var view := Overwrite(map[], Clouds(order, core.current) + Clouds(errorOrder, core.errors));
            ViewKeys(view, rows) && Owned(view, core)
  {
    var a, b := Clouds(order, core.current), Clouds(errorOrder, core.errors);
    var view := Overwrite(map[], a + b);
    CloudsElements(order, core.current);
    CloudsElements(errorOrder, core.errors);
    hide Overwrite, Clouds, Cloud, IdentsMatch;
    forall c ensures c in a + b <==> c in Statuses(core) {
    }
    forall ident
      ensures ident in view <==> exists id :: id in rows && rows[id].ident == ident
      ensures ident in view ==> view[ident].ident == ident && view[ident] in Statuses(core)
    {
      OverwriteEntry(map[], a + b, ident);
      StatusIdents(core, rows, ident);
    }
  }

  lemma StatusIdents(core: Core, rows: Rows, ident: InstanceIdent)
    requires IdentsMatch(core.current, rows) && IdentsMatch(core.errors, rows)
    requires core.current.Keys + core.errors.Keys == rows.Keys
    ensures (exists c :: c in Statuses(core) && c.ident == ident) <==>
            exists id :: id in rows && rows[id].ident == ident
  {
    hide Cloud, IdentsMatch;
    if id :| id in rows && rows[id].ident == ident {
      if id in core.current {
        CloudIdent(core.current, rows, id);
        assert Cloud(core.current[id]) in Statuses(core);
      } else {
        assert id in core.errors;
        CloudIdent(core.errors, rows, id);
        assert Cloud(core.errors[id]) in Statuses(core);
      }
    }
    if c :| c in Statuses(core) && c.ident == ident {
      if id :| id in core.current && c == Cloud(core.current[id]) {
        CloudIdent(core.current, rows, id);
      } else {
        var id :| id in core.errors && c == Cloud(core.errors[id]);
        CloudIdent(core.errors, rows, id);
      }
    }
  }

  lemma FinishShares(s: State, step: Step)
    requires Inv(s) && s.phase.Starting? && step.Finish? && CanStart(s, s.phase.tasks, step)
    ensures SharedView(DoStart(s, s.phase.tasks, step))
  {
    InvIdents(s);
    FinishCovers(s, step);
    EndedView(s, step);
    hide CanStart, DoStart, Inv, IdentsMatch, Clouds, Overwrite, Replay, ViewKeys, Owned, Ended, IsOrder;
    AllReported(s.core, step.order, step.errorOrder, s.rows);
    OwnedBySame(Replay(DoStart(s, s.phase.tasks, step).core.sent), s.core, DoStart(s, s.phase.tasks, step).core);
  }

  lemma StepShares(s: State, step: Step)
    requires Inv(s) && SharedView(s) && Can(s, step)
    ensures SharedView(Do(s, step))
  {
    hide Inv, SharedView, CanCalculate, CanStart, CanRestart, CanStop, IsOrder, DoStart, DoRestart, DoStop, DoCalculate;
    if Watching(Do(s, step)) {
      if step.Batch? {
        BatchShares(s, step);
      } else if step.Sweep? {
        SweepShares(s, step);
      } else if step.EnvBegin? {
        BeginShares(s, step);
      } else if s.phase.Restarting? {
        RestartShares(s, step);
      } else {
        StartShares(s, step);
      }
    } else {
      Unwatched(Do(s, step));
    }
  }

  lemma Unwatched(s: State)
    requires !Watching(s)
    ensures SharedView(s)
  {
  }

  lemma BeginShares(s: State, step: Step)
    requires SharedView(s) && step.EnvBegin? && Can(s, step)
    ensures SharedView(Do(s, step))
  {
    hide Replay, Owned, ViewKeys, Cleaned;
  }

  lemma StartShares(s: State, step: Step)
    requires Inv(s) && Can(s, step) && Watching(Do(s, step)) && !Watching(s)
    ensures SharedView(Do(s, step))
  {
    hide Inv, SharedView, CanCalculate;
    assert s.phase.Starting? && step.Finish?;
    FinishShares(s, step);
  }

  lemma {:induction false} RunShares(s: State, steps: seq<Step>, t: State)
    requires Inv(s) && SharedView(s) && Run(s, steps, t)
    ensures Inv(t) && SharedView(t)
    decreases |steps|
  {
    hide Inv, SharedView, Can, Do;
    if steps != [] {
      StepKeepsInv(s, steps[0]);
      StepShares(s, steps[0]);
      RunShares(Do(s, steps[0]), steps[1..], t);
    }
  }

  /**
   * With any requests: after every operation the receiver has an entry for exactly the stored idents; until the first
   * restart for the environment every entry is the present status of an instance of its ident, and so the receiver
   * knows all statuses exactly if instances that share an ident have equal ones.
   */
  lemma ReportedIff(s: State, steps: seq<Step>, t: State)
    requires Init(s) && Run(s, steps, t) && t.phase.Idle?
    ensures ViewKeys(Replay(t.core.sent), t.rows)
    ensures !t.restarted ==>
              && Owned(Replay(t.core.sent), t.core)
              && (AllKnown(Replay(t.core.sent), t.core) <==> Agree(t.core))
  {
    InitInv(s);
    RunShares(s, steps, t);
    InvIdents(t);
    assert t.core.current.Keys + t.core.errors.Keys == t.rows.Keys;
    hide Inv, Replay, Cloud, IdentsMatch, Statuses;
    var view := Replay(t.core.sent);
    if !t.restarted && Agree(t.core) {
      forall c | c in Statuses(t.core)
        ensures c.ident in view && view[c.ident] == c
      {
        StatusIdents(t.core, t.rows, c.ident);
      }
    }
  }
}
