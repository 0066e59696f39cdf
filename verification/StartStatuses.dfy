/** Which status an instance has when its start ends: the runner's batches may overtake the answer of the start. */
module StartStatuses {
  import opened Sequences
  import opened Instances
  import opened Preparation
  import opened Reconciler
  import opened EnvVars
  import opened LauncherRuns
  import opened LauncherInvariant
  import opened LauncherView
  import opened LauncherTheorems
  import opened RestartReports

  /** What a batch says about one instance, oldest first. */
  function About(reports: seq<Report>, id: InstanceID): seq<RunStatus> {
    if reports == [] then []
    else
      var last := reports[|reports| - 1];
      About(reports[..|reports| - 1], id) + (if last.id == id then [last.status] else [])
  }

  /** What the batches among the steps say about it. */
  function AboutSteps(steps: seq<Step>, id: InstanceID): seq<RunStatus> {
    if steps == [] then []
    else (if steps[0].Batch? then About(steps[0].reports, id) else []) + AboutSteps(steps[1..], id)
  }

  /** The k-th of the statuses told is the last one with another state than before, the state being unset at first. */
  ghost predicate LastChange(told: seq<RunStatus>, k: int) {
    && 0 <= k < |told| && (k > 0 ==> told[k - 1].state != told[k].state)
    && forall j :: k <= j < |told| ==> told[j].state == told[k].state
  }

  /** The steps do not end the start of this instance. */
  ghost predicate StillStarting(steps: seq<Step>, id: InstanceID) {
    forall step :: step in steps && (step.StartReport? || step.StartFail?) ==> step.id != id
  }

  /* ---- What the batches leave ---- */

  function After(status: RunStatus, told: seq<RunStatus>): RunStatus {
    if told == [] then status
    else
      var before := After(status, told[..|told| - 1]);
      if told[|told| - 1].state != before.state then told[|told| - 1] else before
  }

  lemma {:induction false} AfterConcat(status: RunStatus, a: seq<RunStatus>, b: seq<RunStatus>)
    ensures After(status, a + b) == After(After(status, a), b)
  {
    if b == [] {
      assert a + b == a;
    } else {
      assert (a + b)[..|a + b| - 1] == a + b[..|b| - 1];
      AfterConcat(status, a, b[..|b| - 1]);
    }
  }

  lemma SameStateTold(told: seq<RunStatus>, n: nat)
    requires |told| == n + 1 && n > 0 && told[n].state == told[n - 1].state
    ensures forall k :: LastChange(told, k) <==> LastChange(told[..n], k)
  {
  }

  lemma OtherStateTold(told: seq<RunStatus>, n: nat)
    requires |told| == n + 1 && (n > 0 ==> told[n].state != told[n - 1].state)
    ensures forall k :: LastChange(told, k) <==> k == n
  {
    assert LastChange(told, n);
    IsWithin(told);
    hide LastChange;
    forall k | 0 <= k < n
      ensures !LastChange(told, k)
    {
      if LastChange(told, k) {
        SameFrom(told, k, n);
        SameFrom(told, k, n - 1);
        assert false;
      }
    }
  }

  lemma SameFrom(told: seq<RunStatus>, k: int, j: int)
    requires LastChange(told, k) && k <= j < |told|
    ensures told[j].state == told[k].state
  {
  }

  lemma {:induction false} AfterIsLastChange(told: seq<RunStatus>)
    requires told != [] && forall j :: 0 <= j < |told| ==> told[j].state != Unset
    ensures exists k :: LastChange(told, k)
    ensures forall k :: 0 <= k < |told| && LastChange(told, k) ==> After(NO_STATUS, told) == told[k]
    ensures After(NO_STATUS, told).state == told[|told| - 1].state
  {
    var n := |told| - 1;
    hide LastChange;
    if n == 0 {
      assert told[..0] == [];
      OtherStateTold(told, n);
      assert LastChange(told, n);
    } else {
      AfterIsLastChange(told[..n]);
      if told[n].state == told[n - 1].state {
        SameStateTold(told, n);
        IsWithin(told[..n]);
      } else {
        OtherStateTold(told, n);
        assert LastChange(told, n);
      }
    }
  }

  lemma IsWithin(told: seq<RunStatus>)
    ensures forall k :: LastChange(told, k) ==> 0 <= k < |told|
  {
  }

  lemma {:induction false} BatchLeaves(current: Runtimes, reports: seq<Report>, id: InstanceID)
    requires id in current
    ensures id in ApplyReports(current, reports)
    ensures ApplyReports(current, reports)[id] ==
            current[id].(status := After(current[id].status, About(reports, id)))
  {
    if reports != [] {
      var n := |reports| - 1;
      BatchLeaves(current, reports[..n], id);
      var before := About(reports[..n], id);
      assert (before + [reports[n].status])[..|before|] == before;
      assert before + [] == before;
    }
  }

  lemma {:induction false} AboutSet(reports: seq<Report>, id: InstanceID)
    requires forall r :: r in reports ==> r.status.state != Unset
    ensures forall j :: 0 <= j < |About(reports, id)| ==> About(reports, id)[j].state != Unset
  {
    if reports != [] {
      assert reports[|reports| - 1] in reports;
      AboutSet(reports[..|reports| - 1], id);
    }
  }

  /* ---- While the instance starts ---- */

  ghost predicate InStart(s: State, id: InstanceID) {
    || (s.phase.Starting? && id in s.phase.tasks && s.phase.tasks[id].Running?)
    || (s.phase.Restarting? && id in s.phase.envTasks && s.phase.envTasks[id].EnvRunning?)
  }

  /** The start is running, and the status is what the batches so far have left. */
  ghost predicate Pending(s: State, id: InstanceID, told: seq<RunStatus>) {
    && Inv(s) && InStart(s, id) && id in s.core.current
    && s.core.current[id].status == After(NO_STATUS, told)
    && forall j :: 0 <= j < |told| ==> told[j].state != Unset
  }

  lemma BeginPends(s: State, id: InstanceID)
    requires Inv(s) && Can(s, StartBegin(id))
    ensures Pending(Do(s, StartBegin(id)), id, [])
  {
    StepKeepsInv(s, StartBegin(id));
    StartsOrRestarts(s, id);
    hide Inv, Can, Do, CanStart, DoStart, CanRestart, DoRestart, InStart;
    if s.phase.Starting? {
      StartingStep(s, StartBegin(id));
      BeginInStart(s, id);
    } else {
      RestartingStep(s, StartBegin(id));
      BeginInRestart(s, id);
    }
  }

  lemma StartsOrRestarts(s: State, id: InstanceID)
    requires Can(s, StartBegin(id))
    ensures s.phase.Starting? || s.phase.Restarting?
  {
  }

  lemma BeginInStart(s: State, id: InstanceID)
    requires Inv(s) && s.phase.Starting? && CanStart(s, s.phase.tasks, StartBegin(id))
    ensures var t := DoStart(s, s.phase.tasks, StartBegin(id));
            InStart(t, id) && id in t.core.current && t.core.current[id].status == NO_STATUS
  {
    StartBeginKeeps(s.core, s.rows, ServicesOf(s), s.phase.tasks, id);
    hide Inv, StartingInv;
  }

  lemma BeginInRestart(s: State, id: InstanceID)
    requires Inv(s) && s.phase.Restarting? && CanRestart(s, s.phase.envTasks, StartBegin(id))
    ensures var t := DoRestart(s, s.phase.envTasks, s.phase.saved, StartBegin(id));
            InStart(t, id) && id in t.core.current && t.core.current[id].status == NO_STATUS
  {
    hide Inv;
    RestartBegins(s, StartBegin(id));
  }

  lemma BatchPends(s: State, step: Step, id: InstanceID, told: seq<RunStatus>)
    requires Pending(s, id, told) && step.Batch? && Can(s, step)
    ensures Pending(Do(s, step), id, told + About(step.reports, id))
  {
    hide Inv, Can, Do, After, About, ApplyReports;
    StepKeepsInv(s, step);
    BatchStep(s, step);
    BatchLeaves(s.core.current, step.reports, id);
    AboutSet(step.reports, id);
    AfterConcat(NO_STATUS, told, About(step.reports, id));
  }

  lemma BatchStep(s: State, step: Step)
    requires step.Batch? && Can(s, step)
    ensures Do(s, step).phase == s.phase
    ensures Do(s, step).core.current == ApplyReports(s.core.current, step.reports)
    ensures forall r :: r in step.reports ==> r.status.state != Unset
  {
  }

  lemma StartStepEffect(s: State, step: Step, id: InstanceID)
    requires Inv(s) && s.phase.Starting? && CanStart(s, s.phase.tasks, step)
    requires id in s.phase.tasks && s.phase.tasks[id].Running? && id in s.core.current
    requires (step.StartReport? || step.StartFail?) ==> step.id != id
    ensures var t := DoStart(s, s.phase.tasks, step);
            && t.phase.Starting? && id in t.phase.tasks && t.phase.tasks[id].Running?
            && id in t.core.current && t.core.current[id] == s.core.current[id]
  {
    if step.StartBegin? {
      OtherBegins(s, step.id, id);
    } else {
      hide Inv;
      assert step.StartReport? || step.StartFail?;
      ResultChangesStatusOnly(s, step);
      hide StartResult;
    }
  }

  lemma OtherBegins(s: State, other: InstanceID, id: InstanceID)
    requires Inv(s) && s.phase.Starting? && CanStart(s, s.phase.tasks, StartBegin(other)) && other != id
    requires id in s.phase.tasks && id in s.core.current
    ensures var t := DoStart(s, s.phase.tasks, StartBegin(other));
            && t.phase.Starting? && id in t.phase.tasks && t.phase.tasks[id] == s.phase.tasks[id]
            && id in t.core.current && t.core.current[id] == s.core.current[id]
  {
    StartBeginKeeps(s.core, s.rows, ServicesOf(s), s.phase.tasks, other);
    hide Inv, StartingInv;
  }

  lemma RestartStepEffect(s: State, step: Step, id: InstanceID)
    requires Inv(s) && s.phase.Restarting? && CanRestart(s, s.phase.envTasks, step)
    requires id in s.phase.envTasks && s.phase.envTasks[id].EnvRunning? && id in s.core.current
    requires (step.StartReport? || step.StartFail?) ==> step.id != id
    ensures var t := DoRestart(s, s.phase.envTasks, s.phase.saved, step);
            && t.phase.Restarting? && id in t.phase.envTasks && t.phase.envTasks[id].EnvRunning?
            && id in t.core.current && t.core.current[id] == s.core.current[id]
  {
    assert !step.EnvFinish?;
    TaskEffect(s, step);
    if step.id == id {
      assert step.EnvVisit?;
    }
    hide Inv, Overrides;
  }

  lemma StepPends(s: State, step: Step, id: InstanceID, told: seq<RunStatus>)
    requires Pending(s, id, told) && Can(s, step)
    requires (step.StartReport? || step.StartFail?) ==> step.id != id
    ensures Pending(Do(s, step), id, told + if step.Batch? then About(step.reports, id) else [])
  {
    if step.Batch? {
      BatchPends(s, step, id, told);
    } else {
      StepKeepsInv(s, step);
      assert told + [] == told;
      if s.phase.Starting? {
        StartingStep(s, step);
        StartStepEffect(s, step, id);
      } else {
        RestartingStep(s, step);
        RestartStepEffect(s, step, id);
      }
      hide Inv, Can, Do, CanStart, DoStart, CanRestart, DoRestart, After;
    }
  }

  lemma StartingStep(s: State, step: Step)
    requires s.phase.Starting? && Can(s, step) && !step.Batch?
    ensures CanStart(s, s.phase.tasks, step) && Do(s, step) == DoStart(s, s.phase.tasks, step)
  {
    hide CanStart, DoStart;
  }

  lemma {:induction false} StepsPend(
      s: State, steps: seq<Step>, rest: seq<Step>, t: State, id: InstanceID, told: seq<RunStatus>)
    returns (u: State)
    requires Pending(s, id, told) && Run(s, steps + rest, t) && StillStarting(steps, id)
    ensures Pending(u, id, told + AboutSteps(steps, id)) && Run(u, rest, t)
    decreases |steps|
  {
    hide Pending, Can, Do, About;
    if steps == [] {
      assert steps + rest == rest && told + [] == told;
      u := s;
    } else {
      assert (steps + rest)[1..] == steps[1..] + rest;
      assert (steps + rest)[0] == steps[0];
      StepPends(s, steps[0], id, told);
      var first := if steps[0].Batch? then About(steps[0].reports, id) else [];
      u := StepsPend(Do(s, steps[0]), steps[1..], rest, t, id, told + first);
      assert told + first + AboutSteps(steps[1..], id) == told + AboutSteps(steps, id);
    }
  }

  /** From the begin of a start to its end. */
  lemma StartIsPending(
      s0: State, before: seq<Step>, s: State, id: InstanceID, between: seq<Step>, end: Step, t: State)
    returns (u: State)
    requires Init(s0) && Run(s0, before, s) && Run(s, [StartBegin(id)] + between + [end], t)
    requires StillStarting(between, id)
    ensures Pending(u, id, AboutSteps(between, id)) && Can(u, end) && t == Do(u, end)
  {
    InitInv(s0);
    RunKeeps(s0, before, s);
    var steps := [StartBegin(id)] + between + [end];
    assert steps[0] == StartBegin(id) && steps[1..] == between + [end];
    BeginPends(s, id);
    hide Pending, Can, Do, Inv, ViewInv;
    u := StepsPend(Do(s, StartBegin(id)), between, [end], t, id, []);
    assert [] + AboutSteps(between, id) == AboutSteps(between, id);
    assert [end][1..] == [];
    assert Run(Do(u, end), [], t);
  }

  /**
   * In a start as in a restart, whatever else happens until the runner answers: the instance ends with the answer if no
   * batch said anything about it meanwhile, and otherwise with the last status told that changed its state; the later
   * answer is dropped.
   */
  lemma AnswerIsOvertaken(
      s0: State, before: seq<Step>, s: State, id: InstanceID, between: seq<Step>, answer: RunStatus, t: State)
    requires Init(s0) && Run(s0, before, s) && Run(s, [StartBegin(id)] + between + [StartReport(id, answer)], t)
    requires StillStarting(between, id)
    ensures id in t.core.current
    ensures var told := AboutSteps(between, id);
            && (told == [] ==> t.core.current[id].status == answer)
            && (told != [] ==> exists k :: LastChange(told, k))
            && (forall k :: 0 <= k < |told| && LastChange(told, k) ==> t.core.current[id].status == told[k])
  {
    var told := AboutSteps(between, id);
    var u := StartIsPending(s0, before, s, id, between, StartReport(id, answer), t);
    hide Run, Inv, Can, Do, LastChange, AboutSteps, InStart;
    StatesTold(u, id, told);
    if told != [] {
      AfterIsLastChange(told);
    }
    ReportEffect(u, id, answer, told);
  }

  lemma StatesTold(u: State, id: InstanceID, told: seq<RunStatus>)
    requires Pending(u, id, told)
    ensures forall j :: 0 <= j < |told| ==> told[j].state != Unset
    ensures forall k :: LastChange(told, k) ==> 0 <= k < |told|
  {
    hide Inv, InStart, After;
  }

  lemma ReportEffect(u: State, id: InstanceID, answer: RunStatus, told: seq<RunStatus>)
    requires Pending(u, id, told) && Can(u, StartReport(id, answer))
    ensures var t, status := Do(u, StartReport(id, answer)), After(NO_STATUS, told);
            && id in t.core.current
            && t.core.current[id].status == if status.state == Unset then answer else status
  {
    hide Inv, Overrides, After;
  }

  /**
   * A start that fails leaves the instance failed with its error, whatever the batches told; only the exit code is the
   * one of the last status told that changed the state, and 0 if none was told.
   */
  lemma FailureOverwrites(
      s0: State, before: seq<Step>, s: State, id: InstanceID, between: seq<Step>, error: LaunchError, built: bool,
      t: State)
    requires Init(s0) && Run(s0, before, s) && Run(s, [StartBegin(id)] + between + [StartFail(id, error, built)], t)
    requires StillStarting(between, id)
    ensures id in t.core.current
    ensures var told, status := AboutSteps(between, id), t.core.current[id].status;
            && status.state == Failed && status.error == Some(error)
            && (told == [] ==> status.exitCode == 0)
            && (told != [] ==> exists k :: LastChange(told, k))
            && (forall k :: 0 <= k < |told| && LastChange(told, k) ==> status.exitCode == told[k].exitCode)
  {
    var told := AboutSteps(between, id);
    var u := StartIsPending(s0, before, s, id, between, StartFail(id, error, built), t);
    hide Run, Inv, Can, Do, LastChange, AboutSteps, InStart;
    StatesTold(u, id, told);
    if told != [] {
      AfterIsLastChange(told);
    }
    FailEffect(u, id, error, built, told);
  }

  lemma FailEffect(u: State, id: InstanceID, error: LaunchError, built: bool, told: seq<RunStatus>)
    requires Pending(u, id, told) && Can(u, StartFail(id, error, built))
    ensures var t := Do(u, StartFail(id, error, built));
            && id in t.core.current
            && t.core.current[id].status == RunStatus(Failed, Some(error), After(NO_STATUS, told).exitCode)
  {
    hide Inv, Overrides, After;
  }
}
