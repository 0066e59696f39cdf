/** The runner hands unit states from its monitor to the starting calls over channels. */
module Runner {
  import opened Sequences

  /** A channel is known by the call that made it. */
  type Channel = nat

  datatype Event = Sent(channel: Channel) | Closed(channel: Channel)

  /**
   * The monitored units, each with the channel of the call that starts it or none; the calls that have not returned,
   * with their units; the channel operations so far.
   */
  datatype State = State(
    runningUnits: map<string, Option<Channel>>, calls: map<Channel, string>, next: Channel, events: seq<Event>)

  /** The critical sections; a send holds the lock together with the look-up of its channel. */
  datatype Step =
    | Begin(unit: string)
    | End(channel: Channel, unit: string, failed: bool)
    | Stop(unit: string)
    | Send(unit: string)

  /** A call closes its channel when it returns; the monitor sends where it finds a channel. */
  predicate Can(s: State, step: Step) {
    match step
    case Begin(unit) => true
    case End(channel, unit, failed) => channel in s.calls && s.calls[channel] == unit
    case Stop(unit) => true
    case Send(unit) => unit in s.runningUnits && s.runningUnits[unit].Some?
  }

  function Do(s: State, step: Step): State
    requires Can(s, step)
  {
    match step
    case Begin(unit) =>
      s.(runningUnits := s.runningUnits[unit := Some(s.next)], calls := s.calls[s.next := unit], next := s.next + 1)
    case End(channel, unit, failed) =>
      s.(runningUnits := if failed then s.runningUnits - {unit} else s.runningUnits[unit := None],
         calls := s.calls - {channel}, events := s.events + [Closed(channel)])
    case Stop(unit) => s.(runningUnits := s.runningUnits - {unit})
    case Send(unit) => s.(events := s.events + [Sent(s.runningUnits[unit].value)])
  }

  predicate AllCan(s: State, steps: seq<Step>)
    decreases |steps|
  {
    steps == [] || (Can(s, steps[0]) && AllCan(Do(s, steps[0]), steps[1..]))
  }

  function Run(s: State, steps: seq<Step>): State
    requires AllCan(s, steps)
    decreases |steps|
  {
    if steps == [] then s else Run(Do(s, steps[0]), steps[1..])
  }

  const INITIAL := State(map[], map[], 0, [])

  /** Every channel in the map belongs to a call that starts this unit and has not returned. */
  ghost predicate Owned(s: State) {
    && (forall u :: u in s.runningUnits && s.runningUnits[u].Some? ==>
          s.runningUnits[u].value in s.calls && s.calls[s.runningUnits[u].value] == u)
    && (forall c :: c in s.calls ==> c < s.next)
  }

  /** A channel is closed iff its call returned, and nothing follows its closing. */
  ghost predicate Safe(s: State) {
    && (forall c :: c in s.calls ==> Closed(c) !in s.events)
    && (forall i :: 0 <= i < |s.events| ==> s.events[i].channel < s.next)
    && OnceClosed(s.events)
  }

  ghost predicate OnceClosed(events: seq<Event>) {
    forall i, j :: 0 <= i < j < |events| && events[i].Closed? ==> events[j].channel != events[i].channel
  }

  lemma StepKeepsSafe(s: State, step: Step)
    requires Owned(s) && Safe(s) && Can(s, step)
    ensures Owned(Do(s, step)) && Safe(Do(s, step))
  {
    match step
    case Begin(unit) =>
      assert Closed(s.next) !in s.events;
    case End(channel, unit, failed) =>
      assert Closed(channel) !in s.events;
    case Stop(unit) =>
    case Send(unit) =>
      assert Closed(s.runningUnits[unit].value) !in s.events;
  }

  lemma {:induction false} RunKeepsSafe(s: State, steps: seq<Step>)
    requires Owned(s) && Safe(s) && AllCan(s, steps)
    ensures Owned(Run(s, steps)) && Safe(Run(s, steps))
    decreases |steps|
  {
    hide Owned, Safe, Can, Do;
    if steps != [] {
      StepKeepsSafe(s, steps[0]);
      RunKeepsSafe(Do(s, steps[0]), steps[1..]);
    }
  }

  /**
   * Over every interleaving of the monitor with any number of calls, on any units: no channel is closed twice,
   * nothing is sent on a closed channel, and a send for a unit reaches a call that is starting this unit.
   */
  lemma ChannelsAreSafe(steps: seq<Step>, unit: string)
    requires AllCan(INITIAL, steps)
    ensures var s := Run(INITIAL, steps);
            && OnceClosed(s.events)
            && (Can(s, Send(unit)) ==>
                  var c := s.runningUnits[unit].value;
                  Closed(c) !in s.events && c in s.calls && s.calls[c] == unit)
  {
    RunKeepsSafe(INITIAL, steps);
  }

  /* ---- Which units are monitored ---- */

  /** The last call or stop that concerns the unit decides. */
  predicate Watched(steps: seq<Step>, unit: string, before: bool) {
    if steps == [] then before
    else
      var last, rest := steps[|steps| - 1], steps[..|steps| - 1];
      if last.Send? || last.unit != unit then Watched(rest, unit, before)
      else last.Begin? || (last.End? && !last.failed)
  }

  lemma {:induction false} WatchedDrop(steps: seq<Step>, unit: string, before: bool)
    requires steps != []
    ensures Watched(steps, unit, before) == Watched(steps[1..], unit, Watched(steps[..1], unit, before))
  {
    var n := |steps| - 1;
    if n == 0 {
      assert steps[..1] == steps && steps[1..] == [];
    } else {
      assert steps[..n][..1] == steps[..1] && steps[..n][1..] == steps[1..][..n - 1];
      assert steps[1..][n - 1] == steps[n];
      WatchedDrop(steps[..n], unit, before);
    }
  }

  lemma {:induction false} MonitoredUnits(s: State, steps: seq<Step>, unit: string)
    requires AllCan(s, steps)
    ensures unit in Run(s, steps).runningUnits <==> Watched(steps, unit, unit in s.runningUnits)
    decreases |steps|
  {
    if steps != [] {
      var t := Do(s, steps[0]);
      MonitoredUnits(t, steps[1..], unit);
      WatchedDrop(steps, unit, unit in s.runningUnits);
      assert steps[..1][..0] == [];
      assert Watched(steps[..1], unit, unit in s.runningUnits) == (unit in t.runningUnits);
    }
  }

  /** A call that returns with success after the unit was stopped puts it back under monitoring. */
  lemma StopDuringStartIsForgotten(unit: string)
    ensures var steps := [Begin(unit), Stop(unit), End(0, unit, false)];
            AllCan(INITIAL, steps) && unit in Run(INITIAL, steps).runningUnits
  {
    var steps := [Begin(unit), Stop(unit), End(0, unit, false)];
    var one := Do(INITIAL, Begin(unit));
    assert steps[1..] == [Stop(unit), End(0, unit, false)];
    assert steps[1..][1..] == [End(0, unit, false)] && steps[1..][1..][1..] == [];
    assert AllCan(Do(one, Stop(unit)), [End(0, unit, false)]);
    assert AllCan(one, steps[1..]);
    MonitoredUnits(INITIAL, steps, unit);
  }

  /* ---- The runner ---- */

  datatype UnitStatus = UnitStatus(unit: string, state: string)

  /** A change without a status: the unit is gone. */
  datatype Change = Change(unit: string, state: Option<string>)

  const INACTIVE := "inactive"

  function StatusOf(change: Change): UnitStatus {
    UnitStatus(change.unit, if change.state.Some? then change.state.value else INACTIVE)
  }

  /** The changes that go to starting calls. */
  function Sends(s: State, changes: seq<Change>): seq<Step> {
    if changes == [] then []
    else
      var last := changes[|changes| - 1];
      Sends(s, changes[..|changes| - 1]) + (if Can(s, Send(last.unit)) then [Send(last.unit)] else [])
  }

  /** The changes that are reported: of the monitored units without a starting call. */
  function Reports(s: State, changes: seq<Change>): seq<UnitStatus> {
    if changes == [] then []
    else
      var last := changes[|changes| - 1];
      Reports(s, changes[..|changes| - 1]) +
      (if last.unit in s.runningUnits && s.runningUnits[last.unit] == None then [StatusOf(last)] else [])
  }

  predicate IsStarting(units: map<string, Option<Channel>>, unit: string) {
    unit in units && units[unit].Some?
  }

  predicate IsSettled(units: map<string, Option<Channel>>, unit: string) {
    unit in units && units[unit].None?
  }

  function OfStarting(units: map<string, Option<Channel>>): Change -> bool {
    (c: Change) => IsStarting(units, c.unit)
  }

  function OfSettled(units: map<string, Option<Channel>>): Change -> bool {
    (c: Change) => IsSettled(units, c.unit)
  }

  /** One send for every change of a starting unit, over its channel, in the order of the changes. */
  ghost predicate SentAll(
      units: map<string, Option<Channel>>, changes: seq<Change>, before: seq<Event>, after: seq<Event>)
  {
    var starting := Filter(OfStarting(units), changes);
    && |after| == |before| + |starting| && after[..|before|] == before
    && forall k :: 0 <= k < |starting| ==>
         IsStarting(units, starting[k].unit) && after[|before| + k] == Sent(units[starting[k].unit].value)
  }

  /** One report for every change of a monitored unit that no call is starting; a unit that is gone is inactive. */
  ghost predicate ReportedAll(units: map<string, Option<Channel>>, changes: seq<Change>, reports: seq<UnitStatus>) {
    var settled := Filter(OfSettled(units), changes);
    && |reports| == |settled|
    && forall k :: 0 <= k < |settled| ==>
         && reports[k].unit == settled[k].unit
         && reports[k].state == match settled[k].state case Some(state) => state case None => "inactive"
  }

  lemma {:induction false} AllAreReported(s: State, changes: seq<Change>)
    ensures ReportedAll(s.runningUnits, changes, Reports(s, changes))
  {
    if changes != [] {
      AllAreReported(s, changes[..|changes| - 1]);
    }
  }

  lemma {:induction false} AllAreSent(s: State, changes: seq<Change>)
    requires AllCan(s, Sends(s, changes))
    ensures SentAll(s.runningUnits, changes, s.events, Run(s, Sends(s, changes)).events)
  {
    if changes == [] {
      assert Sends(s, changes) == [];
    } else {
      var n := |changes| - 1;
      SendsAreSteps(s, changes[..n]);
      AllAreSent(s, changes[..n]);
      ChangesNext(s, changes, n);
      assert changes[..n + 1] == changes;
      NextSend(s, Sends(s, changes[..n]), changes[n].unit);
      var sent, unit := Run(s, Sends(s, changes[..n])), changes[n].unit;
      hide Sends, AllCan;
      assert Run(s, Sends(s, changes)) == if Can(s, Send(unit)) then Do(sent, Send(unit)) else sent;
      hide Run;
    }
  }

  /** One more change of a batch: at most one more send, at most one more report. */
  lemma ChangesNext(s: State, changes: seq<Change>, i: nat)
    requires i < |changes|
    ensures Sends(s, changes[..i + 1]) ==
            Sends(s, changes[..i]) + (if Can(s, Send(changes[i].unit)) then [Send(changes[i].unit)] else [])
    ensures Reports(s, changes[..i + 1]) ==
            Reports(s, changes[..i]) +
            (if changes[i].unit in s.runningUnits && s.runningUnits[changes[i].unit] == None
             then [StatusOf(changes[i])] else [])
  {
    assert changes[..i + 1][..i] == changes[..i];
  }

  /** The sends of a batch can be made one after the other, and move nothing but the channels. */
  lemma {:induction false} SendsAreSteps(s: State, changes: seq<Change>)
    ensures AllCan(s, Sends(s, changes))
    ensures Run(s, Sends(s, changes)) == s.(events := Run(s, Sends(s, changes)).events)
  {
    if changes == [] {
      assert Sends(s, changes) == [];
    } else {
      var n := |changes| - 1;
      SendsAreSteps(s, changes[..n]);
      ChangesNext(s, changes, n);
      assert changes[..n + 1] == changes;
      NextSend(s, Sends(s, changes[..n]), changes[n].unit);
      hide Sends, Run, AllCan;
    }
  }

  lemma NextSend(s: State, sends: seq<Step>, unit: string)
    requires AllCan(s, sends) && Run(s, sends) == s.(events := Run(s, sends).events)
    ensures var more := sends + (if Can(s, Send(unit)) then [Send(unit)] else []);
            && AllCan(s, more)
            && Run(s, more) == (if Can(s, Send(unit)) then Do(Run(s, sends), Send(unit)) else Run(s, sends))
  {
    if Can(s, Send(unit)) {
      RunAppend(s, sends, Send(unit));
    } else {
      assert sends + [] == sends;
    }
  }

  lemma {:induction false} RunAppend(s: State, steps: seq<Step>, step: Step)
    requires AllCan(s, steps) && Can(Run(s, steps), step)
    ensures AllCan(s, steps + [step]) && Run(s, steps + [step]) == Do(Run(s, steps), step)
    decreases |steps|
  {
    if steps == [] {
      assert steps + [step] == [step] && [step][1..] == [];
    } else {
      assert (steps + [step])[1..] == steps[1..] + [step];
      RunAppend(Do(s, steps[0]), steps[1..], step);
    }
  }

  class Runner {
    var runningUnits: map<string, Option<Channel>>
    ghost var calls: map<Channel, string>
    var next: Channel
    ghost var events: seq<Event>

    ghost function Value(): State
      reads this
    {
      State(runningUnits, calls, next, events)
    }

    ghost predicate Valid()
      reads this
    {
      Owned(Value()) && Safe(Value())
    }

    constructor ()
      ensures Valid() && Value() == INITIAL
    {
      runningUnits, calls, next, events := map[], map[], 0, [];
    }

    method BeginStart(unitName: string) returns (unitStatusChannel: Channel)
      requires Valid()
      modifies this
      ensures Valid() && Value() == Do(old(Value()), Begin(unitName))
      ensures unitStatusChannel !in old(calls) && unitStatusChannel in calls && calls[unitStatusChannel] == unitName
    {
      StepKeepsSafe(Value(), Begin(unitName));
      unitStatusChannel := next;
      next := next + 1;
      calls := calls[unitStatusChannel := unitName];
      runningUnits := runningUnits[unitName := Some(unitStatusChannel)];
    }

    /** Runs when the starting call returns, on every path. */
    method EndStart(unitName: string, unitStatusChannel: Channel, failed: bool)
      requires Valid() && Can(Value(), End(unitStatusChannel, unitName, failed))
      modifies this
      ensures Valid() && Value() == Do(old(Value()), End(unitStatusChannel, unitName, failed))
    {
      StepKeepsSafe(Value(), End(unitStatusChannel, unitName, failed));
      runningUnits := runningUnits[unitName := None];
      events := events + [Closed(unitStatusChannel)];
      calls := calls - {unitStatusChannel};
      if failed {
        runningUnits := runningUnits - {unitName};
      }
      assert failed ==> runningUnits == old(runningUnits) - {unitName};
    }

    method StopInstance(unitName: string)
      requires Valid()
      modifies this
      ensures Valid() && Value() == Do(old(Value()), Stop(unitName))
    {
      StepKeepsSafe(Value(), Stop(unitName));
      runningUnits := runningUnits - {unitName};
    }

    /** Sends to the starting call of a unit: its channel must be open. */
    method SendTo(unit: string)
      requires Valid() && Can(Value(), Send(unit))
      modifies this`events
      ensures Valid() && Value() == Do(old(Value()), Send(unit))
    {
      StepKeepsSafe(Value(), Send(unit));
      assert Closed(runningUnits[unit].value) !in events;
      events := events + [Sent(runningUnits[unit].value)];
    }

    /**
     * One batch of changes, in any order: what concerns a starting unit goes to its call, what concerns another
     * monitored unit is reported, the rest is dropped.
     */
    method ProcessChanges(changes: seq<Change>) returns (instancesStatus: seq<UnitStatus>)
      requires Valid()
      modifies this`events
      ensures Valid() && AllCan(old(Value()), Sends(old(Value()), changes))
      ensures Value() == Run(old(Value()), Sends(old(Value()), changes))
      ensures instancesStatus == Reports(old(Value()), changes)
      ensures SentAll(runningUnits, changes, old(events), events)
      ensures ReportedAll(runningUnits, changes, instancesStatus)
    {
      instancesStatus := [];
      ghost var before := Value();
      assert changes[..|changes|] == changes;
      assert Sends(before, changes[..0]) == [] && Reports(before, changes[..0]) == [];
      assert AllCan(before, []) && Run(before, []) == before;
      SendsAreSteps(before, changes);
      AllAreSent(before, changes);
      AllAreReported(before, changes);
      hide Owned, Safe, Sends, Reports, Run, AllCan, Do, StatusOf, SentAll, ReportedAll;
      for i := 0 to |changes|
        invariant Valid() && instancesStatus == Reports(before, changes[..i])
        invariant AllCan(before, Sends(before, changes[..i]))
        invariant Value() == Run(before, Sends(before, changes[..i])) == before.(events := events)
      {
        ChangesNext(before, changes, i);
        NextSend(before, Sends(before, changes[..i]), changes[i].unit);
        SendsAreSteps(before, changes[..i + 1]);
        var change := changes[i];
        if change.unit !in runningUnits {
          continue;
        }
        var unitStatus := StatusOf(change);
        if runningUnits[change.unit].Some? {
          SendTo(change.unit);
        } else {
          instancesStatus := instancesStatus + [unitStatus];
        }
      }
    }
  }
}
