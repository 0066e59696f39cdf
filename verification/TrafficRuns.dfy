/** Runs of one traffic chain: packets, ticks and restarts in any order. */
module TrafficRuns {
  import opened Sequences
  import opened Traffic

  /**
   * One chain with its packet counter and its database record.  `lastRead` is the counter at the last read of the
   * present rule, `sum` is the reference: what the reads saw the counter grow since the last period reset, and
   * `restarts` counts the restarts since then.  `ticked`: a tick ran since the chain was created.
   */
  datatype Sys = Sys(
    skip: string, t: Data, rules: seq<Rule>, counter: nat, lastRead: nat, sum: int, ticked: bool,
    stored: Option<(Time, nat)>, restarts: nat)

  /** Restart(true) deletes the chain before it is created again, Restart(false) is a crash. */
  datatype Step = Packets(bytes: nat) | Poll(now: Time) | Restart(clean: bool)

  function Loaded(stored: Option<(Time, nat)>): (Time, nat) {
    if stored.Some? then stored.value else (ZERO_TIME, 0)
  }

  function Boot(skip: string, addresses: string, limit: nat, stored: Option<(Time, nat)>): Sys {
    var loaded := Loaded(stored);
    Sys(skip, Created(addresses, limit, loaded), FirstRules(skip, addresses), 0, 0, loaded.1, false, stored, 0)
  }

  /** A chain that drops counts no traffic, and a rule's counter stays within its width. */
  predicate Can(s: Sys, step: Step) {
    step.Packets? ==> !s.t.disabled && s.counter + step.bytes < MODULUS
  }

  /** The restart keeps what the database holds: a clean one overwrites it with 0 unless a tick ran before. */
  predicate Keeps(s: Sys, step: Step) {
    step == Restart(true) ==> s.ticked || s.t.initialValue == 0
  }

  function Growth(s: Sys): int {
    ReadValue(s.t, s.counter) - s.lastRead
  }

  predicate Replaced(seen: Data) {
    Exceeded(seen) || Recovered(seen)
  }

  function Polled(s: Sys, period: Period, now: Time): Sys {
    var same := IsSamePeriod(period, now, s.t.lastUpdate);
    var seen := Account(s.t, period, s.counter, now);
    var t := Tick(s.t, period, s.counter, now);
    Sys(s.skip, t, RulesAfter(seen, s.rules),
        if Replaced(seen) then 0 else s.counter,
        if Replaced(seen) then 0 else ReadValue(s.t, s.counter),
        if same then s.sum + Growth(s) else 0,
        true, Some((now, t.currentValue)), if same then s.restarts else 0)
  }

  function Restarted(s: Sys, clean: bool): Sys {
    var stored := if clean then Some((s.t.lastUpdate, s.t.currentValue)) else s.stored;
    Boot(s.skip, s.t.addresses, s.t.limit, stored).(sum := s.sum, restarts := s.restarts + 1)
  }

  function Do(s: Sys, step: Step, period: Period): Sys {
    match step
    case Packets(bytes) => s.(counter := s.counter + bytes)
    case Poll(now) => Polled(s, period, now)
    case Restart(clean) => Restarted(s, clean)
  }

  function Run(s: Sys, steps: seq<Step>, period: Period): Sys
    decreases |steps|
  {
    if steps == [] then s else Run(Do(s, steps[0], period), steps[1..], period)
  }

  predicate Keeping(s: Sys, steps: seq<Step>, period: Period)
    decreases |steps|
  {
    steps == [] || (Can(s, steps[0]) && Keeps(s, steps[0]) && Keeping(Do(s, steps[0], period), steps[1..], period))
  }

  /* ---- The invariant ---- */

  /** What the record holds accounts for every byte seen, and no unsigned difference is negative. */
  predicate Accounted(s: Sys) {
    && 0 <= s.sum && s.t.initialValue < MODULUS
    && s.t.subValue <= s.lastRead <= s.counter < MODULUS
    && Wrap(s.sum) == Wrap(s.t.initialValue + s.lastRead - s.t.subValue)
    && (s.t.disabled ==> s.ticked && s.counter == 0)
  }

  /** The present record and its copy in the database. */
  predicate Current(s: Sys) {
    if s.ticked then
      && s.t.currentValue == Wrap(s.sum)
      && s.stored == Some((s.t.lastUpdate, s.t.currentValue))
      && (s.t.disabled <==> s.t.limit != 0 && s.t.currentValue > s.t.limit)
    else
      && s.t == Created(s.t.addresses, s.t.limit, Loaded(s.stored))
      && s.lastRead == 0
  }

  /** Exactly one address rule, and it drops iff the chain is disabled. */
  predicate OneRule(s: Sys) {
    s.rules == SkipRules(s.skip) + [if s.t.disabled then Drop(s.t.addresses) else Count(s.t.addresses)]
  }

  predicate Inv(s: Sys) {
    Accounted(s) && Current(s) && OneRule(s)
  }

  lemma WrapShift(a: int, b: int, d: int)
    requires Wrap(a) == Wrap(b)
    ensures Wrap(a + d) == Wrap(b + d)
  {
    assert (a - b) % MODULUS == 0;
    var q := (a - b) / MODULUS;
    assert a + d == b + d + q * MODULUS;
  }

  lemma OtherRuleReplaced(skip: string, addresses: string)
    ensures StateSet(SkipRules(skip) + [Count(addresses)], addresses, false) == SkipRules(skip) + [Drop(addresses)]
    ensures StateSet(SkipRules(skip) + [Drop(addresses)], addresses, true) == SkipRules(skip) + [Count(addresses)]
  {
    LastFiltered(skip, Count(addresses));
    LastFiltered(skip, Drop(addresses));
  }

  lemma LastFiltered(skip: string, dropped: Rule)
    requires dropped != Skip
    ensures Filter(IsNot(dropped), SkipRules(skip) + [dropped]) == SkipRules(skip)
  {
    FilterConcat(IsNot(dropped), SkipRules(skip), [dropped]);
    FilterOne(IsNot(dropped), dropped);
    FilterAll(IsNot(dropped), SkipRules(skip));
  }

  /** What the read of a tick gives, before the limit is looked at. */
  lemma ReadAccounts(s: Sys, period: Period, now: Time)
    requires Accounted(s)
    ensures ReadValue(s.t, s.counter) >= (Account(s.t, period, s.counter, now)).subValue
    ensures Account(s.t, period, s.counter, now).currentValue == Wrap(Polled(s, period, now).sum)
    ensures IsSamePeriod(period, now, s.t.lastUpdate) ==>
              Account(s.t, period, s.counter, now).subValue == s.t.subValue <= s.lastRead
  {
    hide Tick, RulesAfter;
    if IsSamePeriod(period, now, s.t.lastUpdate) {
      WrapShift(s.sum, s.t.initialValue + s.lastRead - s.t.subValue, Growth(s));
    }
  }

  lemma PollKeepsAccount(s: Sys, period: Period, now: Time)
    requires Inv(s)
    ensures Accounted(Polled(s, period, now)) && Current(Polled(s, period, now))
  {
    ReadAccounts(s, period, now);
    hide RulesAfter, StateSet;
    var seen := Account(s.t, period, s.counter, now);
    if s.t.disabled {
      assert s.lastRead == 0 && s.t.subValue == 0;
    }
  }

  lemma PollKeepsRule(s: Sys, period: Period, now: Time)
    requires Inv(s)
    ensures OneRule(Polled(s, period, now))
  {
    OtherRuleReplaced(s.skip, s.t.addresses);
    hide StateSet;
  }

  lemma RestartKeeps(s: Sys, clean: bool)
    requires Inv(s) && Keeps(s, Restart(clean))
    ensures Inv(Restarted(s, clean))
  {
    var u := Restarted(s, clean);
    if s.ticked {
      assert u.t.initialValue == s.t.currentValue == Wrap(s.sum);
    } else {
      assert s.t.initialValue == Wrap(s.sum);
    }
  }

  lemma StepKeeps(s: Sys, step: Step, period: Period)
    requires Inv(s) && Can(s, step) && Keeps(s, step)
    ensures Inv(Do(s, step, period)) && Do(s, step, period).skip == s.skip
  {
    match step
    case Packets(bytes) =>
    case Poll(now) =>
      PollKeepsAccount(s, period, now);
      PollKeepsRule(s, period, now);
      hide Polled;
    case Restart(clean) =>
      RestartKeeps(s, clean);
      hide Restarted;
  }

  lemma {:induction false} RunKeeps(s: Sys, steps: seq<Step>, period: Period)
    requires Inv(s) && Keeping(s, steps, period)
    ensures Inv(Run(s, steps, period)) && Run(s, steps, period).skip == s.skip
    decreases |steps|
  {
    hide Inv, Can, Keeps, Do;
    if steps != [] {
      StepKeeps(s, steps[0], period);
      RunKeeps(Do(s, steps[0], period), steps[1..], period);
    }
  }

  lemma BootIsFine(skip: string, addresses: string, limit: nat, stored: Option<(Time, nat)>)
    requires Loaded(stored).1 < MODULUS
    ensures Inv(Boot(skip, addresses, limit, stored))
  {
  }

  /* ---- Conservation and enforcement over whole runs ---- */

  /**
   * After any run that ends in a tick the value reported and stored is what the reads saw the counter grow since the
   * last period reset (as an unsigned number), no subtraction went below zero, and the one address rule that a packet
   * meets drops iff the value exceeds a limit that is set; a packet of a skipped network meets none.
   */
  lemma TrafficIsConserved(
      skip: string, addresses: string, limit: nat, stored: Option<(Time, nat)>, steps: seq<Step>, now: Time,
      period: Period)
    requires Loaded(stored).1 < MODULUS
    requires Keeping(Boot(skip, addresses, limit, stored), steps, period)
    ensures var before := Run(Boot(skip, addresses, limit, stored), steps, period);
            var after := Do(before, Poll(now), period);
            && ReadValue(before.t, before.counter) >= Account(before.t, period, before.counter, now).subValue
            && after.t.currentValue == Wrap(after.sum)
            && (after.sum < MODULUS ==> after.t.currentValue == after.sum)
            && after.stored == Some((now, after.t.currentValue))
            && (after.t.disabled <==> after.t.limit != 0 && after.t.currentValue > after.t.limit)
            && var rule := if after.t.disabled then Drop(after.t.addresses) else Count(after.t.addresses);
               && after.rules == SkipRules(skip) + [rule]
               && Hits(after.rules, false) == [rule]
               && Hits(after.rules, true) == if skip != "" then [] else [rule]
  {
    BootIsFine(skip, addresses, limit, stored);
    RunKeeps(Boot(skip, addresses, limit, stored), steps, period);
    var before := Run(Boot(skip, addresses, limit, stored), steps, period);
    StepKeeps(before, Poll(now), period);
    ReadAccounts(before, period, now);
    var after := Do(before, Poll(now), period);
    FirstHits(skip, if after.t.disabled then Drop(after.t.addresses) else Count(after.t.addresses));
    hide Account, Tick, RulesAfter, Keeping, Run, ReadValue, IsSamePeriod, Hits;
  }

  /**
   * A clean restart keeps the accumulated value exactly when a tick ran since the chain was created or there was
   * nothing to lose: what is stored is the current value, which is 0 until the first tick.
   */
  lemma CleanRestartConserves(s: Sys, period: Period)
    requires Inv(s)
    ensures Inv(Do(s, Restart(true), period)) <==> Keeps(s, Restart(true))
    ensures Loaded(Do(s, Restart(true), period).stored).1 == Wrap(s.sum) <==> Keeps(s, Restart(true))
    ensures Inv(Do(s, Restart(false), period))
  {
    if Keeps(s, Restart(true)) {
      RestartKeeps(s, true);
    }
    RestartKeeps(s, false);
  }

  lemma CleanRestartLosesTraffic(skip: string, addresses: string, limit: nat, last: Time, value: nat, period: Period)
    requires 0 < value < MODULUS
    ensures var boot := Boot(skip, addresses, limit, Some((last, value)));
            && boot.sum == value
            && Run(boot, [Restart(true)], period).t.initialValue == 0
            && Run(boot, [Restart(true)], period).stored == Some((last, 0))
  {
    var boot := Boot(skip, addresses, limit, Some((last, value)));
    assert Run(boot, [Restart(true)], period) == Do(boot, Restart(true), period);
  }

  /* ---- The quota ---- */

  /** At most `burst` bytes come between two reads, and at most `most` restarts fall into one period. */
  predicate Moderate(s: Sys, step: Step, burst: nat, most: nat) {
    && (step.Poll? ==> Growth(s) <= burst)
    && (step.Restart? ==> s.restarts < most)
  }

  predicate AllModerate(s: Sys, steps: seq<Step>, period: Period, burst: nat, most: nat)
    decreases |steps|
  {
    steps == [] ||
    (Moderate(s, steps[0], burst, most) && AllModerate(Do(s, steps[0], period), steps[1..], period, burst, most))
  }

  /** How much more than the limit may have passed. */
  function Overrun(s: Sys, burst: nat): nat {
    if s.t.disabled then (s.restarts + 1) * burst else if s.ticked then 0 else s.restarts * burst
  }

  predicate Within(s: Sys, limit: nat, burst: nat, most: nat) {
    s.t.limit == limit && s.restarts <= most && s.sum <= limit + Overrun(s, burst)
  }

  lemma Products(a: nat, b: nat, burst: nat)
    requires a <= b
    ensures a * burst <= b * burst && (a + 1) * burst == a * burst + burst
  {
  }

  /** A poll in the same period adds at most one burst, and only while the chain is enabled. */
  lemma PollAddsOneBurst(s: Sys, period: Period, now: Time, limit: nat, burst: nat, most: nat)
    requires Accounted(s) && Growth(s) <= burst && Within(s, limit, burst, most)
    ensures var u := Polled(s, period, now);
            u.restarts <= most && u.sum <= limit + (u.restarts + 1) * burst
  {
    Products(s.restarts, most, burst);
    hide Account, Tick, RulesAfter, Wrap;
    assert s.t.disabled ==> Growth(s) == 0;
    assert 0 <= s.restarts * burst;
  }

  lemma PollStaysWithin(s: Sys, period: Period, now: Time, limit: nat, burst: nat, most: nat)
    requires Inv(s) && Growth(s) <= burst && Inv(Polled(s, period, now))
    requires 0 < limit && limit + (most + 1) * burst < MODULUS
    requires Within(s, limit, burst, most)
    ensures Within(Polled(s, period, now), limit, burst, most)
  {
    var u := Polled(s, period, now);
    PollAddsOneBurst(s, period, now, limit, burst, most);
    Products(u.restarts + 1, most + 1, burst);
    assert u.t.limit == limit && u.ticked;
    assert Wrap(u.sum) == u.sum;
    hide Account, Tick, RulesAfter, OneRule, Polled, Wrap, Accounted;
  }

  lemma StepStaysWithin(s: Sys, step: Step, period: Period, limit: nat, burst: nat, most: nat)
    requires Inv(s) && Can(s, step) && Keeps(s, step) && Moderate(s, step, burst, most)
    requires 0 < limit && limit + (most + 1) * burst < MODULUS
    requires Within(s, limit, burst, most)
    ensures Within(Do(s, step, period), limit, burst, most)
  {
    StepKeeps(s, step, period);
    Products(s.restarts, most, burst);
    match step
    case Packets(bytes) =>
    case Poll(now) =>
      hide Inv, Within;
      PollStaysWithin(s, period, now, limit, burst, most);
    case Restart(clean) =>
  }

  lemma {:induction false} RunStaysWithin(
      s: Sys, steps: seq<Step>, period: Period, limit: nat, burst: nat, most: nat)
    requires Inv(s) && Keeping(s, steps, period) && AllModerate(s, steps, period, burst, most)
    requires 0 < limit && limit + (most + 1) * burst < MODULUS
    requires Within(s, limit, burst, most)
    ensures Within(Run(s, steps, period), limit, burst, most)
    decreases |steps|
  {
    hide Inv, Can, Keeps, Do, Moderate, Within;
    if steps != [] {
      StepKeeps(s, steps[0], period);
      StepStaysWithin(s, steps[0], period, limit, burst, most);
      RunStaysWithin(Do(s, steps[0], period), steps[1..], period, limit, burst, most);
    }
  }

  /**
   * The quota: when the loaded value is within the limit and at most `burst` bytes pass between two reads, a period
   * with k restarts so far never shows more than the limit plus k + 1 bursts.
   */
  lemma QuotaHolds(
      skip: string, addresses: string, limit: nat, stored: Option<(Time, nat)>, steps: seq<Step>, period: Period,
      burst: nat, most: nat)
    requires 0 < limit && limit + (most + 1) * burst < MODULUS
    requires Loaded(stored).1 <= limit
    requires Keeping(Boot(skip, addresses, limit, stored), steps, period)
    requires AllModerate(Boot(skip, addresses, limit, stored), steps, period, burst, most)
    ensures var s := Run(Boot(skip, addresses, limit, stored), steps, period);
            s.t.currentValue <= limit + (s.restarts + 1) * burst
  {
    var boot := Boot(skip, addresses, limit, stored);
    assert 0 <= (most + 1) * burst;
    BootIsFine(skip, addresses, limit, stored);
    RunKeeps(boot, steps, period);
    assert Within(boot, limit, burst, most);
    RunStaysWithin(boot, steps, period, limit, burst, most);
    var s := Run(boot, steps, period);
    Products(s.restarts, most, burst);
    assert (most + 1) * burst == most * burst + burst;
    hide Run, Keeping, AllModerate, Boot;
  }

  /** One burst before the first read of every incarnation, with k crashes in between. */
  function Spending(burst: nat, k: nat, now: Time): seq<Step> {
    [Packets(burst), Poll(now)] + (if k == 0 then [] else [Restart(false)] + Spending(burst, k - 1, now))
  }

  /** These steps can be taken and lead to this value after so many restarts. */
  ghost predicate Reaches(
      s: Sys, steps: seq<Step>, period: Period, burst: nat, most: nat, restarts: nat, value: nat)
  {
    && Keeping(s, steps, period) && AllModerate(s, steps, period, burst, most)
    && Run(s, steps, period).restarts == restarts && Run(s, steps, period).t.currentValue == value
  }

  lemma OneStepMore(
      s: Sys, step: Step, rest: seq<Step>, period: Period, burst: nat, most: nat, restarts: nat, value: nat)
    requires Can(s, step) && Keeps(s, step) && Moderate(s, step, burst, most)
    requires Reaches(Do(s, step, period), rest, period, burst, most, restarts, value)
    ensures Reaches(s, [step] + rest, period, burst, most, restarts, value)
  {
    assert ([step] + rest)[1..] == rest;
    hide Can, Keeps, Moderate, Do;
  }

  /** A freshly created chain that spends one burst before its first tick. */
  lemma SpendOnce(
      boot: Sys, skip: string, addresses: string, limit: nat, value: nat, now: Time, period: Period, burst: nat)
    returns (one: Sys, two: Sys)
    requires boot == Boot(skip, addresses, limit, Some((now, value))).(restarts := boot.restarts)
    requires period != Other && 0 < limit <= value && 0 < burst && value + burst < MODULUS
    ensures Can(boot, Packets(burst)) && one == Do(boot, Packets(burst), period) && Growth(one) == burst
    ensures two == Do(one, Poll(now), period) && two.t.currentValue == value + burst && two.restarts == boot.restarts
    ensures Do(two, Restart(false), period) ==
            Boot(skip, addresses, limit, Some((now, value + burst))).(restarts := boot.restarts + 1)
  {
    hide RulesAfter, FirstRules;
    one := Do(boot, Packets(burst), period);
    two := Do(one, Poll(now), period);
  }

  /** The bound is reached: no smaller one holds for any number of restarts. */
  lemma {:induction false} QuotaIsReached(
      skip: string, addresses: string, limit: nat, value: nat, now: Time, restarts: nat, k: nat, period: Period,
      burst: nat)
    requires period != Other && 0 < limit <= value && 0 < burst && value + (k + 1) * burst < MODULUS
    ensures var boot := Boot(skip, addresses, limit, Some((now, value))).(restarts := restarts);
            Reaches(boot, Spending(burst, k, now), period, burst, restarts + k, restarts + k, value + (k + 1) * burst)
    decreases k
  {
    var boot := Boot(skip, addresses, limit, Some((now, value))).(restarts := restarts);
    var total := value + (k + 1) * burst;
    OneMoreBurst(k, burst);
    var one, two := SpendOnce(boot, skip, addresses, limit, value, now, period, burst);
    if k == 0 {
      NoStepMore(two, period, burst, restarts, total);
      hide Reaches, Do, Boot, Growth, Can;
      SpendSteps(boot, one, two, [], now, period, burst, restarts, restarts, total);
    } else {
      hide Reaches, Do, Boot, Growth;
      OneMoreBurst(k - 1, burst);
      var rest := Spending(burst, k - 1, now);
      QuotaIsReached(skip, addresses, limit, value + burst, now, restarts + 1, k - 1, period, burst);
      OneStepMore(two, Restart(false), rest, period, burst, restarts + k, restarts + k, total);
      SpendSteps(boot, one, two, [Restart(false)] + rest, now, period, burst, restarts + k, restarts + k, total);
    }
  }

  lemma OneMoreBurst(k: nat, burst: nat)
    ensures (k + 1) * burst == k * burst + burst && 0 <= k * burst
  {
  }

  lemma NoStepMore(s: Sys, period: Period, burst: nat, most: nat, value: nat)
    requires s.t.currentValue == value
    ensures Reaches(s, [], period, burst, most, s.restarts, value)
  {
  }

  lemma SpendSteps(
      boot: Sys, one: Sys, two: Sys, rest: seq<Step>, now: Time, period: Period, burst: nat, most: nat, restarts: nat,
      value: nat)
    requires Can(boot, Packets(burst)) && one == Do(boot, Packets(burst), period) && Growth(one) == burst
    requires two == Do(one, Poll(now), period) && Reaches(two, rest, period, burst, most, restarts, value)
    ensures Reaches(boot, [Packets(burst), Poll(now)] + rest, period, burst, most, restarts, value)
  {
    hide Reaches, Do, Growth;
    OneStepMore(one, Poll(now), rest, period, burst, most, restarts, value);
    OneStepMore(boot, Packets(burst), [Poll(now)] + rest, period, burst, most, restarts, value);
    assert [Packets(burst)] + ([Poll(now)] + rest) == [Packets(burst), Poll(now)] + rest;
  }
}
