/** Traffic accounting with quotas: a packet filter chain per direction and instance, read on every tick. */
module Traffic {
  import opened Sequences

  /** Values are unsigned 64-bit integers: sums and differences wrap around. */
  const MODULUS := 0x1_0000_0000_0000_0000

  function Wrap(x: int): (r: nat)
    ensures r < 0x1_0000_0000_0000_0000
    ensures 0 <= x < 0x1_0000_0000_0000_0000 ==> r == x
  {
    x % MODULUS
  }

  datatype Time = Time(year: int, month: int, day: int, hour: int, minute: int)

  /** The time of a record that was never updated. */
  const ZERO_TIME := Time(1, 1, 1, 0, 0)

  datatype Period = Minute | Hour | Day | Month | Year | Other

  predicate IsSamePeriod(period: Period, a: Time, b: Time) {
    match period
    case Minute => a.year == b.year && a.month == b.month && a.day == b.day && a.hour == b.hour && a.minute == b.minute
    case Hour => a.year == b.year && a.month == b.month && a.day == b.day && a.hour == b.hour
    case Day => a.year == b.year && a.month == b.month && a.day == b.day
    case Month => a.year == b.year && a.month == b.month
    case Year => a.year == b.year
    case Other => false
  }

  /** The rules of a chain: one skips local networks, the address rule counts or drops. */
  datatype Rule = Skip | Count(addresses: string) | Drop(addresses: string)

  datatype Data = Data(
    disabled: bool, addresses: string, currentValue: nat, initialValue: nat, subValue: nat, limit: nat,
    lastUpdate: Time)

  /* ---- What one tick does ---- */

  function Reset(t: Data, disable: bool): Data {
    t.(disabled := disable, initialValue := t.currentValue, subValue := 0)
  }

  function Exceeded(t: Data): bool {
    t.limit != 0 && t.currentValue > t.limit && !t.disabled
  }

  function Recovered(t: Data): bool {
    t.limit != 0 && t.currentValue < t.limit && t.disabled
  }

  function CheckLimit(t: Data): Data {
    var u := if Exceeded(t) then Reset(t, true) else t;
    if Recovered(u) then Reset(u, false) else u
  }

  /** The counter as the tick sees it: a disabled chain is not read. */
  function ReadValue(t: Data, counter: nat): nat {
    if t.disabled then 0 else counter
  }

  function Account(t: Data, period: Period, counter: nat, now: Time): Data {
    var value := ReadValue(t, counter);
    var u := if IsSamePeriod(period, now, t.lastUpdate) then t else t.(initialValue := 0, subValue := value);
    u.(currentValue := Wrap(u.initialValue + value - u.subValue), lastUpdate := now)
  }

  function Tick(t: Data, period: Period, counter: nat, now: Time): Data {
    CheckLimit(Account(t, period, counter, now))
  }

  function IsNot(rule: Rule): Rule -> bool {
    (r: Rule) => r != rule
  }

  /** The chain after its state is set: all rules of the old kind go, one of the new kind is appended. */
  function StateSet(rules: seq<Rule>, addresses: string, enable: bool): seq<Rule> {
    if enable then Filter(IsNot(Drop(addresses)), rules) + [Count(addresses)]
    else Filter(IsNot(Count(addresses)), rules) + [Drop(addresses)]
  }

  function RulesAfter(t: Data, rules: seq<Rule>): seq<Rule> {
    var middle := if Exceeded(t) then StateSet(rules, t.addresses, false) else rules;
    var u := if Exceeded(t) then Reset(t, true) else t;
    if Recovered(u) then StateSet(middle, t.addresses, true) else middle
  }

  /* ---- A tick over all chains, when those in `remaining` are still to be read ---- */

  ghost function AllTicked(
      states: map<string, Data>, remaining: set<string>, period: Period, counters: map<string, nat>, now: Time)
    : map<string, Data>
    requires states.Keys <= counters.Keys
  {
    map c | c in states :: if c in remaining then states[c] else Tick(states[c], period, counters[c], now)
  }

  ghost function AllRules(
      states: map<string, Data>, rules: map<string, seq<Rule>>, remaining: set<string>, period: Period,
      counters: map<string, nat>, now: Time): map<string, seq<Rule>>
    requires states.Keys <= counters.Keys
  {
    map c | c in rules ::
      if c in states && c !in remaining then RulesAfter(Account(states[c], period, counters[c], now), rules[c])
      else rules[c]
  }

  ghost predicate AllStored(
      states: map<string, Data>, remaining: set<string>, stored: map<string, (Time, nat)>, period: Period,
      counters: map<string, nat>, now: Time)
    requires states.Keys <= counters.Keys
  {
    forall c :: c in states && c !in remaining ==>
      c in stored && stored[c] == (now, Tick(states[c], period, counters[c], now).currentValue)
  }

  lemma TickNext(
      states: map<string, Data>, rules: map<string, seq<Rule>>, remaining: set<string>, chain: string,
      stored: map<string, (Time, nat)>, period: Period, counters: map<string, nat>, now: Time)
    requires chain in remaining && remaining <= states.Keys && states.Keys <= counters.Keys && chain in rules
    ensures AllTicked(states, remaining, period, counters, now)[chain] == states[chain]
    ensures AllRules(states, rules, remaining, period, counters, now)[chain] == rules[chain]
    ensures AllTicked(states, remaining - {chain}, period, counters, now) ==
            AllTicked(states, remaining, period, counters, now)
              [chain := Tick(states[chain], period, counters[chain], now)]
    ensures AllRules(states, rules, remaining - {chain}, period, counters, now) ==
            AllRules(states, rules, remaining, period, counters, now)
              [chain := RulesAfter(Account(states[chain], period, counters[chain], now), rules[chain])]
    ensures AllStored(states, remaining, stored, period, counters, now) ==>
              AllStored(states, remaining - {chain},
                        stored[chain := (now, Tick(states[chain], period, counters[chain], now).currentValue)],
                        period, counters, now)
  {
    hide Tick, Account, RulesAfter;
    TickNextState(states, remaining, chain, period, counters, now);
    TickNextRules(states, rules, remaining, chain, period, counters, now);
    hide AllTicked, AllRules;
  }

  lemma TickNextState(
      states: map<string, Data>, remaining: set<string>, chain: string, period: Period, counters: map<string, nat>,
      now: Time)
    requires chain in remaining && remaining <= states.Keys && states.Keys <= counters.Keys
    ensures AllTicked(states, remaining, period, counters, now)[chain] == states[chain]
    ensures AllTicked(states, remaining - {chain}, period, counters, now) ==
            AllTicked(states, remaining, period, counters, now)
              [chain := Tick(states[chain], period, counters[chain], now)]
  {
    hide Tick;
  }

  lemma TickNextRules(
      states: map<string, Data>, rules: map<string, seq<Rule>>, remaining: set<string>, chain: string,
      period: Period, counters: map<string, nat>, now: Time)
    requires chain in remaining && remaining <= states.Keys && states.Keys <= counters.Keys && chain in rules
    ensures AllRules(states, rules, remaining, period, counters, now)[chain] == rules[chain]
    ensures AllRules(states, rules, remaining - {chain}, period, counters, now) ==
            AllRules(states, rules, remaining, period, counters, now)
              [chain := RulesAfter(Account(states[chain], period, counters[chain], now), rules[chain])]
  {
    hide Account, RulesAfter;
  }

  /* ---- The monitor ---- */

  class TrafficData {
    var disabled: bool
    var addresses: string
    var currentValue: nat
    var initialValue: nat
    var subValue: nat
    var limit: nat
    var lastUpdate: Time

    ghost function State(): Data
      reads this
    {
      Data(disabled, addresses, currentValue, initialValue, subValue, limit, lastUpdate)
    }

    constructor (addresses: string, limit: nat, lastUpdate: Time, initialValue: nat)
      ensures State() == Data(false, addresses, 0, initialValue, 0, limit, lastUpdate)
    {
      this.addresses, this.limit, this.lastUpdate, this.initialValue := addresses, limit, lastUpdate, initialValue;
      disabled, currentValue, subValue := false, 0, 0;
    }

    method ResetTrafficData(disable: bool)
      modifies this
      ensures State() == Reset(old(State()), disable)
    {
      disabled := disable;
      initialValue := currentValue;
      subValue := 0;
    }
  }

  class TrafficMonitor {
    const trafficPeriod: Period
    /** The networks that are not counted; none if empty. */
    const skipAddresses: string
    var trafficMap: map<string, TrafficData>
    /** The rules of every chain in the packet filter. */
    var chains: map<string, seq<Rule>>
    /** The traffic table of the database. */
    var stored: map<string, (Time, nat)>

    /** Every monitored chain exists and has a record of its own. */
    ghost predicate Valid()
      reads this
    {
      && trafficMap.Keys <= chains.Keys
      && forall a, b :: a in trafficMap && b in trafficMap && a != b ==> trafficMap[a] != trafficMap[b]
    }

    constructor (period: Period, skipAddresses: string, stored: map<string, (Time, nat)>)
      ensures Valid() && trafficMap == map[] && chains == map[] && this.stored == stored && trafficPeriod == period
      ensures this.skipAddresses == skipAddresses
    {
      trafficPeriod := period;
      this.skipAddresses := skipAddresses;
      this.stored := stored;
      trafficMap, chains := map[], map[];
    }

    /** Deletes the first such rule; `false`: the rule does not exist. */
    method DeleteRule(chain: string, rule: Rule) returns (ok: bool)
      requires chain in chains
      modifies this`chains
      ensures ok <==> rule in old(chains)[chain]
      ensures chains == if ok then old(chains)[chain := RemoveFirst(old(chains)[chain], rule)] else old(chains)
    {
      for i := 0 to |chains[chain]|
        invariant chains == old(chains) && rule !in chains[chain][..i]
      {
        if chains[chain][i] == rule {
          RemoveFirstIndex(chains[chain], i);
          chains := chains[chain := RemoveAt(chains[chain], i)];
          return true;
        }
      }
      assert chains[chain][..|chains[chain]|] == chains[chain];
      return false;
    }

    /** Deletes until the rule does not exist any more: once per occurrence. */
    method DeleteAllRules(chain: string, rule: Rule) returns (ghost deletions: nat)
      requires chain in chains
      modifies this`chains
      ensures chains == old(chains)[chain := Filter(IsNot(rule), old(chains)[chain])]
      ensures deletions == multiset(old(chains)[chain])[rule]
    {
      ghost var before := chains;
      deletions := 0;
      hide Filter, RemoveFirst, PartDeleted;
      NoneDeleted(chains[chain], rule);
      while true
        invariant chain in chains && chains == before[chain := chains[chain]]
        invariant PartDeleted(before[chain], chains[chain], rule, deletions)
        decreases |chains[chain]|
      {
        ghost var rules := chains[chain];
        var ok := DeleteRule(chain, rule);
        if !ok {
          NoneLeft(before[chain], rules, rule, deletions);
          return;
        }
        OneDeleted(before[chain], rules, rule, deletions);
        deletions := deletions + 1;
      }
    }

    method SetChainState(chain: string, addresses: string, enable: bool)
      requires chain in chains
      modifies this`chains
      ensures chains == old(chains)[chain := StateSet(old(chains)[chain], addresses, enable)]
    {
      if enable {
        ghost var deletions := DeleteAllRules(chain, Drop(addresses));
        chains := chains[chain := chains[chain] + [Count(addresses)]];
      } else {
        ghost var deletions := DeleteAllRules(chain, Count(addresses));
        chains := chains[chain := chains[chain] + [Drop(addresses)]];
      }
    }

    method CheckTrafficLimit(traffic: TrafficData, chain: string)
      requires chain in chains
      modifies this`chains, traffic
      ensures traffic.State() == CheckLimit(old(traffic.State()))
      ensures chains == old(chains)[chain := RulesAfter(old(traffic.State()), old(chains)[chain])]
    {
      if traffic.limit != 0 {
        if traffic.currentValue > traffic.limit && !traffic.disabled {
          SetChainState(chain, traffic.addresses, false);
          traffic.ResetTrafficData(true);
        }
        if traffic.currentValue < traffic.limit && traffic.disabled {
          SetChainState(chain, traffic.addresses, true);
          traffic.ResetTrafficData(false);
        }
      }
    }

    /** One chain of a tick. */
    method ProcessChain(chain: string, traffic: TrafficData, counter: nat, now: Time)
      requires chain in chains
      modifies this`chains, this`stored, traffic
      ensures traffic.State() == Tick(old(traffic.State()), trafficPeriod, counter, now)
      ensures chains == old(chains)[chain :=
                RulesAfter(Account(old(traffic.State()), trafficPeriod, counter, now), old(chains)[chain])]
      ensures stored == old(stored)[chain := (now, traffic.currentValue)]
    {
      var value := 0;
      if !traffic.disabled {
        value := counter;
      }
      if !IsSamePeriod(trafficPeriod, now, traffic.lastUpdate) {
        traffic.initialValue := 0;
        traffic.subValue := value;
      }
      traffic.currentValue := Wrap(traffic.initialValue + value - traffic.subValue);
      traffic.lastUpdate := now;
      assert traffic.State() == Account(old(traffic.State()), trafficPeriod, counter, now);
      hide Account, RulesAfter;
      CheckTrafficLimit(traffic, chain);
      stored := stored[chain := (now, traffic.currentValue)];
    }

    ghost function States(): map<string, Data>
      reads this`trafficMap, trafficMap.Values
    {
      map c | c in trafficMap :: trafficMap[c].State()
    }

    /** One monitored chain of a tick: no other record moves. */
    method ProcessMonitored(chain: string, counter: nat, now: Time)
      requires Valid() && chain in trafficMap
      modifies this`chains, this`stored, trafficMap[chain]
      ensures Valid()
      ensures States() == old(States())[chain := Tick(old(States())[chain], trafficPeriod, counter, now)]
      ensures chains == old(chains)[chain :=
                RulesAfter(Account(old(States())[chain], trafficPeriod, counter, now), old(chains)[chain])]
      ensures stored == old(stored)[chain := (now, States()[chain].currentValue)]
    {
      hide Tick, Account, RulesAfter;
      ProcessChain(chain, trafficMap[chain], counter, now);
    }

    /** A tick: every chain once, in any order, each with its own counter. */
    method ProcessTrafficMonitor(counters: map<string, nat>, now: Time)
      requires Valid() && trafficMap.Keys <= counters.Keys
      modifies this`chains, this`stored, trafficMap.Values
      ensures Valid()
      ensures States() == AllTicked(old(States()), {}, trafficPeriod, counters, now)
      ensures chains == AllRules(old(States()), old(chains), {}, trafficPeriod, counters, now)
      ensures AllStored(old(States()), {}, stored, trafficPeriod, counters, now)
    {
      ghost var states, rules := States(), chains;
      var remaining := trafficMap.Keys;
      while remaining != {}
        invariant remaining <= trafficMap.Keys && Valid()
        invariant States() == AllTicked(states, remaining, trafficPeriod, counters, now)
        invariant chains == AllRules(states, rules, remaining, trafficPeriod, counters, now)
        invariant AllStored(states, remaining, stored, trafficPeriod, counters, now)
        decreases remaining
      {
        var chain :| chain in remaining;
        assert States()[chain] == trafficMap[chain].State();
        TickNext(states, rules, remaining, chain, stored, trafficPeriod, counters, now);
        hide Tick, Account, RulesAfter, AllTicked, AllRules, AllStored;
        ProcessMonitored(chain, counters[chain], now);
        remaining := remaining - {chain};
      }
    }

    /**
     * `false`: the chain exists already, or its record cannot be read; a missing record is no error.  In the second
     * case the chain and its rules stay, but are not monitored.
     */
    method CreateTrafficChain(chain: string, addresses: string, limit: nat, readable: bool) returns (ok: bool)
      requires Valid()
      modifies this`chains, this`trafficMap
      ensures Valid() && (ok <==> chain !in old(chains) && readable)
      ensures chain in old(chains) ==> chains == old(chains)
      ensures chain !in old(chains) ==> chains == old(chains)[chain := FirstRules(skipAddresses, addresses)]
      ensures chain !in old(chains) ==>
                && Hits(chains[chain], false) == [Count(addresses)]
                && Hits(chains[chain], true) == if skipAddresses != "" then [] else [Count(addresses)]
      ensures !ok ==> trafficMap == old(trafficMap)
      ensures ok ==>
                && trafficMap.Keys == old(trafficMap.Keys) + {chain}
                && (forall c :: c in old(trafficMap) ==> trafficMap[c] == old(trafficMap)[c])
                && trafficMap[chain].State() ==
                   Created(addresses, limit, if chain in stored then stored[chain] else (ZERO_TIME, 0))
    {
      if chain in chains {
        return false;
      }
      chains := chains[chain := []];
      if skipAddresses != "" {
        chains := chains[chain := chains[chain] + [Skip]];
      }
      chains := chains[chain := chains[chain] + [Count(addresses)]];
      assert [] + [Skip] == [Skip] && [] + [Count(addresses)] == [Count(addresses)];
      assert chains[chain] == FirstRules(skipAddresses, addresses);
      FirstHits(skipAddresses, Count(addresses));
      if !readable {
        return false;
      }
      var lastUpdate, initialValue := ZERO_TIME, 0;
      if chain in stored {
        lastUpdate, initialValue := stored[chain].0, stored[chain].1;
      }
      var traffic := new TrafficData(addresses, limit, lastUpdate, initialValue);
      trafficMap := trafficMap[chain := traffic];
      return true;
    }

    /** What the database has at the end is what the record held, whether or not a tick ever ran. */
    method DeleteTrafficChain(chain: string)
      requires Valid()
      modifies this
      ensures Valid() && chains == old(chains) - {chain} && trafficMap == old(trafficMap) - {chain}
      ensures stored == if chain in old(trafficMap)
                        then old(stored)[chain :=
                          (old(trafficMap[chain].lastUpdate), old(trafficMap[chain].currentValue))]
                        else old(stored)
    {
      if chain in trafficMap {
        stored := stored[chain := (trafficMap[chain].lastUpdate, trafficMap[chain].currentValue)];
      }
      trafficMap := trafficMap - {chain};
      chains := chains - {chain};
    }
  }

  function SkipRules(skipAddresses: string): seq<Rule> {
    if skipAddresses != "" then [Skip] else []
  }

  function FirstRules(skipAddresses: string, addresses: string): seq<Rule> {
    SkipRules(skipAddresses) + [Count(addresses)]
  }

  /** The address rules that a packet of the chain meets; one of a skipped network returns at the skip rule. */
  function Hits(rules: seq<Rule>, skipped: bool): seq<Rule> {
    if rules == [] then []
    else match rules[0]
      case Skip => if skipped then [] else Hits(rules[1..], skipped)
      case Count(_) => [rules[0]] + Hits(rules[1..], skipped)
      case Drop(_) => [rules[0]]
  }

  lemma FirstHits(skipAddresses: string, rule: Rule)
    requires rule != Skip
    ensures Hits(SkipRules(skipAddresses) + [rule], false) == [rule]
    ensures Hits(SkipRules(skipAddresses) + [rule], true) == if skipAddresses != "" then [] else [rule]
  {
    assert [rule][1..] == [] && [Skip, rule][1..] == [rule];
    assert Hits([rule], false) == Hits([rule], true) == [rule];
    assert SkipRules(skipAddresses) + [rule] == if skipAddresses != "" then [Skip, rule] else [rule];
  }

  function Created(addresses: string, limit: nat, record: (Time, nat)): Data {
    Data(false, addresses, 0, record.1, 0, limit, record.0)
  }

  lemma {:induction false} RemoveFirstFiltered(rules: seq<Rule>, rule: Rule)
    requires rule in rules
    ensures Filter(IsNot(rule), RemoveFirst(rules, rule)) == Filter(IsNot(rule), rules)
    ensures |RemoveFirst(rules, rule)| == |rules| - 1
  {
    FilterConcat(IsNot(rule), [rules[0]], rules[1..]);
    assert rules == [rules[0]] + rules[1..];
    assert [rules[0]][..0] == [];
    if rules[0] != rule {
      RemoveFirstFiltered(rules[1..], rule);
      FilterConcat(IsNot(rule), [rules[0]], RemoveFirst(rules[1..], rule));
    }
  }

  /** So many occurrences of the rule are deleted, and nothing else. */
  ghost predicate PartDeleted(before: seq<Rule>, rules: seq<Rule>, rule: Rule, deletions: nat) {
    && deletions + multiset(rules)[rule] == multiset(before)[rule]
    && Filter(IsNot(rule), rules) == Filter(IsNot(rule), before)
  }

  lemma NoneDeleted(rules: seq<Rule>, rule: Rule)
    ensures PartDeleted(rules, rules, rule, 0)
  {
  }

  lemma OneDeleted(before: seq<Rule>, rules: seq<Rule>, rule: Rule, deletions: nat)
    requires rule in rules && PartDeleted(before, rules, rule, deletions)
    ensures PartDeleted(before, RemoveFirst(rules, rule), rule, deletions + 1)
    ensures |RemoveFirst(rules, rule)| == |rules| - 1
  {
    RemoveFirstFiltered(rules, rule);
    RemoveFirstMultiset(rules, rule);
    assert rule in multiset(rules);
  }

  lemma NoneLeft(before: seq<Rule>, rules: seq<Rule>, rule: Rule, deletions: nat)
    requires rule !in rules && PartDeleted(before, rules, rule, deletions)
    ensures rules == Filter(IsNot(rule), before) && deletions == multiset(before)[rule]
  {
    FilterAll(IsNot(rule), rules);
    assert rule !in multiset(rules);
  }

  /* ---- Which period it is ---- */

  datatype Field = MinuteField | HourField | DayField | MonthField | YearField

  function Get(t: Time, field: Field): int {
    match field
    case MinuteField => t.minute
    case HourField => t.hour
    case DayField => t.day
    case MonthField => t.month
    case YearField => t.year
  }

  function With(t: Time, field: Field, value: int): Time {
    match field
    case MinuteField => t.(minute := value)
    case HourField => t.(hour := value)
    case DayField => t.(day := value)
    case MonthField => t.(month := value)
    case YearField => t.(year := value)
  }

  /** Changing this field alone does not leave this period. */
  predicate Within(field: Field, period: Period) {
    match period
    case Minute => false
    case Hour => field == MinuteField
    case Day => field == MinuteField || field == HourField
    case Month => field != YearField && field != MonthField
    case Year => field != YearField
    case Other => false
  }

  /** A single changed field leaves the period exactly if the field is not finer than it. */
  lemma OneFieldDecides(period: Period, t: Time, field: Field, value: int)
    requires period != Other && value != Get(t, field)
    ensures IsSamePeriod(period, With(t, field, value), t) <==> Within(field, period)
  {
  }

  /** The known periods refine each other, the finest first; an unknown one is never the same. */
  lemma PeriodsRefine(a: Time, b: Time)
    ensures IsSamePeriod(Minute, a, b) ==> IsSamePeriod(Hour, a, b)
    ensures IsSamePeriod(Hour, a, b) ==> IsSamePeriod(Day, a, b)
    ensures IsSamePeriod(Day, a, b) ==> IsSamePeriod(Month, a, b)
    ensures IsSamePeriod(Month, a, b) ==> IsSamePeriod(Year, a, b)
    ensures IsSamePeriod(Year, a, b) <==> a.year == b.year
    ensures !IsSamePeriod(Other, a, b)
  {
  }

  type Relation = (Period, Time, Time) -> bool

  /** An equivalence that decides single fields so, and refines so. */
  ghost predicate PeriodLaws(same: Relation) {
    && (forall p, x :: p != Other ==> same(p, x, x))
    && (forall p, x, y :: p != Other ==> same(p, x, y) == same(p, y, x))
    && (forall p, x, y, z :: p != Other && same(p, x, y) && same(p, y, z) ==> same(p, x, z))
    && (forall p, x, field, value :: p != Other && value != Get(x, field) ==>
          same(p, With(x, field, value), x) == Within(field, p))
    && (forall x, y :: same(Minute, x, y) ==> same(Hour, x, y))
    && (forall x, y :: same(Hour, x, y) ==> same(Day, x, y))
    && (forall x, y :: same(Day, x, y) ==> same(Month, x, y))
    && (forall x, y :: same(Month, x, y) ==> same(Year, x, y))
    && (forall x: Time, y: Time :: same(Year, x, y) ==> x.year == y.year)
  }

  /** A time in the period of `b` whose finer fields are those of `a`. */
  lemma Blend(same: Relation, period: Period, a: Time, b: Time) returns (c: Time)
    requires PeriodLaws(same) && period != Other
    ensures same(period, c, b)
    ensures forall field :: Get(c, field) == if Within(field, period) then Get(a, field) else Get(b, field)
  {
    c := Refit(same, period, MinuteField, a, b);
    var d := Refit(same, period, HourField, a, c);
    var e := Refit(same, period, DayField, a, d);
    var f := Refit(same, period, MonthField, a, e);
    assert same(period, d, b) && same(period, e, b) && same(period, f, b);
    c := f;
  }

  lemma Refit(same: Relation, period: Period, field: Field, a: Time, b: Time) returns (c: Time)
    requires PeriodLaws(same) && period != Other
    ensures same(period, c, b)
    ensures c == if Within(field, period) then With(b, field, Get(a, field)) else b
  {
    c := if Within(field, period) then With(b, field, Get(a, field)) else b;
  }

  /** If all other fields that the period compares agree, this one agrees as well. */
  lemma FieldAgrees(same: Relation, period: Period, field: Field, a: Time, b: Time)
    requires PeriodLaws(same) && period != Other && same(period, a, b) && !Within(field, period)
    requires forall other :: other != field && !Within(other, period) ==> Get(a, other) == Get(b, other)
    ensures Get(a, field) == Get(b, field)
  {
    var c := Blend(same, period, a, b);
    assert same(period, c, a);
    if Get(a, field) != Get(b, field) {
      forall other ensures Get(c, other) == Get(With(a, field, Get(b, field)), other) {
      }
      SameFields(c, With(a, field, Get(b, field)));
    }
  }

  lemma SameFields(a: Time, b: Time)
    requires forall field :: Get(a, field) == Get(b, field)
    ensures a == b
  {
    assert Get(a, MinuteField) == Get(b, MinuteField) && Get(a, HourField) == Get(b, HourField);
    assert Get(a, DayField) == Get(b, DayField) && Get(a, MonthField) == Get(b, MonthField);
    assert Get(a, YearField) == Get(b, YearField);
  }

  lemma FieldsAgree(same: Relation, period: Period, a: Time, b: Time)
    requires PeriodLaws(same) && period != Other && same(period, a, b)
    ensures forall field :: !Within(field, period) ==> Get(a, field) == Get(b, field)
    decreases match period case Minute => 4 case Hour => 3 case Day => 2 case Month => 1 case _ => 0
  {
    if period == Minute {
      FieldsAgree(same, Hour, a, b);
      FieldAgrees(same, Minute, MinuteField, a, b);
    } else if period == Hour {
      FieldsAgree(same, Day, a, b);
      FieldAgrees(same, Hour, HourField, a, b);
    } else if period == Day {
      FieldsAgree(same, Month, a, b);
      FieldAgrees(same, Day, DayField, a, b);
    } else if period == Month {
      FieldsAgree(same, Year, a, b);
      FieldAgrees(same, Month, MonthField, a, b);
    }
  }

  /** These laws leave one relation: what the monitor compares. */
  lemma PeriodIsDetermined(same: Relation, period: Period, a: Time, b: Time)
    requires PeriodLaws(same) && period != Other
    ensures same(period, a, b) == IsSamePeriod(period, a, b)
  {
    ComparedFields(period, a, b);
    if same(period, a, b) {
      FieldsAgree(same, period, a, b);
    } else if IsSamePeriod(period, a, b) {
      var c := Blend(same, period, a, b);
      SameFields(a, c);
    }
  }

  lemma ComparedFields(period: Period, a: Time, b: Time)
    requires period != Other
    ensures IsSamePeriod(period, a, b) <==> forall field :: !Within(field, period) ==> Get(a, field) == Get(b, field)
  {
    assert Get(a, MinuteField) == a.minute && Get(a, HourField) == a.hour && Get(a, DayField) == a.day;
    assert Get(a, MonthField) == a.month && Get(a, YearField) == a.year;
    assert Get(b, MinuteField) == b.minute && Get(b, HourField) == b.hour && Get(b, DayField) == b.day;
    assert Get(b, MonthField) == b.month && Get(b, YearField) == b.year;
  }

  /** And what the monitor compares meets them. */
  lemma MonitorMeetsLaws()
    ensures PeriodLaws((p, a, b) => IsSamePeriod(p, a, b))
  {
    var same := (p, a, b) => IsSamePeriod(p, a, b);
    forall p, x, field, value | p != Other && value != Get(x, field)
      ensures same(p, With(x, field, value), x) == Within(field, p)
    {
      OneFieldDecides(p, x, field, value);
    }
  }

  /** What a tick makes of the value when one field of the time has changed since the last one. */
  lemma TickAfterChange(t: Data, period: Period, counter: nat, field: Field, value: int)
    requires period != Other && value != Get(t.lastUpdate, field)
    ensures var u := Tick(t, period, counter, With(t.lastUpdate, field, value));
            u.currentValue == if Within(field, period) then Wrap(t.initialValue + ReadValue(t, counter) - t.subValue)
                              else 0
  {
    OneFieldDecides(period, t.lastUpdate, field, value);
    hide IsSamePeriod;
  }

  /** With an unknown period every tick starts over. */
  lemma UnknownPeriodStartsOver(t: Data, counter: nat, now: Time)
    ensures Tick(t, Other, counter, now).currentValue == 0
  {
  }

  lemma SamePeriodIsEquivalence(period: Period, a: Time, b: Time, c: Time)
    requires period != Other
    ensures IsSamePeriod(period, a, a)
    ensures IsSamePeriod(period, a, b) <==> IsSamePeriod(period, b, a)
    ensures IsSamePeriod(period, a, b) && IsSamePeriod(period, b, c) ==> IsSamePeriod(period, a, c)
  {
  }
}
