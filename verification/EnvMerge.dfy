/** Merging environment lists into a runtime spec. */
module EnvMerge {
  import opened Sequences

  /** White space that is trimmed from a name. */
  predicate IsSpace(c: char) {
    || '\t' <= c <= '\r' || c == ' ' || c == '\U{0085}' || c == '\U{00A0}' || c == '\U{1680}'
    || '\U{2000}' <= c <= '\U{200A}' || c == '\U{2028}' || c == '\U{2029}' || c == '\U{202F}' || c == '\U{205F}'
    || c == '\U{3000}'
  }

  function TrimLeft(s: string): string {
    if s != [] && IsSpace(s[0]) then TrimLeft(s[1..]) else s
  }

  function TrimRight(s: string): string {
    if s != [] && IsSpace(s[|s| - 1]) then TrimRight(s[..|s| - 1]) else s
  }

  function Before(s: string, c: char): string {
    if s == [] || s[0] == c then [] else [s[0]] + Before(s[1..], c)
  }

  /** What stands before the first equals sign, without the white space around it. */
  function NameOf(envVar: string): string {
    TrimRight(TrimLeft(Before(envVar, '=')))
  }

  ghost predicate AllSpace(s: string) {
    forall k :: 0 <= k < |s| ==> IsSpace(s[k])
  }

  /** Neither begins nor ends with white space. */
  ghost predicate Trimmed(s: string) {
    s != [] ==> !IsSpace(s[0]) && !IsSpace(s[|s| - 1])
  }

  /**
   * The name of a variable is what stands before its first equals sign, if there is one, without the white space
   * around it.
   */
  lemma NameIsBeforeEquals(before: string, name: string, after: string, rest: string)
    requires AllSpace(before) && AllSpace(after) && Trimmed(name) && '=' !in before + name + after
    requires rest == [] || rest[0] == '='
    ensures NameOf(before + name + after + rest) == name
  {
    BeforeStops(before + name + after, rest);
    assert before + name + after == before + (name + after);
    if name == [] {
      SpacesTrimmed(before + name + after);
    } else {
      LeftTrimmed(before, name + after);
      RightTrimmed(name, after);
    }
  }

  lemma {:induction false} BeforeStops(plain: string, rest: string)
    requires '=' !in plain && (rest == [] || rest[0] == '=')
    ensures Before(plain + rest, '=') == plain
  {
    if plain == [] {
      assert plain + rest == rest;
    } else {
      assert (plain + rest)[1..] == plain[1..] + rest;
      BeforeStops(plain[1..], rest);
    }
  }

  lemma {:induction false} LeftTrimmed(before: string, s: string)
    requires AllSpace(before) && s != [] && !IsSpace(s[0])
    ensures TrimLeft(before + s) == s
  {
    if before == [] {
      assert before + s == s;
    } else {
      assert (before + s)[1..] == before[1..] + s;
      LeftTrimmed(before[1..], s);
    }
  }

  lemma {:induction false} RightTrimmed(s: string, after: string)
    requires AllSpace(after) && s != [] && !IsSpace(s[|s| - 1])
    ensures TrimRight(s + after) == s
  {
    if after == [] {
      assert s + after == s;
    } else {
      var n := |after| - 1;
      assert (s + after)[..|s + after| - 1] == s + after[..n];
      RightTrimmed(s, after[..n]);
    }
  }

  lemma {:induction false} SpacesTrimmed(s: string)
    requires AllSpace(s)
    ensures TrimLeft(s) == []
  {
    if s != [] {
      SpacesTrimmed(s[1..]);
    }
  }

  /** Every variable is of this form. */
  lemma EveryVariableHasAName(v: string) returns (before: string, name: string, after: string, rest: string)
    ensures v == before + name + after + rest
    ensures AllSpace(before) && AllSpace(after) && Trimmed(name) && '=' !in before + name + after
    ensures rest == [] || rest[0] == '='
  {
    var plain: string;
    plain, rest := CutAtEquals(v);
    var left: string;
    before, left := CutSpaces(plain);
    name, after := CutSpacesBehind(left);
  }

  lemma {:induction false} CutAtEquals(v: string) returns (plain: string, rest: string)
    ensures v == plain + rest && '=' !in plain && (rest == [] || rest[0] == '=')
  {
    if v == [] || v[0] == '=' {
      plain, rest := [], v;
    } else {
      plain, rest := CutAtEquals(v[1..]);
      plain := [v[0]] + plain;
    }
  }

  lemma {:induction false} CutSpaces(s: string) returns (spaces: string, rest: string)
    ensures s == spaces + rest && AllSpace(spaces) && (rest != [] ==> !IsSpace(rest[0]))
  {
    if s == [] || !IsSpace(s[0]) {
      spaces, rest := [], s;
    } else {
      spaces, rest := CutSpaces(s[1..]);
      spaces := [s[0]] + spaces;
    }
  }

  lemma {:induction false} CutSpacesBehind(s: string) returns (rest: string, spaces: string)
    requires s != [] ==> !IsSpace(s[0])
    ensures s == rest + spaces && AllSpace(spaces) && Trimmed(rest)
  {
    if s == [] || !IsSpace(s[|s| - 1]) {
      rest, spaces := s, [];
    } else {
      rest, spaces := CutSpacesBehind(s[..|s| - 1]);
      spaces := spaces + [s[|s| - 1]];
    }
  }

  /** Of the ASCII characters these six are white space; an equals sign, a letter or a digit is not. */
  lemma AsciiSpaces(c: char)
    requires c as int < 128
    ensures IsSpace(c) <==> c in {'\t', '\n', '\U{0B}', '\U{0C}', '\r', ' '}
  {
  }

  function NamesOf(env: seq<string>): (r: seq<string>)
    ensures |r| == |env| && forall i :: 0 <= i < |r| ==> r[i] == NameOf(env[i])
  {
    seq(|env|, i requires 0 <= i < |env| => NameOf(env[i]))
  }

  /** Replaces the first variable of this name, or appends. */
  function MergeOne(env: seq<string>, newVar: string): seq<string> {
    if env == [] then [newVar]
    else if NameOf(env[0]) == NameOf(newVar) then [newVar] + env[1..]
    else [env[0]] + MergeOne(env[1..], newVar)
  }

  function Merge(env: seq<string>, newVars: seq<string>): seq<string> {
    if newVars == [] then env
    else MergeOne(Merge(env, newVars[..|newVars| - 1]), newVars[|newVars| - 1])
  }

  /* ---- The reference: a map from names to variables, where the last one counts ---- */

  function AsMap(env: seq<string>): map<string, string> {
    if env == [] then map[]
    else AsMap(env[..|env| - 1])[NameOf(env[|env| - 1]) := env[|env| - 1]]
  }

  /** The names in the order of their first appearance. */
  function FirstNames(names: seq<string>): seq<string> {
    if names == [] then []
    else
      var first := FirstNames(names[..|names| - 1]);
      if names[|names| - 1] in first then first else first + [names[|names| - 1]]
  }

  lemma AsMapNext(env: seq<string>)
    requires env != []
    ensures AsMap(env) == AsMap(env[..|env| - 1])[NameOf(env[|env| - 1]) := env[|env| - 1]]
  {
    hide NameOf;
  }

  lemma {:induction false} AsMapConcat(a: seq<string>, b: seq<string>)
    ensures AsMap(a + b) == AsMap(a) + AsMap(b)
  {
    if b == [] {
      EmptyMap();
      hide AsMap;
      assert a + b == a;
    } else {
      var last := b[|b| - 1];
      AsMapNext(b);
      AsMapNext(a + b);
      hide AsMap, NameOf;
      AsMapConcat(a, b[..|b| - 1]);
      assert (a + b)[..|a + b| - 1] == a + b[..|b| - 1];
      AddUpdated(AsMap(a), AsMap(b[..|b| - 1]), NameOf(last), last);
    }
  }

  lemma {:induction false} AsMapKeys(env: seq<string>, name: string)
    ensures name in AsMap(env) <==> name in NamesOf(env)
    ensures name in AsMap(env) ==> NameOf(AsMap(env)[name]) == name && AsMap(env)[name] in env
  {
    if env != [] {
      var n := |env| - 1;
      AsMapKeys(env[..n], name);
      assert env == env[..n] + [env[n]];
      assert NamesOf(env) == NamesOf(env[..n]) + [NameOf(env[n])];
    }
  }

  lemma AsMapSingle(v: string)
    ensures AsMap([v]) == map[NameOf(v) := v]
  {
    assert [v][..0] == [];
  }

  lemma FirstNameSplit(env: seq<string>)
    requires env != []
    ensures NamesOf(env) == [NameOf(env[0])] + NamesOf(env[1..]) && NamesOf(env[1..]) == NamesOf(env)[1..]
  {
    hide NameOf;
  }

  lemma FirstEntrySplit(env: seq<string>)
    requires env != []
    ensures AsMap(env) == map[NameOf(env[0]) := env[0]] + AsMap(env[1..])
  {
    AsMapConcat([env[0]], env[1..]);
    AsMapSingle(env[0]);
    hide AsMap, NameOf;
    assert env == [env[0]] + env[1..];
  }

  lemma NamesOfSplit(env: seq<string>)
    requires env != []
    ensures NamesOf(env) == [NameOf(env[0])] + NamesOf(env[1..]) && NamesOf(env[1..]) == NamesOf(env)[1..]
    ensures AsMap(env) == map[NameOf(env[0]) := env[0]] + AsMap(env[1..])
  {
    hide *;
    FirstNameSplit(env);
    FirstEntrySplit(env);
  }

  /** A new name goes to the end, all others keep their position. */
  lemma {:induction false} MergeOneNames(env: seq<string>, newVar: string)
    ensures NamesOf(MergeOne(env, newVar)) ==
            if NameOf(newVar) in NamesOf(env) then NamesOf(env) else NamesOf(env) + [NameOf(newVar)]
  {
    hide NameOf, AsMap;
    if env != [] {
      NamesOfSplit(env);
      NamesOfSplit(MergeOne(env, newVar));
      if NameOf(env[0]) != NameOf(newVar) {
        MergeOneNames(env[1..], newVar);
      }
    } else {
      NamesOfSplit([newVar]);
    }
  }

  lemma MergeOneSplit(env: seq<string>, newVar: string)
    requires env != []
    ensures MergeOne(env, newVar) != []
    ensures if NameOf(env[0]) == NameOf(newVar)
            then MergeOne(env, newVar)[0] == newVar && MergeOne(env, newVar)[1..] == env[1..]
            else MergeOne(env, newVar)[0] == env[0] && MergeOne(env, newVar)[1..] == MergeOne(env[1..], newVar)
  {
  }

  lemma AddUpdated(a: map<string, string>, b: map<string, string>, k: string, v: string)
    ensures (a + b)[k := v] == a + b[k := v]
  {
  }

  lemma FirstUpdated(b: map<string, string>, k: string, x: string, v: string)
    requires k !in b
    ensures (map[k := x] + b)[k := v] == map[k := v] + b
  {
  }

  function Occurrences(env: seq<string>, name: string): nat {
    multiset(NamesOf(env))[name]
  }

  lemma OccurrencesSplit(env: seq<string>, name: string)
    requires env != []
    ensures Occurrences(env, name) == (if NameOf(env[0]) == name then 1 else 0) + Occurrences(env[1..], name)
    ensures Occurrences(env[1..], name) > 0 <==> name in AsMap(env[1..])
  {
    FirstNameSplit(env);
    AsMapKeys(env[1..], name);
    hide NameOf, AsMap;
    assert name in NamesOf(env[1..]) <==> name in multiset(NamesOf(env[1..]));
  }

  /** One merge overrides one entry if its name occurs at most once; otherwise the last variable still counts. */
  lemma {:induction false} MergeOneEffect(env: seq<string>, newVar: string)
    ensures var name := NameOf(newVar);
            && (Occurrences(env, name) > 0 <==> name in AsMap(env))
            && AsMap(MergeOne(env, newVar)) ==
               AsMap(env)[name := if Occurrences(env, name) <= 1 then newVar else AsMap(env)[name]]
  {
    var name := NameOf(newVar);
    AsMapSingle(newVar);
    if env != [] {
      MergeOneSplit(env, newVar);
      NamesOfSplit(env);
      NamesOfSplit(MergeOne(env, newVar));
      OccurrencesSplit(env, name);
      hide NameOf, AsMap, MergeOne, Occurrences;
      if NameOf(env[0]) == name {
        EffectAtFirst(AsMap(env[1..]), name, env[0], newVar);
      } else {
        MergeOneEffect(env[1..], newVar);
        AddUpdated(map[NameOf(env[0]) := env[0]], AsMap(env[1..]), name,
                   if Occurrences(env[1..], name) <= 1 then newVar else AsMap(env[1..])[name]);
      }
    } else {
      EmptyMap();
    }
  }

  lemma EffectAtFirst(rest: map<string, string>, name: string, first: string, newVar: string)
    ensures map[name := newVar] + rest ==
            (map[name := first] + rest)[name := if name in rest then (map[name := first] + rest)[name] else newVar]
  {
  }

  lemma MergeOneOverrides(env: seq<string>, newVar: string)
    requires Distinct(NamesOf(env))
    ensures AsMap(MergeOne(env, newVar)) == AsMap(env)[NameOf(newVar) := newVar]
  {
    DistinctIsOnce(NamesOf(env));
    MergeOneEffect(env, newVar);
  }

  lemma EmptyMap()
    ensures AsMap([]) == map[]
  {
  }

  lemma {:induction false} DistinctFirstNames(names: seq<string>)
    requires Distinct(names)
    ensures FirstNames(names) == names
  {
    if names != [] {
      DistinctFirstNames(names[..|names| - 1]);
      assert names == names[..|names| - 1] + [names[|names| - 1]];
    }
  }

  lemma NamesNext(newVars: seq<string>, n: nat)
    requires |newVars| == n + 1
    ensures NamesOf(newVars) == NamesOf(newVars[..n]) + [NameOf(newVars[n])]
  {
    hide NameOf;
  }

  lemma EntriesNext(env: seq<string>, newVars: seq<string>, n: nat)
    requires |newVars| == n + 1
    ensures Merge(env, newVars) == MergeOne(Merge(env, newVars[..n]), newVars[n])
    ensures AsMap(newVars) == AsMap(newVars[..n])[NameOf(newVars[n]) := newVars[n]]
  {
    hide NameOf, MergeOne;
  }

  lemma MergeNext(env: seq<string>, newVars: seq<string>, n: nat)
    requires |newVars| == n + 1
    ensures Merge(env, newVars) == MergeOne(Merge(env, newVars[..n]), newVars[n])
    ensures AsMap(newVars) == AsMap(newVars[..n])[NameOf(newVars[n]) := newVars[n]]
    ensures NamesOf(newVars) == NamesOf(newVars[..n]) + [NameOf(newVars[n])]
  {
    hide *;
    NamesNext(newVars, n);
    EntriesNext(env, newVars, n);
  }

  /** One more name, as the merge and as the list of first appearances see it. */
  lemma NameAppended(names: seq<string>, more: seq<string>, all: seq<string>, merged: seq<string>, name: string)
    requires all == more + [name] && Distinct(merged) && merged == FirstNames(names + more)
    ensures var next := if name in merged then merged else merged + [name];
            Distinct(next) && next == FirstNames(names + all)
  {
    FirstNamesNext(names + more, name);
    hide FirstNames;
    assert names + all == names + more + [name];
  }

  lemma FirstNamesNext(names: seq<string>, name: string)
    ensures FirstNames(names + [name]) ==
            if name in FirstNames(names) then FirstNames(names) else FirstNames(names) + [name]
  {
    assert (names + [name])[..|names|] == names;
  }

  lemma {:induction false} MergedNames(env: seq<string>, newVars: seq<string>)
    requires Distinct(NamesOf(env))
    ensures Distinct(NamesOf(Merge(env, newVars)))
    ensures NamesOf(Merge(env, newVars)) == FirstNames(NamesOf(env) + NamesOf(newVars))
  {
    if newVars == [] {
      DistinctFirstNames(NamesOf(env));
      assert NamesOf(env) + NamesOf(newVars) == NamesOf(env);
    } else {
      var n := |newVars| - 1;
      MergedNames(env, newVars[..n]);
      MergeNext(env, newVars, n);
      MergeOneNames(Merge(env, newVars[..n]), newVars[n]);
      hide *;
      NameAppended(NamesOf(env), NamesOf(newVars[..n]), NamesOf(newVars), NamesOf(Merge(env, newVars[..n])),
                   NameOf(newVars[n]));
    }
  }

  /**
   * From distinct names, merging overrides the variables as a map, keeps the names distinct, and every name stays at
   * its first position.
   */
  lemma {:induction false} MergeRefinesOverride(env: seq<string>, newVars: seq<string>)
    requires Distinct(NamesOf(env))
    ensures Distinct(NamesOf(Merge(env, newVars)))
    ensures AsMap(Merge(env, newVars)) == AsMap(env) + AsMap(newVars)
    ensures NamesOf(Merge(env, newVars)) == FirstNames(NamesOf(env) + NamesOf(newVars))
  {
    MergedNames(env, newVars);
    if newVars == [] {
      EmptyMap();
    } else {
      var n := |newVars| - 1;
      MergeRefinesOverride(env, newVars[..n]);
      MergeNext(env, newVars, n);
      MergeOneOverrides(Merge(env, newVars[..n]), newVars[n]);
      AddUpdated(AsMap(env), AsMap(newVars[..n]), NameOf(newVars[n]), newVars[n]);
      hide *;
    }
  }

  /** A list with distinct names is known by the order of its names and by the map. */
  lemma SameNamesSameMap(a: seq<string>, b: seq<string>)
    requires Distinct(NamesOf(a)) && NamesOf(a) == NamesOf(b) && AsMap(a) == AsMap(b)
    ensures a == b
  {
    forall i | 0 <= i < |a| ensures a[i] == b[i] {
      AsMapAt(a, i);
      AsMapAt(b, i);
    }
  }

  lemma {:induction false} AsMapAt(env: seq<string>, i: nat)
    requires Distinct(NamesOf(env)) && i < |env|
    ensures NameOf(env[i]) in AsMap(env) && AsMap(env)[NameOf(env[i])] == env[i]
  {
    var n := |env| - 1;
    if i < n {
      assert NamesOf(env[..n]) == NamesOf(env)[..n];
      AsMapAt(env[..n], i);
      assert NamesOf(env)[i] != NamesOf(env)[n];
    }
  }

  /** Merging two lists one after the other is merging their concatenation, in any spec. */
  lemma {:induction false} MergeInTurn(env: seq<string>, a: seq<string>, b: seq<string>)
    ensures Merge(env, a + b) == Merge(Merge(env, a), b)
  {
    if b == [] {
      assert a + b == a;
    } else {
      assert (a + b)[..|a + b| - 1] == a + b[..|b| - 1];
      MergeInTurn(env, a, b[..|b| - 1]);
    }
  }

  /**
   * In any environment merging one variable is map override exactly if its name occurs at most once, or its last
   * variable is the new one already: otherwise only the first occurrence is replaced.
   */
  lemma RepeatedNameEscapes(env: seq<string>, newVar: string)
    ensures AsMap(Merge(env, [newVar])) == AsMap(env) + AsMap([newVar]) <==>
            || multiset(NamesOf(env))[NameOf(newVar)] <= 1
            || (NameOf(newVar) in AsMap(env) && AsMap(env)[NameOf(newVar)] == newVar)
  {
    MergeSingle(env, newVar);
    AsMapSingle(newVar);
    MergeOneEffect(env, newVar);
    var name := NameOf(newVar);
    assert multiset(NamesOf(env))[name] == Occurrences(env, name);
    hide *;
    UpdateKeeps(AsMap(env), name, newVar);
  }

  lemma MergeSingle(env: seq<string>, newVar: string)
    ensures Merge(env, [newVar]) == MergeOne(env, newVar)
  {
    assert [newVar][..0] == [];
    hide MergeOne;
  }

  lemma UpdateKeeps(m: map<string, string>, k: string, v: string)
    ensures m + map[k := v] == m[k := v]
    ensures k in m ==> (m[k := m[k]] == m[k := v] <==> m[k] == v)
  {
    if k in m && m[k := m[k]] == m[k := v] {
      assert m[k := v][k] == v;
    }
  }

  /* ---- The runtime spec ---- */

  function Flat(lists: seq<seq<string>>): seq<string> {
    if lists == [] then [] else Flat(lists[..|lists| - 1]) + lists[|lists| - 1]
  }

  class RuntimeSpec {
    var env: seq<string>

    constructor (env: seq<string>)
      ensures this.env == env
    {
      this.env := env;
    }

    method MergeEnv(newVars: seq<string>)
      modifies this
      ensures env == Merge(old(env), newVars)
    {
      for k := 0 to |newVars|
        invariant env == Merge(old(env), newVars[..k])
      {
        var newVar := newVars[k];
        assert newVars[..k + 1][..k] == newVars[..k];
        var varName := NameOf(newVar);
        var i := 0;
        while i < |env| && varName != NameOf(env[i])
          invariant i <= |env| && env == Merge(old(env), newVars[..k])
          invariant forall j :: 0 <= j < i ==> NameOf(env[j]) != varName
        {
          i := i + 1;
        }
        MergeOneAt(env, newVar, i);
        env := if i < |env| then env[i := newVar] else env + [newVar];
      }
      assert newVars[..|newVars|] == newVars;
    }

    /** The lists in the order in which a spec is built: later ones take precedence. */
    method BuildEnv(aos: seq<string>, image: seq<string>, resources: seq<seq<string>>, overrides: seq<string>)
      requires Distinct(NamesOf(env))
      modifies this
      ensures Distinct(NamesOf(env))
      ensures AsMap(env) ==
              AsMap(old(env)) + AsMap(aos) + AsMap(image) + AsMap(Flat(resources)) + AsMap(overrides)
      ensures NamesOf(env) ==
              FirstNames(NamesOf(old(env)) + NamesOf(aos + image + Flat(resources) + overrides))
      ensures env == Merge(old(env), aos + image + Flat(resources) + overrides)
    {
      MergeEnv(aos);
      MergeEnv(image);
      ghost var before := env;
      for k := 0 to |resources|
        invariant env == Merge(before, Flat(resources[..k]))
      {
        assert resources[..k + 1][..k] == resources[..k];
        MergeInTurn(before, Flat(resources[..k]), resources[k]);
        MergeEnv(resources[k]);
      }
      assert resources[..|resources|] == resources;
      MergeEnv(overrides);
      Precedence(old(env), aos, image, Flat(resources), overrides);
    }
  }

  lemma Precedence(
      env: seq<string>, aos: seq<string>, image: seq<string>, resources: seq<string>, overrides: seq<string>)
    requires Distinct(NamesOf(env))
    ensures Merge(Merge(Merge(Merge(env, aos), image), resources), overrides) ==
            Merge(env, aos + image + resources + overrides)
    ensures var merged := Merge(env, aos + image + resources + overrides);
            && Distinct(NamesOf(merged))
            && AsMap(merged) == AsMap(env) + AsMap(aos) + AsMap(image) + AsMap(resources) + AsMap(overrides)
            && NamesOf(merged) == FirstNames(NamesOf(env) + NamesOf(aos + image + resources + overrides))
  {
    var all := aos + image + resources + overrides;
    MergeInTurn(env, aos, image);
    MergeInTurn(env, aos + image, resources);
    MergeInTurn(env, aos + image + resources, overrides);
    hide *;
    MergeRefinesOverride(env, all);
    AsMapConcat(aos, image);
    AsMapConcat(aos + image, resources);
    AsMapConcat(aos + image + resources, overrides);
    AddInTurn(AsMap(env), AsMap(aos), AsMap(image), AsMap(resources), AsMap(overrides));
  }

  lemma AddInTurn(
      a: map<string, string>, b: map<string, string>, c: map<string, string>, d: map<string, string>,
      e: map<string, string>)
    ensures a + (b + c + d + e) == a + b + c + d + e
  {
  }

  lemma {:induction false} MergeOneAt(env: seq<string>, newVar: string, i: nat)
    requires i <= |env| && forall j :: 0 <= j < i ==> NameOf(env[j]) != NameOf(newVar)
    requires i < |env| ==> NameOf(env[i]) == NameOf(newVar)
    ensures MergeOne(env, newVar) == if i < |env| then env[i := newVar] else env + [newVar]
  {
    if env == [] || i == 0 {
    } else {
      MergeOneAt(env[1..], newVar, i - 1);
    }
  }
}
