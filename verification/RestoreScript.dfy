/** The `iptables-restore` and `ipset restore` scripts of one apply, and what the
    kernel holds after running them. */
module RestoreScript {
  import opened Common
  import opened Netfilter
  import opened RuleCompiler
  import opened DispatcherScript
  import opened Kernel

  datatype Mode = Destructive | PreserveSets | StaticSetsOnly

  // ---------------------------------------------------------------- chains

  function ToAppend(c: ChainName): Line -> RestoreCmd { l => AppendLine(c, l) }

  function ChainFor(pr: PendingRule, g: Generation): ChainName
  {
    if Spilled(pr.action, pr.criteria) then Dispatcher else GenChain(g)
  }

  function RuleCmds(pf: Prefilter, g: Generation): PendingRule -> seq<RestoreCmd>
  {
    pr => Map(RuleLines(pr, pf), ToAppend(ChainFor(pr, g)))
  }

  /** The fixed head of the script: a fresh generation chain, and dispatchers that
      jump to it, either newly hooked or rebuilt in place. */
  function ScaffoldCmds(g: Generation, replace: bool): seq<RestoreCmd>
  {
    var jump := Line(Everything, Jump(g));
    [Declare(GenChain(g)), FlushChain(GenChain(g))]
    + (if replace
       then [FlushChain(Dispatcher), FlushChain(DispatcherOutput)]
       else [Declare(Dispatcher), Declare(DispatcherOutput), AppendHook, AppendOutHook])
    + [AppendLine(Dispatcher, jump), AppendLine(DispatcherOutput, jump)]
  }

  /** `build_ipt_script` for the generation scheme. */
  function IptScript(v6: bool, g: Generation, replace: bool, pending: seq<PendingRule>, pf: Prefilter): seq<RestoreCmd>
  {
    ScaffoldCmds(g, replace)
    + Map(PrefilterLines(pf), ToAppend(GenChain(g)))
    + FlatMap(Filter(pending, OfFamily(v6)), RuleCmds(pf, g))
  }

  function Appended(t: Table, c: ChainName, lines: seq<Line>): (r: Table)
    requires c in t.chains
  {
    t.(chains := t.chains[c := t.chains[c] + lines])
  }

  lemma AppendedNone(t: Table, c: ChainName)
    requires c in t.chains
    ensures Appended(t, c, []) == t
  {
    assert t.chains[c] + [] == t.chains[c];
    assert t.chains[c := t.chains[c]] == t.chains;
  }

  lemma AppendedTwice(t: Table, c: ChainName, a: seq<Line>, b: seq<Line>)
    requires c in t.chains
    ensures Appended(Appended(t, c, a), c, b) == Appended(t, c, a + b)
  {
    assert t.chains[c] + a + b == t.chains[c] + (a + b);
    assert Appended(Appended(t, c, a), c, b).chains == Appended(t, c, a + b).chains;
  }

  lemma AppendedSwap(t: Table, c: ChainName, d: ChainName, a: seq<Line>, b: seq<Line>)
    requires c in t.chains && d in t.chains && c != d
    ensures Appended(Appended(t, c, a), d, b) == Appended(Appended(t, d, b), c, a)
  {
    assert Appended(Appended(t, c, a), d, b).chains == Appended(Appended(t, d, b), c, a).chains;
  }

  lemma {:induction false} AppendLines(t: Table, c: ChainName, lines: seq<Line>)
    requires c in t.chains
    ensures RunRestore(t, Map(lines, ToAppend(c))) == Some(Appended(t, c, lines))
    decreases |lines|
  {
    var cmds := Map(lines, ToAppend(c));
    if lines == [] {
      AppendedNone(t, c);
    } else {
      assert cmds[0] == AppendLine(c, lines[0]);
      assert cmds[1..] == Map(lines[1..], ToAppend(c));
      AppendLines(Appended(t, c, [lines[0]]), c, lines[1..]);
      AppendedTwice(t, c, [lines[0]], lines[1..]);
      assert [lines[0]] + lines[1..] == lines;
    }
  }

  /** The rule part of the script, for pending rules of one family. */
  lemma {:induction false} RunRuleCmds(t: Table, prs: seq<PendingRule>, pf: Prefilter, g: Generation)
    requires Dispatcher in t.chains && GenChain(g) in t.chains
    ensures RunRestore(t, FlatMap(prs, RuleCmds(pf, g))) ==
            Some(Appended(Appended(t, GenChain(g), FlatMap(Filter(prs, StaysPending()), ByPending(pf))),
                          Dispatcher, FlatMap(Filter(prs, SpillsPending()), ByPending(pf))))
    decreases |prs|
  {
    hide RuleLines, RunRestore, Appended;
    if prs == [] {
      AppendedNone(t, GenChain(g));
      AppendedNone(t, Dispatcher);
      RunNothing(t);
    } else {
      var pr, rest := prs[0], prs[1..];
      var lines := RuleLines(pr, pf);
      AppendLines(t, ChainFor(pr, g), lines);
      RunRestoreAppend(t, RuleCmds(pf, g)(pr), FlatMap(rest, RuleCmds(pf, g)));
      AppendedKeepsChains(t, ChainFor(pr, g), lines);
      RunRuleCmds(Appended(t, ChainFor(pr, g), lines), rest, pf, g);
      FilterHead(pr, rest, pf);
      var a, b := FlatMap(Filter(rest, StaysPending()), ByPending(pf)),
          FlatMap(Filter(rest, SpillsPending()), ByPending(pf));
      assert [pr] + rest == prs && [] + a == a && [] + b == b;
      if Spilled(pr.action, pr.criteria) {
        AppendedSwap(t, Dispatcher, GenChain(g), lines, a);
        AppendedKeepsChains(t, GenChain(g), a);
        AppendedTwice(Appended(t, GenChain(g), a), Dispatcher, lines, b);
      } else {
        AppendedTwice(t, GenChain(g), lines, a);
      }
    }
  }

  lemma RunNothing(t: Table)
    ensures RunRestore(t, []) == Some(t)
  {}

  lemma AppendedKeepsChains(t: Table, c: ChainName, lines: seq<Line>)
    requires c in t.chains
    ensures Appended(t, c, lines).chains.Keys == t.chains.Keys
  {}

  lemma FilterHead(pr: PendingRule, rest: seq<PendingRule>, pf: Prefilter)
    ensures FlatMap(Filter([pr] + rest, StaysPending()), ByPending(pf)) ==
            (if Spilled(pr.action, pr.criteria) then [] else RuleLines(pr, pf))
            + FlatMap(Filter(rest, StaysPending()), ByPending(pf))
    ensures FlatMap(Filter([pr] + rest, SpillsPending()), ByPending(pf)) ==
            (if Spilled(pr.action, pr.criteria) then RuleLines(pr, pf) else [])
            + FlatMap(Filter(rest, SpillsPending()), ByPending(pf))
  {
    hide RuleLines, Filter, FlatMap, Spilled;
    KeepFirst(pr, rest, StaysPending(), pf);
    KeepFirst(pr, rest, SpillsPending(), pf);
  }

  lemma KeepFirst(pr: PendingRule, rest: seq<PendingRule>, keep: PendingRule -> bool, pf: Prefilter)
    ensures FlatMap(Filter([pr] + rest, keep), ByPending(pf)) ==
            (if keep(pr) then RuleLines(pr, pf) else []) + FlatMap(Filter(rest, keep), ByPending(pf))
  {
    hide RuleLines;
    assert ([pr] + rest)[1..] == rest;
    var kept := Filter(rest, keep);
    FlatMapAppend([pr], kept, ByPending(pf));
    FlatMapOne(pr, ByPending(pf));
    assert [] + kept == kept && [] + FlatMap(kept, ByPending(pf)) == FlatMap(kept, ByPending(pf));
  }

  lemma {:induction false} FilterCommutes<T(!new)>(s: seq<T>, f: T -> bool, g: T -> bool)
    ensures Filter(Filter(s, f), g) == Filter(Filter(s, g), f)
  {
    if s != [] {
      FilterCommutes(s[1..], f, g);
      var x := s[0];
      FilterAppend(if f(x) then [x] else [], Filter(s[1..], f), g);
      FilterAppend(if g(x) then [x] else [], Filter(s[1..], g), f);
      assert [x][1..] == [];
      assert Filter([x], f) == (if f(x) then [x] else []) + [];
      assert Filter([x], g) == (if g(x) then [x] else []) + [];
    }
  }

  predicate Dispatchers(t: Table) { Dispatcher in t.chains && DispatcherOutput in t.chains }

  /** A table whose dispatcher and generation chain come from the given pending rules. */
  predicate Installed(t: Table, v6: bool, g: Generation, pending: seq<PendingRule>, pf: Prefilter)
  {
    && Dispatcher in t.chains && GenChain(g) in t.chains
    && t.chains[Dispatcher] == DispatcherLines(pending, pf, v6, g)
    && t.chains[GenChain(g)] == GenLines(pending, pf, v6)
  }

  /** What the scaffold part leaves behind when it goes through. */
  function Scaffolded(t: Table, g: Generation, replace: bool): Table
  {
    var jump := [Line(Everything, Jump(g))];
    var chains := t.chains[GenChain(g) := []][Dispatcher := jump][DispatcherOutput := jump];
    if replace then t.(chains := chains) else Table(t.hooks + 1, t.outHooks + 1, chains)
  }

  lemma RunScaffold(t: Table, g: Generation, replace: bool)
    ensures RunRestore(t, ScaffoldCmds(g, replace)) ==
            if !replace || Dispatchers(t) then Some(Scaffolded(t, g, replace)) else None
  {
    hide RunRestore;
    var jump := Line(Everything, Jump(g));
    var t1 := t.(chains := t.chains[GenChain(g) := []][GenChain(g) := []]);
    var head := [FlushChain(GenChain(g))];
    var tail := [AppendLine(Dispatcher, jump), AppendLine(DispatcherOutput, jump)];
    var mid := if replace then [FlushChain(Dispatcher), FlushChain(DispatcherOutput)]
               else [Declare(Dispatcher), Declare(DispatcherOutput), AppendHook, AppendOutHook];
    assert ScaffoldCmds(g, replace) == [Declare(GenChain(g))] + ([FlushChain(GenChain(g))] + (mid + tail));
    RunRestoreCons(t, Declare(GenChain(g)), [FlushChain(GenChain(g))] + (mid + tail));
    RunRestoreCons(t.(chains := t.chains[GenChain(g) := []]), FlushChain(GenChain(g)), mid + tail);
    RunRestoreAppend(t1, mid, tail);
    RunMiddle(t1, replace);
    if !replace || Dispatchers(t) {
      var t2 := RunRestore(t1, mid).value;
      assert tail == [tail[0]] + ([tail[1]] + []);
      RunRestoreCons(t2, tail[0], [tail[1]] + []);
      var t3 := t2.(chains := t2.chains[Dispatcher := t2.chains[Dispatcher] + [jump]]);
      RunRestoreCons(t3, tail[1], []);
      var t4 := t3.(chains := t3.chains[DispatcherOutput := t3.chains[DispatcherOutput] + [jump]]);
      RunNothing(t4);
      assert t2.chains[Dispatcher] + [jump] == [jump] && t3.chains[DispatcherOutput] + [jump] == [jump];
      assert t4.chains == Scaffolded(t, g, replace).chains;
    }
  }

  lemma RunFlush(t: Table)
    ensures RunRestore(t, [FlushChain(Dispatcher), FlushChain(DispatcherOutput)]) ==
            if Dispatchers(t) then Some(t.(chains := t.chains[Dispatcher := []][DispatcherOutput := []])) else None
  {
    hide RunRestore;
    RunPair(t, FlushChain(Dispatcher), FlushChain(DispatcherOutput));
  }

  lemma RunPair(t: Table, a: RestoreCmd, b: RestoreCmd)
    ensures RunRestore(t, [a, b]) ==
            match StepRestore(t, a) case None => None case Some(u) => StepRestore(u, b)
  {
    hide RunRestore, StepRestore;
    assert [a, b] == [a] + ([b] + []);
    RunRestoreCons(t, a, [b] + []);
    match StepRestore(t, a)
    case None =>
    case Some(u) =>
      RunRestoreCons(u, b, []);
      if StepRestore(u, b).Some? { RunNothing(StepRestore(u, b).value); }
  }

  lemma RunDeclare(t: Table)
    ensures RunRestore(t, [Declare(Dispatcher), Declare(DispatcherOutput), AppendHook, AppendOutHook]) ==
            Some(Table(t.hooks + 1, t.outHooks + 1, t.chains[Dispatcher := []][DispatcherOutput := []]))
  {
    hide RunRestore;
    var u := t.(chains := t.chains[Dispatcher := []][DispatcherOutput := []]);
    var a, b := [Declare(Dispatcher), Declare(DispatcherOutput)], [AppendHook, AppendOutHook];
    assert [Declare(Dispatcher), Declare(DispatcherOutput), AppendHook, AppendOutHook] == a + b;
    RunRestoreAppend(t, a, b);
    RunPair(t, Declare(Dispatcher), Declare(DispatcherOutput));
    RunPair(u, AppendHook, AppendOutHook);
  }

  lemma RunMiddle(t: Table, replace: bool)
    ensures var b := if replace then [FlushChain(Dispatcher), FlushChain(DispatcherOutput)]
                     else [Declare(Dispatcher), Declare(DispatcherOutput), AppendHook, AppendOutHook];
            var emptied := t.chains[Dispatcher := []][DispatcherOutput := []];
            RunRestore(t, b) ==
            if replace then (if Dispatchers(t) then Some(t.(chains := emptied)) else None)
            else Some(Table(t.hooks + 1, t.outHooks + 1, emptied))
  {
    hide RunRestore;
    if replace { RunFlush(t); } else { RunDeclare(t); }
  }

  /** A restore that goes through installs the new chains whole and leaves the other
      generation's chain as it was. */
  lemma IptScriptInstalls(t: Table, v6: bool, g: Generation, replace: bool, pending: seq<PendingRule>, pf: Prefilter)
    ensures var r := RunRestore(t, IptScript(v6, g, replace, pending, pf));
            && (r.Some? <==> !replace || Dispatchers(t))
            && (r.Some? ==>
                  && Installed(r.value, v6, g, pending, pf)
                  && (GenChain(Opposite(g)) in t.chains ==>
                        GenChain(Opposite(g)) in r.value.chains
                        && r.value.chains[GenChain(Opposite(g))] == t.chains[GenChain(Opposite(g))])
                  && Dispatchers(r.value) && r.value.hooks == t.hooks + (if replace then 0 else 1))
  {
    hide PrefilterLines, ScaffoldCmds, RuleLines, RunRestore, Filter, FlatMap;
    var a, b := ScaffoldCmds(g, replace), Map(PrefilterLines(pf), ToAppend(GenChain(g)));
    var prs := Filter(pending, OfFamily(v6));
    RunRestoreAppend(t, a + b, FlatMap(prs, RuleCmds(pf, g)));
    RunRestoreAppend(t, a, b);
    RunScaffold(t, g, replace);
    if !replace || Dispatchers(t) {
      var t1 := Scaffolded(t, g, replace);
      AppendLines(t1, GenChain(g), PrefilterLines(pf));
      RunRuleCmds(Appended(t1, GenChain(g), PrefilterLines(pf)), prs, pf, g);
      ScriptLines(pending, pf, v6);
      var stays := FlatMap(Filter(prs, StaysPending()), ByPending(pf));
      assert t1.chains[GenChain(g)] + PrefilterLines(pf) + stays == PrefilterLines(pf) + stays;
    }
  }

  /** The builder picks a family first and a chain second; the order does not matter. */
  lemma ScriptLines(pending: seq<PendingRule>, pf: Prefilter, v6: bool)
    ensures GenLines(pending, pf, v6) ==
            PrefilterLines(pf) + FlatMap(Filter(Filter(pending, OfFamily(v6)), StaysPending()), ByPending(pf))
    ensures SpillLines(pending, pf, v6) ==
            FlatMap(Filter(Filter(pending, OfFamily(v6)), SpillsPending()), ByPending(pf))
  {
    hide PrefilterLines, RuleLines, Filter, FlatMap;
    FilterCommutes(pending, OfFamily(v6), StaysPending());
    FilterCommutes(pending, OfFamily(v6), SpillsPending());
  }

  // ---------------------------------------------------------------- sets

  datatype Load = Load(name: SetName, entries: seq<Cidr>)

  function SetOf(entries: seq<Cidr>): (r: set<Cidr>)
    ensures forall c :: c in r <==> c in entries
  {
    set c | c in entries
  }

  /** All entries streamed into one set. */
  function Contents(loads: seq<Load>, n: SetName): (r: set<Cidr>)
  {
    if loads == [] then {}
    else (if loads[0].name == n then SetOf(loads[0].entries) else {}) + Contents(loads[1..], n)
  }

  predicate Enabled(n: SetName, v6On: bool) { n.v6 ==> v6On }

  /** Dynamic sets are only created by a destructive apply. */
  predicate Creates(mode: Mode, v6On: bool, n: SetName)
  {
    Enabled(n, v6On) && (n.Static? || mode == Destructive)
  }

  function SetCmdsFor(mode: Mode, v6On: bool, clear: bool): SetName -> seq<IpsetCmd>
  {
    n =>
      if !Enabled(n, v6On) then []
      else if n.Dynamic? then
        (if mode == Destructive then [Create(n)] + (if clear then [FlushSet(n)] else []) else [])
      else [Create(n), FlushSet(n)]
  }

  function ToAdd(n: SetName): Cidr -> IpsetCmd { c => AddEntry(n, c) }

  function LoadCmdsFor(v6On: bool): Load -> seq<IpsetCmd>
  {
    (l: Load) => if Enabled(l.name, v6On) then Map(l.entries, ToAdd(l.name)) else []
  }

  /** The script of phase 1: every target set is created and flushed before entries are added. */
  function IpsetScript(pendingSets: seq<SetName>, loads: seq<Load>, mode: Mode, v6On: bool, clear: bool): seq<IpsetCmd>
  {
    FlatMap(pendingSets, SetCmdsFor(mode, v6On, clear)) + FlatMap(loads, LoadCmdsFor(v6On))
  }

  /** Sets a script may touch. */
  predicate Touches(pendingSets: seq<SetName>, loads: seq<Load>, mode: Mode, v6On: bool, n: SetName)
  {
    && Enabled(n, v6On)
    && ((n in pendingSets && (n.Dynamic? ==> mode == Destructive)) || exists l :: l in loads && l.name == n)
  }

  lemma ScriptTouches(pendingSets: seq<SetName>, loads: seq<Load>, mode: Mode, v6On: bool, clear: bool, c: IpsetCmd)
    requires c in IpsetScript(pendingSets, loads, mode, v6On, clear)
    ensures Touches(pendingSets, loads, mode, v6On, c.name)
  {
    FlatMapMember(pendingSets, SetCmdsFor(mode, v6On, clear), c);
    FlatMapMember(loads, LoadCmdsFor(v6On), c);
    if c in FlatMap(loads, LoadCmdsFor(v6On)) {
      var l :| l in loads && c in LoadCmdsFor(v6On)(l);
      if Enabled(l.name, v6On) {
        MapMember(l.entries, ToAdd(l.name), c);
      }
    }
  }

  /** However far the script gets, an untouched set keeps its contents. */
  lemma IpsetFrame(sets: Sets, pendingSets: seq<SetName>, loads: seq<Load>, mode: Mode, v6On: bool, clear: bool,
                   cut: nat, n: SetName)
    requires !Touches(pendingSets, loads, mode, v6On, n)
    requires cut <= |IpsetScript(pendingSets, loads, mode, v6On, clear)|
    ensures SameSet(sets, RunIpset(sets, IpsetScript(pendingSets, loads, mode, v6On, clear)[..cut]).0, n)
  {
    var script := IpsetScript(pendingSets, loads, mode, v6On, clear);
    forall c | c in script[..cut] ensures c.name != n {
      assert c in script;
      ScriptTouches(pendingSets, loads, mode, v6On, clear, c);
    }
    RunIpsetFrame(sets, script[..cut], n);
  }

  lemma RunNoIpset(sets: Sets)
    ensures RunIpset(sets, []) == (sets, true)
  {}

  lemma SetCmdsRun(sets: Sets, m: SetName, mode: Mode, v6On: bool, clear: bool)
    ensures var r := RunIpset(sets, SetCmdsFor(mode, v6On, clear)(m));
            && r.1 && (forall n :: n in r.0 <==> n in sets || (n == m && Creates(mode, v6On, n)))
            && (forall n :: n in sets && n != m ==> r.0[n] == sets[n])
            && (m.Static? && Enabled(m, v6On) ==> m in r.0 && r.0[m] == {})
            && (m in sets && sets[m] == {} ==> r.0[m] == {})
  {
    hide RunIpset;
    var cmds := SetCmdsFor(mode, v6On, clear)(m);
    var s1 := if m in sets then sets else sets[m := {}];
    RunNoIpset(sets);
    RunNoIpset(s1);
    RunNoIpset(s1[m := {}]);
    if |cmds| == 2 {
      assert cmds == [Create(m)] + ([FlushSet(m)] + []);
      RunIpsetCons(sets, Create(m), [FlushSet(m)] + []);
      RunIpsetCons(s1, FlushSet(m), []);
    } else if |cmds| == 1 {
      assert cmds == [Create(m)] + [];
      RunIpsetCons(sets, Create(m), []);
    }
  }

  /** After the create-and-flush part, every staged static set is present and empty. */
  lemma {:induction false} AllSetCmdsRun(sets: Sets, names: seq<SetName>, mode: Mode, v6On: bool, clear: bool)
    ensures var r := RunIpset(sets, FlatMap(names, SetCmdsFor(mode, v6On, clear)));
            && r.1 && (forall n :: n in r.0 <==> n in sets || (n in names && Creates(mode, v6On, n)))
            && (forall n :: n in names && n.Static? && Enabled(n, v6On) ==> n in r.0 && r.0[n] == {})
            && (forall n :: n in sets && sets[n] == {} ==> r.0[n] == {})
    decreases |names|
  {
    hide RunIpset, SetCmdsFor;
    if names == [] {
      RunNoIpset(sets);
    } else {
      var m, rest := names[0], names[1..];
      assert names == [m] + rest;
      RunIpsetAppend(sets, SetCmdsFor(mode, v6On, clear)(m), FlatMap(rest, SetCmdsFor(mode, v6On, clear)));
      SetCmdsRun(sets, m, mode, v6On, clear);
      AllSetCmdsRun(RunIpset(sets, SetCmdsFor(mode, v6On, clear)(m)).0, rest, mode, v6On, clear);
    }
  }

  lemma SetOfCons(c0: Cidr, rest: seq<Cidr>)
    ensures SetOf([c0] + rest) == {c0} + SetOf(rest)
  {}

  lemma {:induction false} LoadRun(sets: Sets, n: SetName, entries: seq<Cidr>)
    requires n in sets
    ensures var r := RunIpset(sets, Map(entries, ToAdd(n)));
            && r.1 && r.0.Keys == sets.Keys && r.0[n] == sets[n] + SetOf(entries)
            && (forall m :: m in sets && m != n ==> r.0[m] == sets[m])
    decreases |entries|
  {
    hide RunIpset, SetOf, Map;
    if entries == [] {
      assert Map(entries, ToAdd(n)) == [];
      RunNoIpset(sets);
    } else {
      var c0, rest := entries[0], entries[1..];
      SetOfCons(c0, rest);
      MapCons(c0, rest, ToAdd(n));
      assert [c0] + rest == entries;
      RunIpsetCons(sets, AddEntry(n, c0), Map(rest, ToAdd(n)));
      LoadRun(sets[n := sets[n] + {c0}], n, rest);
    }
  }

  lemma {:induction false} LoadsRun(sets: Sets, loads: seq<Load>, v6On: bool)
    requires forall l :: l in loads && Enabled(l.name, v6On) ==> l.name in sets
    ensures var r := RunIpset(sets, FlatMap(loads, LoadCmdsFor(v6On)));
            && r.1 && r.0.Keys == sets.Keys
            && (forall n :: n in sets && Enabled(n, v6On) ==> r.0[n] == sets[n] + Contents(loads, n))
            && (forall n :: n in sets && !Enabled(n, v6On) ==> r.0[n] == sets[n])
    decreases |loads|
  {
    hide RunIpset;
    if loads == [] {
      RunNoIpset(sets);
    } else {
      var l, rest := loads[0], loads[1..];
      assert loads == [l] + rest;
      RunIpsetAppend(sets, LoadCmdsFor(v6On)(l), FlatMap(rest, LoadCmdsFor(v6On)));
      RunNoIpset(sets);
      if Enabled(l.name, v6On) { LoadRun(sets, l.name, l.entries); }
      LoadsRun(RunIpset(sets, LoadCmdsFor(v6On)(l)).0, rest, v6On);
    }
  }

  /** A script that runs to its end leaves each staged static set with exactly the
      streamed entries, whatever the set held before. */
  lemma IpsetLoads(sets: Sets, pendingSets: seq<SetName>, loads: seq<Load>, mode: Mode, v6On: bool, clear: bool)
    requires forall l :: l in loads ==> l.name in pendingSets && l.name.Static?
    ensures var r := RunIpset(sets, IpsetScript(pendingSets, loads, mode, v6On, clear));
            && r.1 && (forall n :: n in r.0 <==> n in sets || (n in pendingSets && Creates(mode, v6On, n)))
            && (forall n :: n in pendingSets && n.Static? && Enabled(n, v6On) ==>
               n in r.0 && r.0[n] == Contents(loads, n))
  {
    hide RunIpset, SetCmdsFor, LoadCmdsFor;
    var a := FlatMap(pendingSets, SetCmdsFor(mode, v6On, clear));
    RunIpsetAppend(sets, a, FlatMap(loads, LoadCmdsFor(v6On)));
    AllSetCmdsRun(sets, pendingSets, mode, v6On, clear);
    LoadsRun(RunIpset(sets, a).0, loads, v6On);
  }
}
