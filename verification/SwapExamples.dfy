/** Two runs from a clean start that lose the guarantee of the generation swap: one
    through an IPv6 probe that disagrees with the restore, one through a missed cleanup. */
module SwapExamples {
  import opened Common
  import opened Netfilter
  import opened RuleCompiler
  import opened DispatcherScript
  import opened Kernel
  import opened RestoreScript
  import opened ScriptRefs
  import opened GenerationSwap
  import opened ApplyOutcome
  import opened SwapTheorems
  import opened StagedPolicy

  const ANY := Criteria(None, None, AnyProto, Ports(false, []), Ports(false, []), [], [], false, false)
  const SETTINGS := Settings(true, true, Prefilter([], false, false, false, 0))
  const ALL_WELL := Oracle(true, true, true, {}, {}, {}, None, true, true)

  /** One refresh over a single list with one entry. */
  function Refresh(mode: Mode, action: Action, c: Cidr, o: Oracle): Op
  {
    Cycle(SETTINGS, mode, [RouteRule(action, ANY, [ListUse("l", [c], false)])], o)
  }

  predicate IsRefresh(op: Op, action: Action, c: Cidr)
    requires op.Cycle?
  {
    (action.Mark? ==> action.value != 0) && op == Refresh(op.mode, action, c, op.oracle)
  }

  function NameFor(w: World, op: Op, v6: bool): SetName
    requires op.Cycle?
  {
    Static(v6, NextTarget(op.mode, Active(w.fw, v6)), "l")
  }

  function RuleOn(action: Action, n: SetName): Rule { Rule(action, ANY.(set_ := Some(n))) }

  // ---------------------------------------------------------------- what a refresh stages

  lemma RefreshStages(w: World, op: Op, action: Action, c: Cidr)
    requires op.Cycle? && IsRefresh(op, action, c)
    ensures var v, n4, n6 := StagedFor(w, op), NameFor(w, op, false), NameFor(w, op, true);
            && v.staged == [RuleOn(action, n4), RuleOn(action, n6)]
            && v.fw.loads == [Load(n4, Filter([c], FourEntries())), Load(n6, Filter([c], SixEntries()))]
  {
    hide StageAll;
    var v0 := Begin(w, op.settings, op.mode);
    var g := GensOf(v0.fw);
    var rr := op.rules[0];
    var l := rr.lists[0];
    StageAllAppends(v0, op.rules);
    FlatMapOne(rr, RouteRules(g));
    FlatMapOne(rr, RouteLoads(g));
    FlatMapOne(l, ListRules(g, rr));
    FlatMapOne(l, ListLoads(g));
    assert l in rr.lists && UsesLists(rr);
    assert RouteRules(g)(rr) == [RuleOn(action, NameFor(w, op, false)), RuleOn(action, NameFor(w, op, true))];
  }

  lemma RuleIsPending(created: map<SetName, bool>, rules: seq<Rule>, action: Action, n: SetName)
    returns (pr: PendingRule)
    requires RuleOn(action, n) in rules && n in created && created[n] == n.v6
    ensures pr in Pending(rules, created) && pr.v6 == n.v6 && pr.action == action && pr.criteria.set_ == Some(n)
  {
    hide FlatMap, Expand;
    var r := RuleOn(action, n);
    pr := ByDst(n.v6, action, r.criteria, AnyProto, None)(None);
    ExpandMember(n.v6, action, r.criteria, pr);
    assert AnyProto in ExpandProtos(r.criteria) && None in AddrChoices(r.criteria.src, n.v6);
    assert pr in ByRuleFamily(r)(n.v6) && n.v6 in Families(created, r.criteria);
    FlatMapMember(Families(created, r.criteria), ByRuleFamily(r), pr);
    FlatMapMember(rules, ByRule(created), pr);
  }

  /** An active family is installed and hooked. */
  predicate Healthy(w: World, v6: bool)
  {
    Active(w.fw, v6).Some? ==> Dispatchers(Tab(w, v6)) && Tab(w, v6).hooks > 0
  }

  lemma RefreshSwitches(w: World, op: Op, action: Action, c: Cidr)
    requires CreatedOk(w) && op.Cycle? && IsRefresh(op, action, c) && op.mode != Destructive && Works(op.oracle)
    requires Healthy(w, false) && Healthy(w, true)
    requires op.oracle.backend6 || NameFor(w, op, true) in w.sets
    ensures var v := StagedFor(w, op);
            && Switches(v, op.mode, op.oracle, false) && Switches(v, op.mode, op.oracle, true)
            && !Cleans(v, op.mode, op.oracle)
  {
    hide StageAll, Pending, IsRefresh, Targeted;
    var v, o := StagedFor(w, op), op.oracle;
    StagedForOk(w, op);
    RefreshStages(w, op, action, c);
    var n4, n6 := NameFor(w, op, false), NameFor(w, op, true);
    assert RuleOn(action, n6) in v.staged && RuleOn(action, n4) in v.staged;
    assert n4 in v.fw.pendingSets && n6 in v.fw.pendingSets;
    var six := RuleIsPending(v.fw.created, v.staged, action, n6);
    assert !Rebuilds(v, op.mode, o);
    forall pr | pr in v.fw.pendingRules && pr.criteria.set_.Some?
      ensures Present(v, op.mode, o, pr.criteria.set_.value)
    {
      PendingRefs(v.staged, v.fw.created, pr);
    }
  }

  /** After such a refresh both families run it. */
  lemma RefreshRuns(w: World, op: Op, action: Action, c: Cidr)
    requires CreatedOk(w) && op.Cycle? && IsRefresh(op, action, c) && op.mode != Destructive && Works(op.oracle)
    requires Healthy(w, false) && Healthy(w, true)
    requires op.oracle.backend6 || NameFor(w, op, true) in w.sets
    ensures var s, v := StagedFor(w, op), Step(w, op);
            && CreatedOk(v) && Healthy(v, false) && Healthy(v, true)
            && RunsStaging(s, op.mode, op.oracle, v, false) && RunsStaging(s, op.mode, op.oracle, v, true)
            && Tab(v, false).hooks > 0 && Tab(v, true).hooks > 0
            && Active(v.fw, false) == Some(NameFor(w, op, false).gen)
            && Active(v.fw, true) == Some(NameFor(w, op, true).gen)
  {
    hide StageAll, Apply, WellStaged, Switches, Cleans, Targeted, Installed, IsRefresh, Dispatchers, StagedActivation;
    StagedForOk(w, op);
    RefreshSwitches(w, op, action, c);
    ApplyExactly(StagedFor(w, op), op.mode, op.oracle);
    StepCreated(w, op);
  }

  lemma StagedForName(w: World, op: Op, action: Action, c: Cidr, v6: bool)
    requires CreatedOk(w) && op.Cycle? && IsRefresh(op, action, c)
    ensures var s, n := StagedFor(w, op), NameFor(w, op, v6);
            && n in s.fw.pendingSets && Contents(s.fw.loads, n) == (if c.v6 == v6 then {c} else {})
            && n in StagedContents(s.fw, v6) && StagedContents(s.fw, v6)[n] == Contents(s.fw.loads, n)
            && RuleOn(action, n) in s.staged && n in s.fw.created && s.fw.created[n] == v6
  {
    hide StageAll, Pending, StagedContents, IsRefresh, Targeted, StagedFor;
    StagedForOk(w, op);
    RefreshStages(w, op, action, c);
    var s := StagedFor(w, op);
    StagedContentsMeans(s, v6);
    LoadedEntry(NameFor(w, op, false), NameFor(w, op, true), c);
    assert RuleOn(action, NameFor(w, op, v6)) in s.staged;
  }

  lemma LoadedEntry(n4: SetName, n6: SetName, c: Cidr)
    requires !n4.v6 && n6.v6
    ensures var loads := [Load(n4, Filter([c], FourEntries())), Load(n6, Filter([c], SixEntries()))];
            && Contents(loads, n4) == (if c.v6 then {} else {c})
            && Contents(loads, n6) == (if c.v6 then {c} else {})
  {
    var a, b := Load(n4, Filter([c], FourEntries())), Load(n6, Filter([c], SixEntries()));
    assert [c][1..] == [];
    assert Filter([c], FourEntries()) == if c.v6 then [] else [c];
    assert Filter([c], SixEntries()) == if c.v6 then [c] else [];
    assert [a, b][1..] == [b] && [b][1..] == [];
    forall n ensures Contents([a, b], n) ==
                     (if a.name == n then SetOf(a.entries) else {}) + (if b.name == n then SetOf(b.entries) else {}) {
      assert Contents([b], n) == (if b.name == n then SetOf(b.entries) else {}) + Contents([], n);
    }
  }

  /** The line a refresh writes for its rule over `n`. */
  lemma RefreshLine(w: World, op: Op, action: Action, c: Cidr, v: World, v6: bool) returns (l: Line)
    requires CreatedOk(w) && op.Cycle? && IsRefresh(op, action, c)
    requires RunsStaging(StagedFor(w, op), op.mode, op.oracle, v, v6) && Tab(v, v6).hooks > 0
    ensures l in ReachableLines(Tab(v, v6)) && l.m.Selector? && l.m.set_ == Some(NameFor(w, op, v6))
    ensures !action.Mark? ==> Dispatcher in Tab(v, v6).chains && l in Tab(v, v6).chains[Dispatcher]
  {
    hide StageAll, Pending, IsRefresh, StartTable, StillActive, StagedActivation, FlatMap, RuleLines, PrefilterLines,
      StagedFor, Targeted, NextTarget;
    var s, n, t := StagedFor(w, op), NameFor(w, op, v6), Tab(v, v6);
    StagedForName(w, op, action, c, v6);
    StagedForOk(w, op);
    var pr := RuleIsPending(s.fw.created, s.staged, action, n);
    l := RuleHasLine(pr, s.fw.pf);
    RuleLinesRefs(pr, s.fw.pf, l);
    var kept := Filter(s.fw.pendingRules, if action.Mark? then StaysPending() else SpillsPending());
    assert pr in Filter(kept, OfFamily(v6));
    FlatMapMember(Filter(kept, OfFamily(v6)), ByPending(s.fw.pf), l);
  }

  // ---------------------------------------------------------------- a stale IPv6 set

  lemma RunTwo(w: World, a: Op, b: Op)
    ensures Run(w, [a, b]) == Step(Step(w, a), b)
  {
    hide Step;
    assert [a, b][1..] == [b] && [b][1..] == [];
    assert Run(Step(Step(w, a), b), []) == Step(Step(w, a), b);
  }

  lemma RunThree(w: World, a: Op, b: Op, c: Op)
    ensures Run(w, [a, b, c]) == Step(Step(Step(w, a), b), c)
  {
    hide Step;
    assert [a, b, c][1..] == [b, c];
    RunTwo(Step(w, a), b, c);
  }

  /** A refresh in which everything works loads its entry. */
  lemma RefreshLoads(w: World, op: Op, action: Action, c: Cidr, v6: bool)
    requires FamilyOk(w, v6) && CreatedOk(w) && op.Cycle? && IsRefresh(op, action, c)
    requires op.mode != Destructive && Works(op.oracle) && op.oracle.backend6 && Healthy(w, false) && Healthy(w, true)
    ensures var v, n := Step(w, op), NameFor(w, op, v6);
            FamilyOk(v, v6) && n in v.sets && v.sets[n] == if c.v6 == v6 then {c} else {}
  {
    hide StageAll, Apply, Pending, Installed, IsRefresh, StagedFor, StartTable, StillActive, StagedContents;
    RefreshRuns(w, op, action, c);
    StagedForName(w, op, action, c, v6);
    StagedForOk(w, op);
    StepSoundExactly(w, op, v6);
  }

  /** A refresh leaves the other generation's sets alone. */
  lemma RefreshKeepsOther(w: World, op: Op, n: SetName)
    requires CreatedOk(w) && op.Cycle? && op.mode != Destructive && n.Static? && Active(w.fw, n.v6) == Some(n.gen)
    ensures SameSet(w.sets, Step(w, op).sets, n)
  {
    hide StageAll, Apply, WellStaged, Targeted, SameSet;
    StagedForOk(w, op);
    LiveSetsKept(StagedFor(w, op), op.mode, op.oracle, n);
  }

  /** With the probe failing, a refresh runs its rules over the sets it finds. */
  lemma RefreshSkips(w: World, op: Op, n: SetName)
    requires CreatedOk(w) && op.Cycle? && op.mode != Destructive && n.v6 && !op.oracle.backend6
    ensures SameSet(w.sets, Step(w, op).sets, n)
  {
    hide StageAll, Apply, WellStaged, Targeted, SameSet;
    StagedForOk(w, op);
    SkippedSets(StagedFor(w, op), op.mode, op.oracle, n);
  }

  /** Three refreshes from a clean start; in the third the list has changed and the IPv6
      probe fails while the restore works. A packet then meets an IPv6 line over a set
      that still holds the first refresh's entry. */
  lemma DisagreeingProbeServesStaleSet(c1: Cidr, c2: Cidr) returns (l: Line)
    requires c1.v6 && c2.v6 && c1 != c2
    ensures var first := Refresh(PreserveSets, Mark(1, 1), c1, ALL_WELL);
            var third := Refresh(PreserveSets, Mark(1, 1), c2, ALL_WELL.(backend6 := false));
            var w, n := Run(CLEAN_START, [first, first, third]), Static(true, A, "l");
            && l in ReachableLines(w.t6) && l.m.Selector? && l.m.set_ == Some(n)
            && w.live6.Some? && n in w.live6.value.contents && w.live6.value.contents[n] == {c2}
            && n in w.sets && w.sets[n] == {c1}
  {
    hide StageAll, Step, Installed, StagedFor, Pending, StagedContents, ReachableLines, StartTable, StillActive;
    var first := Refresh(PreserveSets, Mark(1, 1), c1, ALL_WELL);
    var third := Refresh(PreserveSets, Mark(1, 1), c2, ALL_WELL.(backend6 := false));
    var n := Static(true, A, "l");
    RunThree(CLEAN_START, first, first, third);
    var w1 := Step(CLEAN_START, first);
    CleanStartSound(true);
    RefreshRuns(CLEAN_START, first, Mark(1, 1), c1);
    RefreshLoads(CLEAN_START, first, Mark(1, 1), c1, true);
    var w2 := Step(w1, first);
    RefreshRuns(w1, first, Mark(1, 1), c1);
    RefreshKeepsOther(w1, first, n);
    var w3 := Step(w2, third);
    RefreshRuns(w2, third, Mark(1, 1), c2);
    RefreshSkips(w2, third, n);
    StagedForName(w2, third, Mark(1, 1), c2, true);
    l := RefreshLine(w2, third, Mark(1, 1), c2, w3, true);
  }

  // ---------------------------------------------------------------- a missed cleanup

  lemma ScriptHasCommands(w: World, mode: Mode, v6On: bool, clear: bool, n: SetName)
    requires n in w.fw.pendingSets && n.Static? && !n.v6
    ensures IpsetScript(w.fw.pendingSets, w.fw.loads, mode, v6On, clear) != []
  {
    FlatMapMember(w.fw.pendingSets, SetCmdsFor(mode, v6On, clear), Create(n));
  }

  /** A refresh that blocks a list, then a destructive one that fails to unhook and flush
      the old dispatcher, empties the set and stops. The old drop line is still reachable
      and its set is empty: nothing is blocked any more, and no generation is active. */
  lemma MissedCleanupStopsBlocking(c: Cidr) returns (l: Line)
    requires !c.v6
    ensures var n := Static(false, A, "l");
            var bad := ALL_WELL.(cleanupFails := {0, FLUSH_DISPATCHER_INDEX}, kept := {n}, flushed := {n},
                                 ipsetCut := Some(0));
            var first := Refresh(PreserveSets, DropIt, c, ALL_WELL);
            var before := Run(CLEAN_START, [first]);
            var after := Run(CLEAN_START, [first, Refresh(Destructive, DropIt, c, bad)]);
            && n in before.sets && before.sets[n] == {c}
            && l in ReachableLines(before.t4) && l in ReachableLines(after.t4) && l.m.Selector? && l.m.set_ == Some(n)
            && n in after.sets && after.sets[n] == {} && after.fw.active4 == None
  {
    hide StageAll, Step, Installed, StagedFor, Pending, StagedContents, ReachableLines, StartTable, StillActive,
      IpsetScript;
    var n := Static(false, A, "l");
    var bad := ALL_WELL.(cleanupFails := {0, FLUSH_DISPATCHER_INDEX}, kept := {n}, flushed := {n}, ipsetCut := Some(0));
    var first, second := Refresh(PreserveSets, DropIt, c, ALL_WELL), Refresh(Destructive, DropIt, c, bad);
    RunTwo(CLEAN_START, first, second);
    var w1 := Step(CLEAN_START, first);
    assert Run(CLEAN_START, [first]) == w1 by { assert [first][1..] == []; assert Run(w1, []) == w1; }
    CleanStartSound(false);
    RefreshRuns(CLEAN_START, first, DropIt, c);
    RefreshLoads(CLEAN_START, first, DropIt, c, false);
    l := RefreshLine(CLEAN_START, first, DropIt, c, w1, false);
    var s := StagedFor(w1, second);
    StagedForOk(w1, second);
    StagedForName(w1, second, DropIt, c, false);
    ScriptHasCommands(s, Destructive, V6On(s, bad), s.fw.clearDynamic, n);
    assert Misses(s, bad, false);
    MissedCleanupLeavesEmptySetsLive(s, bad, l, n);
    StepIsApply(w1, second);
  }

  lemma StepIsApply(w: World, op: Op)
    requires op.Cycle?
    ensures Step(w, op) == Apply(StagedFor(w, op), op.mode, op.oracle).0
  {}
}
