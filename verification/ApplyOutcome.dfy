/** The exact outcome of one apply, in terms of the state and the command results before
    it: when it succeeds, what becomes of each family, when the IPv6 family goes stale and
    when a family without an active generation is left open. */
module ApplyOutcome {
  import opened Common
  import opened Netfilter
  import opened RuleCompiler
  import opened DispatcherScript
  import opened Kernel
  import opened RestoreScript
  import opened ScriptRefs
  import opened GenerationSwap

  // ---------------------------------------------------------------- conditions before the call

  /** The `ipset restore` of this apply runs to its end. */
  predicate NotCut(w: World, mode: Mode, o: Oracle)
  {
    o.ipsetCut.Some? ==>
      o.ipsetCut.value >= |IpsetScript(w.fw.pendingSets, w.fw.loads, mode, V6On(w, o), w.fw.clearDynamic)|
  }

  /** The sets after the sweep of a destructive apply. */
  function SetsBefore(w: World, mode: Mode, o: Oracle): Sets
  {
    if mode == Destructive then Sweep(w.sets, o, !w.fw.clearDynamic) else w.sets
  }

  /** A set that exists once the sets have been loaded. */
  predicate Present(w: World, mode: Mode, o: Oracle, n: SetName)
  {
    n in SetsBefore(w, mode, o) || (n in w.fw.pendingSets && Creates(mode, V6On(w, o), n))
  }

  /** An active family whose dispatchers are not found makes the apply start over. */
  predicate Rebuilds(w: World, mode: Mode, o: Oracle)
  {
    && mode != Destructive
    && ((w.fw.active4.Some? && !DispatchersSeen(w, false, o))
        || (V6On(w, o) && w.fw.active6.Some? && !DispatchersSeen(w, true, o)))
  }

  predicate Cleans(w: World, mode: Mode, o: Oracle)
  {
    w.fw.prepared && (mode == Destructive || (NotCut(w, mode, o) && Rebuilds(w, mode, o)))
  }

  function CleanedTable(w: World, o: Oracle, v6: bool): Table
  {
    RunClean(Tab(w, v6), CLEANUP_CMDS, if v6 then CLEANUP6_FIRST else 0, o.cleanupFails)
  }

  /** The table and generation a family's restore starts from. */
  function StartTable(w: World, mode: Mode, o: Oracle, v6: bool): Table
  {
    if Cleans(w, mode, o) then CleanedTable(w, o, v6) else Tab(w, v6)
  }

  predicate StillActive(w: World, mode: Mode, o: Oracle, v6: bool)
  {
    !Cleans(w, mode, o) && Active(w.fw, v6).Some?
  }

  /** A family's `iptables-restore` goes through: the command works, every set its rules
      name exists, and the dispatchers it would only flush are there. */
  predicate Restores(w: World, mode: Mode, o: Oracle, v6: bool)
  {
    && (if v6 then o.restore6 else o.restore4)
    && (forall pr :: pr in w.fw.pendingRules && pr.v6 == v6 && pr.criteria.set_.Some? ==>
          Present(w, mode, o, pr.criteria.set_.value))
    && (StillActive(w, mode, o, v6) ==> Dispatchers(Tab(w, v6)))
  }

  predicate Wants6(w: World, o: Oracle)
  {
    V6On(w, o) || exists pr :: pr in w.fw.pendingRules && pr.v6
  }

  /** A family is switched to its target generation. */
  predicate Switches(w: World, mode: Mode, o: Oracle, v6: bool)
  {
    && w.fw.prepared && NotCut(w, mode, o) && Restores(w, mode, o, false)
    && (v6 ==> Wants6(w, o) && Restores(w, mode, o, true))
  }

  predicate Succeeds(w: World, mode: Mode, o: Oracle)
  {
    Switches(w, mode, o, false) && (Wants6(w, o) ==> Restores(w, mode, o, true))
  }

  /** What an apply that switches a family stages for it. */
  function StagedActivation(w: World, v6: bool): Activation
  {
    Activation(TargetGen(w.fw, v6), w.staged, w.fw.created, w.fw.pf, StagedContents(w.fw, v6))
  }

  /** The family runs this staging, hooked once more if it had no active generation. */
  ghost predicate RunsStaging(w: World, mode: Mode, o: Oracle, v: World, v6: bool)
  {
    && Active(v.fw, v6) == Some(TargetGen(w.fw, v6)) && Live(v, v6) == Some(StagedActivation(w, v6))
    && Installed(Tab(v, v6), v6, TargetGen(w.fw, v6), w.fw.pendingRules, w.fw.pf) && Dispatchers(Tab(v, v6))
    && Tab(v, v6).hooks == StartTable(w, mode, o, v6).hooks + (if StillActive(w, mode, o, v6) then 0 else 1)
  }

  /** The family is cleaned when the apply starts over and otherwise left as it was. */
  ghost predicate LeftAlone(w: World, mode: Mode, o: Oracle, v: World, v6: bool)
  {
    && Tab(v, v6) == StartTable(w, mode, o, v6)
    && Active(v.fw, v6) == (if Cleans(w, mode, o) then None else Active(w.fw, v6))
    && Live(v, v6) == (if Cleans(w, mode, o) then None else Live(w, v6))
  }

  ghost predicate FamilyAfter(w: World, mode: Mode, o: Oracle, v: World, v6: bool)
  {
    if Switches(w, mode, o, v6) then RunsStaging(w, mode, o, v, v6) else LeftAlone(w, mode, o, v, v6)
  }

  // ---------------------------------------------------------------- phase by phase

  lemma RestoreExact(w: World, v6: bool, o: Oracle)
    ensures var r := RestoreFamily(w, v6, o);
            && (r.1 <==> (if v6 then o.restore6 else o.restore4) && RuleSetsExist(w.fw.pendingRules, v6, w.sets)
                         && (Active(w.fw, v6).Some? ==> Dispatchers(Tab(w, v6))))
            && (!r.1 ==> r.0 == w)
            && (r.1 ==>
                  && Active(r.0.fw, v6) == Some(TargetGen(w.fw, v6)) && Live(r.0, v6) == Some(StagedActivation(w, v6))
                  && Installed(Tab(r.0, v6), v6, TargetGen(w.fw, v6), w.fw.pendingRules, w.fw.pf)
                  && Dispatchers(Tab(r.0, v6))
                  && Tab(r.0, v6).hooks == Tab(w, v6).hooks + (if Active(w.fw, v6).Some? then 0 else 1))
  {
    hide RunRestore, IptScript, Installed, StagedContents, SetsExist, RuleSetsExist, Dispatchers;
    IptScriptInstalls(Tab(w, v6), v6, TargetGen(w.fw, v6), Active(w.fw, v6).Some?, w.fw.pendingRules, w.fw.pf);
    ScriptSets(v6, TargetGen(w.fw, v6), Active(w.fw, v6).Some?, w.fw.pendingRules, w.fw.pf, w.sets);
  }

  lemma RestoreFrame(w: World, v6: bool, o: Oracle)
    ensures var r := RestoreFamily(w, v6, o);
            && r.0.sets == w.sets && Tab(r.0, !v6) == Tab(w, !v6) && Live(r.0, !v6) == Live(w, !v6)
            && r.0.staged == w.staged
            && (r.0.fw == if v6 then w.fw.(active6 := r.0.fw.active6) else w.fw.(active4 := r.0.fw.active4))
  {
    hide IptScript, AtomicRestore, StagedContents;
  }

  lemma Phase1Exact(w: World, mode: Mode, o: Oracle, v6On: bool)
    requires WellStaged(w)
    ensures var r := Phase1(w, mode, o, v6On);
            var script := IpsetScript(w.fw.pendingSets, w.fw.loads, mode, v6On, w.fw.clearDynamic);
            && (r.1 <==> o.ipsetCut.Some? ==> o.ipsetCut.value >= |script|)
            && r.0 == w.(sets := r.0.sets)
            && (r.1 ==> forall n :: n in r.0.sets <==> n in w.sets || (n in w.fw.pendingSets && Creates(mode, v6On, n)))
  {
    hide Pending, RunIpset, IpsetScript;
    var script := IpsetScript(w.fw.pendingSets, w.fw.loads, mode, v6On, w.fw.clearDynamic);
    assert script[..|script|] == script;
    IpsetLoads(w.sets, w.fw.pendingSets, w.fw.loads, mode, v6On, w.fw.clearDynamic);
  }

  /** The state the restores start from. */
  function Based(w: World, mode: Mode, o: Oracle): World
  {
    Rebuild(Phase1(Phase0(w, mode, o), mode, o, V6On(w, o)).0, o, V6On(w, o))
  }

  /** A state between the sweep and the restores of an apply from `w`. */
  ghost predicate MidApply(w: World, mode: Mode, o: Oracle, v: World, cleaned: bool)
  {
    && v.fw == (var fw := w.fw.(prepared := false); if cleaned then fw.(active4 := None, active6 := None) else fw)
    && v.staged == w.staged
    && (forall v6 :: Tab(v, v6) == (if cleaned then CleanedTable(w, o, v6) else Tab(w, v6)))
    && (forall v6 :: Live(v, v6) == (if cleaned then None else Live(w, v6)))
  }

  lemma Phase0Exact(w: World, mode: Mode, o: Oracle)
    ensures var v := Phase0(w, mode, o);
            MidApply(w, mode, o, v, mode == Destructive) && v.sets == SetsBefore(w, mode, o)
  {
    hide RunClean, Sweep;
  }

  lemma RebuildExact(w: World, mode: Mode, o: Oracle, v: World)
    requires MidApply(w, mode, o, v, mode == Destructive)
    ensures MidApply(w, mode, o, Rebuild(v, o, V6On(w, o)), mode == Destructive || Rebuilds(w, mode, o))
    ensures Rebuild(v, o, V6On(w, o)).sets == v.sets
  {
    hide RunClean;
    assert Tab(v, false) == v.t4 && Tab(v, true) == v.t6;
    assert Live(v, false) == v.live4 && Live(v, true) == v.live6;
  }

  lemma BasedExact(w: World, mode: Mode, o: Oracle)
    requires WellStaged(w) && w.fw.prepared
    ensures var r1 := Phase1(Phase0(w, mode, o), mode, o, V6On(w, o));
            && (r1.1 <==> NotCut(w, mode, o))
            && (!r1.1 ==> MidApply(w, mode, o, r1.0, Cleans(w, mode, o)))
            && (r1.1 ==>
                  && MidApply(w, mode, o, Based(w, mode, o), Cleans(w, mode, o))
                  && forall n :: n in Based(w, mode, o).sets <==> Present(w, mode, o, n))
  {
    hide Phase1, Rebuild, RunClean, Sweep, IpsetScript, Pending, DispatchersSeen;
    var w0 := Phase0(w, mode, o);
    Phase0Exact(w, mode, o);
    assert WellStaged(w0);
    Phase1Exact(w0, mode, o, V6On(w, o));
    RebuildExact(w, mode, o, Phase1(w0, mode, o, V6On(w, o)).0);
  }

  lemma MidIsAlone(w: World, mode: Mode, o: Oracle, v: World, v6: bool)
    requires MidApply(w, mode, o, v, Cleans(w, mode, o))
    ensures LeftAlone(w, mode, o, v, v6)
  {
    hide CleanedTable, Cleans;
    assert Tab(v, v6) == StartTable(w, mode, o, v6);
    assert Live(v, v6) == if Cleans(w, mode, o) then None else Live(w, v6);
  }

  lemma BasedRestores(w: World, mode: Mode, o: Oracle, v: World, v6: bool)
    requires w.fw.prepared && LeftAlone(w, mode, o, v, v6) && SameStaging(w, v)
    requires forall n :: n in v.sets <==> Present(w, mode, o, n)
    ensures var r := RestoreFamily(v, v6, o);
            (r.1 <==> Restores(w, mode, o, v6)) && (r.1 ==> RunsStaging(w, mode, o, r.0, v6))
  {
    hide RestoreFamily, Present, Cleans, CleanedTable, Dispatchers, Installed;
    RestoreExact(v, v6, o);
    assert StagedContents(v.fw, v6) == StagedContents(w.fw, v6);
  }

  // ---------------------------------------------------------------- the whole apply

  lemma OtherFamilyStays(w: World, mode: Mode, o: Oracle, v: World, u: World, v6: bool)
    requires Tab(u, v6) == Tab(v, v6) && Live(u, v6) == Live(v, v6) && Active(u.fw, v6) == Active(v.fw, v6)
    ensures RunsStaging(w, mode, o, v, v6) ==> RunsStaging(w, mode, o, u, v6)
    ensures LeftAlone(w, mode, o, v, v6) ==> LeftAlone(w, mode, o, u, v6)
  {
    hide StartTable, StillActive, StagedActivation, Installed, Dispatchers, Cleans;
  }

  /** The staging part of the state, which no phase changes. */
  predicate SameStaging(w: World, v: World)
  {
    && v.staged == w.staged && v.fw.pendingRules == w.fw.pendingRules && v.fw.created == w.fw.created
    && v.fw.pf == w.fw.pf && v.fw.pendingSets == w.fw.pendingSets && v.fw.loads == w.fw.loads
    && v.fw.target4 == w.fw.target4 && v.fw.target6 == w.fw.target6
  }

  lemma MidStaging(w: World, mode: Mode, o: Oracle, v: World, cleaned: bool)
    requires MidApply(w, mode, o, v, cleaned)
    ensures SameStaging(w, v)
  {}

  lemma RestoreStaging(w: World, v: World, v6: bool, o: Oracle)
    requires SameStaging(w, v)
    ensures SameStaging(w, RestoreFamily(v, v6, o).0)
  {
    hide RestoreFamily;
    RestoreFrame(v, v6, o);
  }

  /** Both restores, one after the other. */
  lemma BothRestores(w: World, mode: Mode, o: Oracle)
    requires WellStaged(w) && w.fw.prepared && NotCut(w, mode, o)
    ensures var w2 := Based(w, mode, o);
            var r4 := RestoreFamily(w2, false, o);
            var r6 := RestoreFamily(r4.0, true, o);
            && SameStaging(w, w2)
            && (r4.1 <==> Restores(w, mode, o, false)) && (r6.1 <==> Restores(w, mode, o, true))
            && LeftAlone(w, mode, o, w2, false) && LeftAlone(w, mode, o, w2, true) && LeftAlone(w, mode, o, r4.0, true)
            && (!r4.1 ==> r4.0 == w2) && (!r6.1 ==> r6.0 == r4.0)
            && (r4.1 ==> RunsStaging(w, mode, o, r4.0, false) && RunsStaging(w, mode, o, r6.0, false))
            && (r6.1 ==> RunsStaging(w, mode, o, r6.0, true))
            && r4.0.sets == w2.sets && r6.0.sets == w2.sets
  {
    hide RestoreFamily, Present, Cleans, WellStaged, NotCut, Based, RunsStaging, LeftAlone, Restores, SameStaging,
      MidApply;
    BasedExact(w, mode, o);
    var w2 := Based(w, mode, o);
    MidIsAlone(w, mode, o, w2, false);
    MidIsAlone(w, mode, o, w2, true);
    MidStaging(w, mode, o, w2, Cleans(w, mode, o));
    BasedRestores(w, mode, o, w2, false);
    RestoreFrame(w2, false, o);
    RestoreUnchanged(w2, false, o);
    RestoreStaging(w, w2, false, o);
    var w4 := RestoreFamily(w2, false, o).0;
    OtherFamilyStays(w, mode, o, w2, w4, true);
    BasedRestores(w, mode, o, w4, true);
    RestoreFrame(w4, true, o);
    RestoreUnchanged(w4, true, o);
    OtherFamilyStays(w, mode, o, w4, RestoreFamily(w4, true, o).0, false);
  }

  lemma Phase2Exact(w: World, mode: Mode, o: Oracle)
    requires WellStaged(w) && w.fw.prepared && NotCut(w, mode, o)
    ensures var r := Phase2(Based(w, mode, o), o, V6On(w, o));
            && (r.1 <==> Succeeds(w, mode, o))
            && FamilyAfter(w, mode, o, r.0, false) && FamilyAfter(w, mode, o, r.0, true)
            && r.0.sets == Based(w, mode, o).sets
            && (Reaches6(Based(w, mode, o), o, V6On(w, o)) <==> Switches(w, mode, o, true))
  {
    hide RestoreFamily, WellStaged, NotCut, Based, RunsStaging, LeftAlone, Restores, V6On;
    BothRestores(w, mode, o);
    assert Based(w, mode, o).fw.pendingRules == w.fw.pendingRules;
  }

  lemma RestoreUnchanged(w: World, v6: bool, o: Oracle)
    ensures !RestoreFamily(w, v6, o).1 ==> RestoreFamily(w, v6, o).0 == w
  {
    hide IptScript, AtomicRestore, Switched;
  }

  /** The outcome of an apply, decided by the state and the command results before it:
      it returns normally exactly when `Succeeds`, and each family is switched to this
      staging exactly when `Switches`. */
  lemma ApplyExactly(w: World, mode: Mode, o: Oracle)
    requires WellStaged(w)
    ensures var r := Apply(w, mode, o);
            && (r.1 <==> Succeeds(w, mode, o))
            && FamilyAfter(w, mode, o, r.0, false) && FamilyAfter(w, mode, o, r.0, true)
  {
    hide Phase0, Phase1, Phase2, Rebuild, Restores, WellStaged, NotCut, RunsStaging, LeftAlone, CleanedTable;
    if w.fw.prepared {
      BasedExact(w, mode, o);
      if NotCut(w, mode, o) {
        Phase2Exact(w, mode, o);
        var v := Phase2(Based(w, mode, o), o, V6On(w, o)).0;
        OtherFamilyStays(w, mode, o, v, Cleared(v), false);
        OtherFamilyStays(w, mode, o, v, Cleared(v), true);
      } else {
        var v := Phase1(Phase0(w, mode, o), mode, o, V6On(w, o)).0;
        MidIsAlone(w, mode, o, v, false);
        MidIsAlone(w, mode, o, v, true);
      }
    } else {
      UnpreparedAlone(w, mode, o, false);
      UnpreparedAlone(w, mode, o, true);
    }
  }

  lemma UnpreparedAlone(w: World, mode: Mode, o: Oracle, v6: bool)
    requires !w.fw.prepared
    ensures LeftAlone(w, mode, o, w, v6)
  {}

  /** An apply that succeeds leaves IPv4, and IPv6 when it is wanted, running exactly what
      was staged. */
  lemma SuccessRunsThisStaging(w: World, mode: Mode, o: Oracle)
    requires WellStaged(w) && Apply(w, mode, o).1
    ensures var v := Apply(w, mode, o).0;
            && v.live4 == Some(StagedActivation(w, false)) && v.fw.active4 == Some(w.fw.target4)
            && Installed(v.t4, false, w.fw.target4, w.fw.pendingRules, w.fw.pf)
            && (Wants6(w, o) ==>
                  && v.live6 == Some(StagedActivation(w, true)) && v.fw.active6 == Some(w.fw.target6)
                  && Installed(v.t6, true, w.fw.target6, w.fw.pendingRules, w.fw.pf))
  {
    hide Apply, Restores, CleanedTable, Installed, WellStaged, NotCut, StagedActivation, Cleans, Dispatchers;
    ApplyExactly(w, mode, o);
  }

  // ---------------------------------------------------------------- stale IPv6 sets

  lemma RebuildSets(w: World, o: Oracle, v6On: bool)
    ensures Rebuild(w, o, v6On).sets == w.sets
  {
    hide RunClean, DispatchersSeen;
  }

  /** Only the sweep and the set phase change sets. */
  lemma ApplySets(w: World, mode: Mode, o: Oracle)
    requires WellStaged(w) && w.fw.prepared
    ensures Apply(w, mode, o).0.sets == Phase1(Phase0(w, mode, o), mode, o, V6On(w, o)).0.sets
  {
    hide Phase0, Phase1, Phase2, Rebuild, WellStaged, NotCut, FamilyAfter, Succeeds, Switches, MidApply, Present, V6On,
      Reaches6;
    BasedExact(w, mode, o);
    if NotCut(w, mode, o) {
      Phase2Exact(w, mode, o);
      RebuildSets(Phase1(Phase0(w, mode, o), mode, o, V6On(w, o)).0, o, V6On(w, o));
    }
  }

  /** With the IPv6 probe failing, the set phase passes over every IPv6 set. */
  lemma SkippedSets(w: World, mode: Mode, o: Oracle, n: SetName)
    requires WellStaged(w) && w.fw.prepared && n.v6 && !V6On(w, o)
    ensures SameSet(SetsBefore(w, mode, o), Apply(w, mode, o).0.sets, n)
  {
    hide RunIpset, IpsetScript, Apply, RunClean, Sweep, WellStaged;
    ApplySets(w, mode, o);
    Phase0Exact(w, mode, o);
    var w0 := Phase0(w, mode, o);
    var script := IpsetScript(w0.fw.pendingSets, w0.fw.loads, mode, V6On(w, o), w0.fw.clearDynamic);
    var cut := if o.ipsetCut.Some? && o.ipsetCut.value < |script| then o.ipsetCut.value else |script|;
    IpsetFrame(w0.sets, w0.fw.pendingSets, w0.fw.loads, mode, V6On(w, o), w0.fw.clearDynamic, cut, n);
  }

  /** Every staged IPv6 static set already holds what was staged for it. */
  ghost predicate AlreadyLoaded6(w: World, mode: Mode, o: Oracle)
  {
    forall n :: n in w.fw.pendingSets && n.Static? && n.v6 ==>
      n in SetsBefore(w, mode, o) && SetsBefore(w, mode, o)[n] == Contents(w.fw.loads, n)
  }

  /** IPv6 is enabled, its probe fails, its restore goes through all the same, and some
      skipped set did not already hold its entries. */
  ghost predicate GoesStale(w: World, mode: Mode, o: Oracle)
  {
    w.fw.ipv6 && !o.backend6 && Switches(w, mode, o, true) && !AlreadyLoaded6(w, mode, o)
  }

  lemma SkippedLoaded(w: World, mode: Mode, o: Oracle, sets: Sets)
    requires forall n: SetName :: n.v6 ==> SameSet(SetsBefore(w, mode, o), sets, n)
    ensures AlreadyLoaded6(w, mode, o) <==>
            forall n :: n in w.fw.pendingSets && n.Static? && n.v6 ==> n in sets && sets[n] == Contents(w.fw.loads, n)
  {
    hide Contents, SetsBefore;
    forall n: SetName | n.v6 ensures SameSet(SetsBefore(w, mode, o), sets, n) {}
  }

  /** A switched family is sound exactly when its static sets hold what was staged. */
  lemma SwitchedOkExactly(w: World, mode: Mode, o: Oracle, v: World, f: bool)
    requires WellStaged(w) && FamilyOk(w, f) && RunsStaging(w, mode, o, v, f) && Switches(w, mode, o, f)
    ensures FamilyOk(v, f) <==>
            forall n :: n in w.fw.pendingSets && n.Static? && n.v6 == f ==>
              n in v.sets && v.sets[n] == Contents(w.fw.loads, n)
  {
    hide Pending, Installed, StagedContents, Contents, Cleans, CleanedTable, NotCut, Present, Wants6;
    StagedContentsMeans(w, f);
    var act := StagedActivation(w, f);
    if FamilyOk(v, f) {
      forall n | n in w.fw.pendingSets && n.Static? && n.v6 == f
        ensures n in v.sets && v.sets[n] == Contents(w.fw.loads, n)
      {
        assert n in act.contents;
      }
    }
  }

  /** The IPv6 family after an apply, exactly: from a sound state it is sound again if and
      only if the apply does not go stale. */
  lemma SixSoundExactly(w: World, mode: Mode, o: Oracle)
    requires FamilyOk(w, true) && WellStaged(w) && Targeted(w, mode)
    ensures FamilyOk(Apply(w, mode, o).0, true) <==> !GoesStale(w, mode, o)
  {
    hide FamilyOk, WellStaged, Targeted, Apply, Phase0, Phase1, Phase2, Rebuild, Reaches6, RunsStaging, LeftAlone,
      SetsBefore, Contents, Restores, Succeeds, AlreadyLoaded6, SameSet;
    var v := Apply(w, mode, o).0;
    if w.fw.ipv6 && !o.backend6 && Switches(w, mode, o, true) {
      ApplyExactly(w, mode, o);
      forall n: SetName | n.v6 ensures SameSet(SetsBefore(w, mode, o), v.sets, n) { SkippedSets(w, mode, o, n); }
      SkippedLoaded(w, mode, o, v.sets);
      SwitchedOkExactly(w, mode, o, v, true);
    } else {
      if w.fw.prepared {
        BasedExact(w, mode, o);
        if NotCut(w, mode, o) { Phase2Exact(w, mode, o); }
      }
      ApplyKeepsFamily(w, mode, o, true);
    }
  }

  /** The IPv4 family is sound after every apply from a sound state. */
  lemma FourSound(w: World, mode: Mode, o: Oracle)
    requires FamilyOk(w, false) && WellStaged(w) && Targeted(w, mode)
    ensures FamilyOk(Apply(w, mode, o).0, false)
  {
    ApplyKeepsFamily(w, mode, o, false);
  }

  // ---------------------------------------------------------------- families left open

  /** The cleanup of this apply leaves the family's dispatcher hooked and filled. */
  predicate Misses(w: World, o: Oracle, v6: bool)
  {
    CleanupMisses(Tab(w, v6), if v6 then CLEANUP6_FIRST else 0, o.cleanupFails)
  }

  /** When a family ends up without an active generation but with rules that packets
      reach, exactly: it is not switched, its dispatcher was open, and the cleanup that
      took its generation away missed it, or there was no cleanup and it had none. */
  lemma LeftOpenExactly(w: World, mode: Mode, o: Oracle, v6: bool)
    requires WellStaged(w)
    ensures !Quiet(Apply(w, mode, o).0, v6) <==>
            && !Switches(w, mode, o, v6) && !Idle(Tab(w, v6))
            && (if Cleans(w, mode, o) then Misses(w, o, v6) else Active(w.fw, v6) == None)
  {
    hide Apply, Switches, Cleans, RunClean, WellStaged, Idle, CleanupMisses, Installed, Dispatchers;
    ApplyExactly(w, mode, o);
    CleanupIdlesExactly(Tab(w, v6), if v6 then CLEANUP6_FIRST else 0, o.cleanupFails);
    assert FamilyAfter(w, mode, o, Apply(w, mode, o).0, v6);
  }
}
