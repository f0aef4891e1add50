/** Runs of the generation swap: what packets meet in every run, which sets a failed
    refresh may disturb, and exactly which steps lose the guarantee. */
module SwapTheorems {
  import opened Common
  import opened Netfilter
  import opened RuleCompiler
  import opened DispatcherScript
  import opened Kernel
  import opened RestoreScript
  import opened ScriptRefs
  import opened GenerationSwap
  import opened ApplyOutcome

  // ---------------------------------------------------------------- runs

  function StagedFor(w: World, op: Op): World
    requires !op.Reload?
  {
    StageAll(Begin(w, op.settings, op.mode), op.rules)
  }

  lemma StagedForOk(w: World, op: Op)
    requires CreatedOk(w) && !op.Reload?
    ensures var v := StagedFor(w, op);
            && WellStaged(v) && Targeted(v, op.mode) && v.fw.prepared
            && v.sets == w.sets && v.t4 == w.t4 && v.t6 == w.t6 && v.live4 == w.live4 && v.live6 == w.live6
            && v.fw.active4 == w.fw.active4 && v.fw.active6 == w.fw.active6
            && v.fw.ipv6 == op.settings.ipv6 && v.fw.clearDynamic == op.settings.clearDynamic
            && v.fw.pf == op.settings.pf
            && v.fw.target4 == NextTarget(op.mode, w.fw.active4) && v.fw.target6 == NextTarget(op.mode, w.fw.active6)
  {
    hide WellStaged, StageAll;
    BeginOk(w, op.settings, op.mode);
    StageAllOk(Begin(w, op.settings, op.mode), op.rules);
  }

  lemma ApplyCreated(w: World, mode: Mode, o: Oracle)
    ensures Apply(w, mode, o).0.fw.created == w.fw.created
  {
    hide Phase0, Phase1, Rebuild, Phase2;
    var v6On := V6On(w, o);
    var w0 := Phase0(w, mode, o);
    var w1 := Phase1(w0, mode, o, v6On).0;
    PhasesCreated(w, mode, o, v6On);
    PhasesCreated(w0, mode, o, v6On);
    PhasesCreated(w1, mode, o, v6On);
    PhasesCreated(Rebuild(w1, o, v6On), mode, o, v6On);
  }

  lemma PhasesCreated(w: World, mode: Mode, o: Oracle, v6On: bool)
    ensures Phase0(w, mode, o).fw.created == w.fw.created
    ensures Phase1(w, mode, o, v6On).0.fw.created == w.fw.created
    ensures Rebuild(w, o, v6On).fw.created == w.fw.created
    ensures Phase2(w, o, v6On).0.fw.created == w.fw.created
  {
    hide RunClean, RunIpset, IpsetScript, RestoreFamily, Sweep, DispatchersSeen;
    RestoreFrame(w, false, o);
    RestoreFrame(RestoreFamily(w, false, o).0, true, o);
  }

  lemma StepCreated(w: World, op: Op)
    requires CreatedOk(w)
    ensures CreatedOk(Step(w, op))
  {
    hide StageAll, Apply;
    if !op.Reload? {
      StagedForOk(w, op);
      if op.Cycle? { ApplyCreated(StagedFor(w, op), op.mode, op.oracle); }
    }
  }

  /** A cycle that switches IPv6 over sets it skipped. */
  ghost predicate StaleStep(w: World, op: Op)
  {
    op.Cycle? && GoesStale(StagedFor(w, op), op.mode, op.oracle)
  }

  /** One step from a state in which the family is sound: IPv4 is always sound again, IPv6
      exactly when the step is not stale. */
  lemma StepSoundExactly(w: World, op: Op, v6: bool)
    requires FamilyOk(w, v6) && CreatedOk(w)
    ensures FamilyOk(Step(w, op), v6) <==> !(v6 && StaleStep(w, op))
  {
    hide StageAll, Apply, WellStaged, GoesStale, Targeted, Pending, Installed;
    if !op.Reload? {
      StagedForOk(w, op);
      FamilyAcrossStaging(w, StagedFor(w, op), v6);
      if op.Cycle? {
        if v6 {
          SixSoundExactly(StagedFor(w, op), op.mode, op.oracle);
        } else {
          FourSound(StagedFor(w, op), op.mode, op.oracle);
        }
      }
    }
  }

  ghost predicate NeverStale(w: World, ops: seq<Op>)
    decreases |ops|
  {
    ops == [] || (!StaleStep(w, ops[0]) && NeverStale(Step(w, ops[0]), ops[1..]))
  }

  /** In every run from a sound state, in any mode, with any external command failing at
      any point: each family with an active generation has a hooked chain whose static
      sets belong to that generation and hold exactly the entries staged by the apply
      that activated it. IPv6 needs that no step of the run is stale, IPv4 needs nothing. */
  lemma {:induction false} RunKeepsFamily(w: World, ops: seq<Op>, v6: bool)
    requires FamilyOk(w, v6) && CreatedOk(w) && (v6 ==> NeverStale(w, ops))
    ensures FamilyOk(Run(w, ops), v6) && CreatedOk(Run(w, ops))
    decreases |ops|
  {
    hide FamilyOk, CreatedOk, Step, StaleStep;
    if ops != [] {
      StepSoundExactly(w, ops[0], v6);
      StepCreated(w, ops[0]);
      RunKeepsFamily(Step(w, ops[0]), ops[1..], v6);
    }
  }

  /** Whenever the probe fails, the restore fails too. */
  ghost predicate ProbesAgree(ops: seq<Op>)
  {
    forall op :: op in ops && op.Cycle? && op.settings.ipv6 && !op.oracle.backend6 ==> !op.oracle.restore6
  }

  /** No step is stale if the probe always agrees with the restore that follows it. */
  lemma {:induction false} AgreeingProbesNeverStale(w: World, ops: seq<Op>)
    requires CreatedOk(w) && ProbesAgree(ops)
    ensures NeverStale(w, ops)
    decreases |ops|
  {
    hide CreatedOk, Step, Switches, AlreadyLoaded6, StageAll;
    if ops != [] {
      assert ops[0] in ops;
      if ops[0].Cycle? {
        StagedForOk(w, ops[0]);
        SwitchNeedsRestore(StagedFor(w, ops[0]), ops[0].mode, ops[0].oracle);
      }
      StepCreated(w, ops[0]);
      AgreeingProbesNeverStale(Step(w, ops[0]), ops[1..]);
    }
  }

  lemma SwitchNeedsRestore(w: World, mode: Mode, o: Oracle)
    ensures Switches(w, mode, o, true) ==> o.restore6
  {}

  lemma CleanStartSound(v6: bool)
    ensures FamilyOk(CLEAN_START, v6) && CreatedOk(CLEAN_START) && Quiet(CLEAN_START, v6)
  {}

  function GenChains(t: Table): (r: map<Generation, seq<Line>>)
  {
    map g: Generation | GenChain(g) in t.chains :: t.chains[GenChain(g)]
  }

  // ---------------------------------------------------------------- packets

  /** In every run (for IPv6, one without a stale step), a packet of a family with an active
      generation meets the rules of the apply that activated it, evaluated on the list
      contents that apply loaded. */
  lemma RunEnforcesActivation(ops: seq<Op>, p: Packet)
    requires p.v6 ==> NeverStale(CLEAN_START, ops)
    requires var w := Run(CLEAN_START, ops);
             && Active(w.fw, p.v6).Some? && Dispatcher in Tab(w, p.v6).chains
             && Live(w, p.v6).Some?
             && (forall r :: r in Live(w, p.v6).value.rules ==> Faithful(r.criteria, p.v6))
    ensures var w := Run(CLEAN_START, ops);
            var act := Live(w, p.v6).value;
            && EvalDispatcher(Tab(w, p.v6).chains[Dispatcher], GenChains(Tab(w, p.v6)), w.sets, p) ==
               Actual(act.rules, act.created, act.pf, w.sets + act.contents, p)
            && act.gen == Active(w.fw, p.v6).value && Tab(w, p.v6).hooks > 0
  {
    hide Run, Pending, Actual, GenLines, DispatcherLines, Faithful, EvalDispatcher, NeverStale;
    var w := Run(CLEAN_START, ops);
    CleanStartSound(p.v6);
    RunKeepsFamily(CLEAN_START, ops, p.v6);
    var act, t := Live(w, p.v6).value, Tab(w, p.v6);
    assert w.sets + act.contents == w.sets;
    ScriptMeansActual(act.rules, act.created, act.pf, w.sets, GenChains(t), act.gen, p);
  }

  // ---------------------------------------------------------------- references

  /** Lines that a packet arriving at PREROUTING can be matched against. */
  function ReachableLines(t: Table): (r: seq<Line>)
  {
    if Idle(t) then []
    else t.chains[Dispatcher] + JumpedLines(t, A) + JumpedLines(t, B)
  }

  function JumpedLines(t: Table, g: Generation): seq<Line>
    requires Dispatcher in t.chains
  {
    if GenChain(g) in t.chains && Line(Everything, Jump(g)) in t.chains[Dispatcher] then t.chains[GenChain(g)] else []
  }

  /** Any line of an installed dispatcher or of its chain names only sets of the activation. */
  lemma ActivationRefs(sets: Sets, t: Table, v6: bool, act: Activation, l: Line)
    requires LiveOk(sets, t, v6, act)
    requires l in DispatcherLines(Pending(act.rules, act.created), act.pf, v6, act.gen)
             || l in GenLines(Pending(act.rules, act.created), act.pf, v6)
    ensures l.target.Jump? ==> l.target.gen == act.gen
    ensures l.m.Selector? && l.m.set_.Some? && l.m.set_.value.Static? ==> l.m.set_.value in act.contents
  {
    hide Pending, FamilyLines, PrefilterLines, Installed;
    var pending := Pending(act.rules, act.created);
    if l in PrefilterLines(act.pf) {
      PrefilterHasNoSets(act.pf, l);
    } else if l in SpillLines(pending, act.pf, v6) {
      FamilyLinesRefs(Filter(pending, SpillsPending()), act.pf, v6, l);
      ActivationSet(sets, t, v6, act, l);
    } else if l in GenLines(pending, act.pf, v6) {
      FamilyLinesRefs(Filter(pending, StaysPending()), act.pf, v6, l);
      ActivationSet(sets, t, v6, act, l);
    }
  }

  lemma ActivationSet(sets: Sets, t: Table, v6: bool, act: Activation, l: Line)
    requires LiveOk(sets, t, v6, act) && l.m.Selector?
    requires exists pr :: pr in Pending(act.rules, act.created) && pr.v6 == v6 && l.m.set_ == pr.criteria.set_
    ensures l.m.set_.Some? && l.m.set_.value.Static? ==> l.m.set_.value in act.contents
  {
    hide Pending, Installed;
    var pr :| pr in Pending(act.rules, act.created) && pr.v6 == v6 && l.m.set_ == pr.criteria.set_;
    PendingRefs(act.rules, act.created, pr);
  }

  /** In every state kept quiet, each static set a family's live chain consults is of
      that family's active generation and holds exactly the loaded entries. */
  lemma LiveReferences(w: World, v6: bool, l: Line)
    requires FamilyOk(w, v6) && Quiet(w, v6) && l in ReachableLines(Tab(w, v6))
    requires l.m.Selector? && l.m.set_.Some? && l.m.set_.value.Static?
    ensures var n := l.m.set_.value;
            && Active(w.fw, v6) == Some(n.gen) && n.v6 == v6
            && Live(w, v6).Some? && n in Live(w, v6).value.contents
            && n in w.sets && w.sets[n] == Live(w, v6).value.contents[n]
  {
    hide Pending, GenLines, DispatcherLines;
    var t := Tab(w, v6);
    assert Active(w.fw, v6).Some?;
    var act := Live(w, v6).value;
    if l !in t.chains[Dispatcher] {
      var g := if l in JumpedLines(t, A) then A else B;
      ActivationRefs(w.sets, t, v6, act, Line(Everything, Jump(g)));
    }
    ActivationRefs(w.sets, t, v6, act, l);
  }

  // ---------------------------------------------------------------- quiet runs

  /** A cycle whose cleanup misses the family's open dispatcher and does not refill it. */
  predicate MissedStep(w: World, op: Op, v6: bool)
  {
    op.Cycle? &&
    var v := StagedFor(w, op);
    && Cleans(v, op.mode, op.oracle) && Misses(v, op.oracle, v6)
    && !Idle(Tab(v, v6)) && !Switches(v, op.mode, op.oracle, v6)
  }

  /** One step from a quiet family, exactly. */
  lemma StepQuietExactly(w: World, op: Op, v6: bool)
    requires Quiet(w, v6) && CreatedOk(w)
    ensures Quiet(Step(w, op), v6) <==> !MissedStep(w, op, v6)
  {
    hide StageAll, Apply, WellStaged, Cleans, Misses, Switches, Idle, Targeted;
    if op.Reload? {
      EmptyIsIdle();
    } else {
      StagedForOk(w, op);
      if op.Cycle? { LeftOpenExactly(StagedFor(w, op), op.mode, op.oracle, v6); }
    }
  }

  lemma EmptyIsIdle()
    ensures Idle(EMPTY_TABLE)
  {}

  ghost predicate NeverMissed(w: World, ops: seq<Op>, v6: bool)
    decreases |ops|
  {
    ops == [] || (!MissedStep(w, ops[0], v6) && NeverMissed(Step(w, ops[0]), ops[1..], v6))
  }

  lemma {:induction false} RunQuiet(w: World, ops: seq<Op>, v6: bool)
    requires Quiet(w, v6) && CreatedOk(w) && NeverMissed(w, ops, v6)
    ensures Quiet(Run(w, ops), v6)
    decreases |ops|
  {
    hide Quiet, CreatedOk, Step, MissedStep;
    if ops != [] {
      StepQuietExactly(w, ops[0], v6);
      StepCreated(w, ops[0]);
      RunQuiet(Step(w, ops[0]), ops[1..], v6);
    }
  }

  /** Every cleanup manages to flush the family's dispatcher. */
  ghost predicate FlushesWork(ops: seq<Op>, v6: bool)
  {
    forall op :: op in ops && op.Cycle? ==>
      (if v6 then CLEANUP6_FIRST else 0) + FLUSH_DISPATCHER_INDEX !in op.oracle.cleanupFails
  }

  lemma {:induction false} WorkingFlushesNeverMiss(w: World, ops: seq<Op>, v6: bool)
    requires FlushesWork(ops, v6)
    ensures NeverMissed(w, ops, v6)
    decreases |ops|
  {
    hide Step, Cleans, Switches, StageAll, Idle;
    if ops != [] {
      assert ops[0] in ops;
      WorkingFlushesNeverMiss(Step(w, ops[0]), ops[1..], v6);
    }
  }

  /** The headline: in every run whose steps are neither stale nor missed for the family,
      every reachable static set is of the active generation and complete. */
  lemma LiveReferencesInEveryRun(ops: seq<Op>, v6: bool, l: Line)
    requires (v6 ==> NeverStale(CLEAN_START, ops)) && NeverMissed(CLEAN_START, ops, v6)
    requires l in ReachableLines(Tab(Run(CLEAN_START, ops), v6))
    requires l.m.Selector? && l.m.set_.Some? && l.m.set_.value.Static?
    ensures var w := Run(CLEAN_START, ops);
            var n := l.m.set_.value;
            && Active(w.fw, v6) == Some(n.gen) && n.v6 == v6
            && Live(w, v6).Some? && n in Live(w, v6).value.contents
            && n in w.sets && w.sets[n] == Live(w, v6).value.contents[n]
  {
    hide Run, ReachableLines, NeverStale, NeverMissed, FamilyOk;
    CleanStartSound(v6);
    RunKeepsFamily(CLEAN_START, ops, v6);
    RunQuiet(CLEAN_START, ops, v6);
    LiveReferences(Run(CLEAN_START, ops), v6, l);
  }

  // ---------------------------------------------------------------- failed refreshes

  /** A failed non-destructive apply switches at most IPv4. It leaves the other chains
      alone, or closes them all when a dispatcher was missing, and every set that a live
      chain consults keeps its contents: partial data can only sit in an inactive
      generation. */
  lemma FailedRefreshIsInvisible(w: World, mode: Mode, o: Oracle)
    requires WellStaged(w) && Targeted(w, mode) && mode != Destructive && !Apply(w, mode, o).1
    ensures var v := Apply(w, mode, o).0;
            && LeftAlone(w, mode, o, v, true)
            && (LeftAlone(w, mode, o, v, false) || RunsStaging(w, mode, o, v, false))
            && (!Rebuilds(w, mode, o) ==> v.t6 == w.t6 && v.live6 == w.live6 && v.fw.active6 == w.fw.active6)
            && (!Rebuilds(w, mode, o) && v.fw.active4 != Some(w.fw.target4) ==>
                  v.t4 == w.t4 && v.live4 == w.live4 && v.fw.active4 == w.fw.active4)
            && (forall n: SetName :: n.Dynamic? ==> SameSet(w.sets, v.sets, n))
            && (forall n: SetName :: n.Static? && Active(w.fw, n.v6) == Some(n.gen) ==> SameSet(w.sets, v.sets, n))
  {
    hide Apply, Restores, Rebuilds, WellStaged, Targeted, SameSet, Installed, Dispatchers, Phase0, Phase1;
    ApplyExactly(w, mode, o);
    var v := Apply(w, mode, o).0;
    forall n: SetName | n.Dynamic? || Active(w.fw, n.v6) == Some(n.gen) ensures SameSet(w.sets, v.sets, n) {
      LiveSetsKept(w, mode, o, n);
    }
  }

  /** Whether or not it succeeds, a non-destructive apply does not touch a dynamic set or a
      static set of an active generation. */
  lemma LiveSetsKept(w: World, mode: Mode, o: Oracle, n: SetName)
    requires WellStaged(w) && Targeted(w, mode) && mode != Destructive
    requires n.Dynamic? || Active(w.fw, n.v6) == Some(n.gen)
    ensures SameSet(w.sets, Apply(w, mode, o).0.sets, n)
  {
    hide Phase1, Phase2, Pending, Rebuild;
    if w.fw.prepared {
      ApplySets(w, mode, o);
      Phase1Keeps(Phase0(w, mode, o), mode, o, V6On(w, o), n);
    }
  }

  // ---------------------------------------------------------------- lost guarantees

  /** A destructive apply whose cleanup misses IPv4, sweeps the sets and then cannot
      restore them: the old dispatcher is still hooked, a set it names is empty, and the
      daemon no longer counts any generation as active. */
  lemma MissedCleanupLeavesEmptySetsLive(w: World, o: Oracle, l: Line, n: SetName)
    requires WellStaged(w) && w.fw.prepared && !NotCut(w, Destructive, o) && o.ipsetCut == Some(0)
    requires w.t4.hooks > 0 && Dispatcher in w.t4.chains && l in w.t4.chains[Dispatcher]
    requires l.m.Selector? && l.m.set_ == Some(n) && n.Static?
    requires n in w.sets && n in o.kept && n in o.flushed && Misses(w, o, false)
    ensures var r := Apply(w, Destructive, o);
            && !r.1 && l in ReachableLines(r.0.t4) && n in r.0.sets && r.0.sets[n] == {}
            && r.0.fw.active4 == None && r.0.fw.active6 == None
  {
    hide Apply, Phase1, RunClean, WellStaged, Restores, IpsetScript, Installed;
    ApplyExactly(w, Destructive, o);
    CleanupEffect(w.t4, 0, o.cleanupFails);
    ApplySets(w, Destructive, o);
    NoSetsLoaded(Phase0(w, Destructive, o), Destructive, o, V6On(w, o));
  }

  lemma NoSetsLoaded(w: World, mode: Mode, o: Oracle, v6On: bool)
    requires o.ipsetCut == Some(0)
    ensures Phase1(w, mode, o, v6On).0.sets == w.sets
  {
    hide IpsetScript;
    var script := IpsetScript(w.fw.pendingSets, w.fw.loads, mode, v6On, w.fw.clearDynamic);
    assert script[..0] == [];
    RunNoIpset(w.sets);
  }

  // ---------------------------------------------------------------- what a refresh keeps and repairs

  lemma DynamicCommands(w: World, mode: Mode, v6On: bool, n: SetName, c: IpsetCmd)
    requires WellStaged(w) && n.Dynamic? && (mode != Destructive || !w.fw.clearDynamic)
    requires c in IpsetScript(w.fw.pendingSets, w.fw.loads, mode, v6On, w.fw.clearDynamic) && c.name == n
    ensures c.Create?
  {
    hide Pending, FlatMap;
    var f := SetCmdsFor(mode, v6On, w.fw.clearDynamic);
    FlatMapMember(w.fw.pendingSets, f, c);
    if c in FlatMap(w.fw.pendingSets, f) {
      var m :| m in w.fw.pendingSets && c in f(m);
    } else {
      LoadCommandName(w.fw.loads, v6On, c);
    }
  }

  lemma LoadCommandName(loads: seq<Load>, v6On: bool, c: IpsetCmd)
    requires c in FlatMap(loads, LoadCmdsFor(v6On))
    ensures exists l :: l in loads && l.name == c.name
  {
    hide FlatMap;
    FlatMapMember(loads, LoadCmdsFor(v6On), c);
    var l :| l in loads && c in LoadCmdsFor(v6On)(l);
    if Enabled(l.name, v6On) { MapMember(l.entries, ToAdd(l.name), c); }
  }

  /** Addresses that dnsmasq has resolved outlive a refresh: unless a destructive apply is told
      to clear them, a dynamic set keeps its entries, whatever fails. */
  lemma ResolvedAddressesSurvive(w: World, mode: Mode, o: Oracle, n: SetName)
    requires WellStaged(w) && n.Dynamic? && n in w.sets && (mode != Destructive || !w.fw.clearDynamic)
    ensures n in Apply(w, mode, o).0.sets && Apply(w, mode, o).0.sets[n] == w.sets[n]
  {
    hide RunIpset, IpsetScript, RunClean, WellStaged, Apply;
    if w.fw.prepared {
      ApplySets(w, mode, o);
      Phase0Exact(w, mode, o);
      var w0, v6On := Phase0(w, mode, o), V6On(w, o);
      var script := IpsetScript(w.fw.pendingSets, w.fw.loads, mode, v6On, w.fw.clearDynamic);
      var cut := if o.ipsetCut.Some? && o.ipsetCut.value < |script| then o.ipsetCut.value else |script|;
      forall c | c in script[..cut] && c.name == n ensures c.Create? {
        assert c in script;
        DynamicCommands(w, mode, v6On, n, c);
      }
      RunIpsetKeeps(w0.sets, script[..cut], n);
    } else {
      NotPrepared(w, mode, o);
    }
  }

  lemma NotPrepared(w: World, mode: Mode, o: Oracle)
    requires !w.fw.prepared
    ensures Apply(w, mode, o) == (w, false)
  {}

  /** The commands a refresh needs for switching both families. */
  predicate Works(o: Oracle) { o.ipsetCut == None && o.restore4 && o.restore6 && o.probe4 && o.probe6 }

  /** A refresh heals: whatever state the chains are in, emptied by an outside tool or half
      cleaned, an apply whose commands work succeeds and leaves both families running this
      staging, as long as the dynamic sets are there or are created. */
  lemma WorkingRefreshHeals(w: World, mode: Mode, o: Oracle)
    requires WellStaged(w) && w.fw.prepared && Works(o) && w.fw.ipv6 && o.backend6
    requires forall n :: n in w.fw.pendingSets && n.Dynamic? ==> mode == Destructive || n in w.sets
    ensures var r := Apply(w, mode, o);
            && r.1 && RunsStaging(w, mode, o, r.0, false) && RunsStaging(w, mode, o, r.0, true)
  {
    hide Apply, Pending, RunsStaging, RunClean, IpsetScript;
    ApplyExactly(w, mode, o);
    forall pr | pr in w.fw.pendingRules && pr.criteria.set_.Some? ensures Present(w, mode, o, pr.criteria.set_.value) {
      PendingRefs(w.staged, w.fw.created, pr);
    }
    assert NotCut(w, mode, o);
    assert Restores(w, mode, o, false) && Restores(w, mode, o, true);
  }
}
