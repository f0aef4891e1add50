/** The A/B generation swap of the iptables backend as a transition system: staging
    by the runtime driver, `prepare_apply`, and `apply` with every external command
    free to fail. The invariant is stated for one address family at a time. */
module GenerationSwap {
  import opened Common
  import opened Netfilter
  import opened RuleCompiler
  import opened DispatcherScript
  import opened Kernel
  import opened RestoreScript

  datatype Fw = Fw(
    pendingSets: seq<SetName>, loads: seq<Load>, pendingRules: seq<PendingRule>, created: map<SetName, bool>,
    active4: Option<Generation>, active6: Option<Generation>, target4: Generation, target6: Generation,
    prepared: bool, ipv6: bool, clearDynamic: bool, pf: Prefilter)

  /** What the apply that last switched a family had staged. */
  datatype Activation = Activation(
    gen: Generation, rules: seq<Rule>, created: map<SetName, bool>, pf: Prefilter, contents: map<SetName, set<Cidr>>)

  /** Daemon fields, kernel state, and the history needed to state the theorems. */
  datatype World = World(
    fw: Fw, sets: Sets, t4: Table, t6: Table,
    staged: seq<Rule>, live4: Option<Activation>, live6: Option<Activation>)

  function Active(fw: Fw, v6: bool): Option<Generation> { if v6 then fw.active6 else fw.active4 }
  function TargetGen(fw: Fw, v6: bool): Generation { if v6 then fw.target6 else fw.target4 }
  function Tab(w: World, v6: bool): Table { if v6 then w.t6 else w.t4 }
  function Live(w: World, v6: bool): Option<Activation> { if v6 then w.live6 else w.live4 }

  // ---------------------------------------------------------------- prepare and staging

  datatype Settings = Settings(ipv6: bool, clearDynamic: bool, pf: Prefilter)

  function NextTarget(mode: Mode, active: Option<Generation>): Generation
  {
    if mode == Destructive || active == None then A else Opposite(active.value)
  }

  function Prepare(fw: Fw, mode: Mode): Fw
  {
    fw.(pendingSets := [], loads := [], pendingRules := [], prepared := true,
        target4 := NextTarget(mode, fw.active4), target6 := NextTarget(mode, fw.active6))
  }

  function Begin(w: World, s: Settings, mode: Mode): World
  {
    w.(fw := Prepare(w.fw.(ipv6 := s.ipv6, clearDynamic := s.clearDynamic, pf := s.pf), mode), staged := [])
  }

  function CreateIpset(fw: Fw, n: SetName): Fw
  {
    fw.(pendingSets := if n in fw.pendingSets then fw.pendingSets else fw.pendingSets + [n],
        created := fw.created[n := n.v6])
  }

  function CreateRule(fw: Fw, r: Rule): Fw
  {
    fw.(pendingRules := fw.pendingRules + ByRule(fw.created)(r))
  }

  datatype ListUse = ListUse(name: string, entries: seq<Cidr>, hasDomains: bool)

  datatype RouteRule = RouteRule(action: Action, criteria: Criteria, lists: seq<ListUse>)

  predicate HasSelector(c: Criteria)
  {
    c.dscp.Some? || c.sport.ranges != [] || c.dport.ranges != [] || c.src != [] || c.dst != []
  }

  /** A mark rule without an allocated mark is not written. */
  function ApplyRule(w: World, rr: RouteRule, dst: Option<SetName>): World
  {
    if rr.action.Mark? && rr.action.value == 0 then w
    else
      var r := Rule(rr.action, rr.criteria.(set_ := dst));
      w.(fw := CreateRule(w.fw, r), staged := w.staged + [r])
  }

  function StageSet(w: World, n: SetName): World { w.(fw := CreateIpset(w.fw, n)) }

  function StageLoad(w: World, n: SetName, entries: seq<Cidr>): World
  {
    w.(fw := w.fw.(loads := w.fw.loads + [Load(n, entries)]))
  }

  function FourEntries(): Cidr -> bool { (c: Cidr) => !c.v6 }
  function SixEntries(): Cidr -> bool { (c: Cidr) => c.v6 }

  function StaticName(fw: Fw, v6: bool, list: string): SetName { Static(v6, TargetGen(fw, v6), list) }

  function StageStatic(w: World, l: ListUse): World
  {
    var s4, s6 := StaticName(w.fw, false, l.name), StaticName(w.fw, true, l.name);
    var w1 := StageLoad(StageSet(w, s4), s4, Filter(l.entries, FourEntries()));
    if w.fw.ipv6 then StageLoad(StageSet(w1, s6), s6, Filter(l.entries, SixEntries())) else w1
  }

  function StageDynamic(w: World, l: ListUse): World
  {
    var w1 := StageSet(w, Dynamic(false, l.name));
    if w.fw.ipv6 then StageSet(w1, Dynamic(true, l.name)) else w1
  }

  function RulePair(w: World, rr: RouteRule, n4: SetName, n6: SetName): World
  {
    var w1 := ApplyRule(w, rr, Some(n4));
    if w.fw.ipv6 then ApplyRule(w1, rr, Some(n6)) else w1
  }

  function StageList(w: World, rr: RouteRule, l: ListUse): World
  {
    var w1 := if l.entries != [] then StageStatic(w, l) else w;
    var w2 := if l.hasDomains then StageDynamic(w1, l) else w1;
    var w3 := if l.entries != []
              then RulePair(w2, rr, StaticName(w.fw, false, l.name), StaticName(w.fw, true, l.name)) else w2;
    if l.hasDomains then RulePair(w3, rr, Dynamic(false, l.name), Dynamic(true, l.name)) else w3
  }

  function StageLists(w: World, rr: RouteRule, lists: seq<ListUse>): World
    decreases |lists|
  {
    if lists == [] then w else StageLists(StageList(w, rr, lists[0]), rr, lists[1..])
  }

  function StageRule(w: World, rr: RouteRule): World
  {
    var w1 := StageLists(w, rr, rr.lists);
    if (forall l :: l in rr.lists ==> l.entries == [] && !l.hasDomains) && HasSelector(rr.criteria)
    then ApplyRule(w1, rr, None) else w1
  }

  /** The driver loop over route rules. */
  function StageAll(w: World, rules: seq<RouteRule>): World
    decreases |rules|
  {
    if rules == [] then w else StageAll(StageRule(w, rules[0]), rules[1..])
  }

  // ---------------------------------------------------------------- apply

  /** How the external commands of one apply turn out. */
  datatype Oracle = Oracle(
    backend6: bool,              // the IPv6 backend probe
    probe4: bool, probe6: bool,  // listing the dispatcher chains
    cleanupFails: set<nat>,      // ignored failures of cleanup commands, by position
    kept: set<SetName>, flushed: set<SetName>, // sets a sweep could not destroy, and of those the ones it emptied
    ipsetCut: Option<nat>,       // ipset restore stops after this many commands
    restore4: bool, restore6: bool)

  /** `ipset flush` and `destroy` over the daemon's sets. */
  function Sweep(sets: Sets, o: Oracle, preserveDynamic: bool): Sets
  {
    map n | n in sets && ((n.Dynamic? && preserveDynamic) || n in o.kept) ::
      if n.Dynamic? && preserveDynamic then sets[n] else if n in o.flushed then {} else sets[n]
  }

  function CleanupRules(w: World, o: Oracle): World
  {
    w.(t4 := RunClean(w.t4, CLEANUP_CMDS, 0, o.cleanupFails),
       t6 := RunClean(w.t6, CLEANUP_CMDS, CLEANUP6_FIRST, o.cleanupFails),
       fw := w.fw.(active4 := None, active6 := None), live4 := None, live6 := None)
  }

  function Phase0(w: World, mode: Mode, o: Oracle): World
  {
    var w1 := w.(fw := w.fw.(prepared := false));
    if mode == Destructive
    then CleanupRules(w1, o).(sets := Sweep(w1.sets, o, !w.fw.clearDynamic)) else w1
  }

  function Phase1(w: World, mode: Mode, o: Oracle, v6On: bool): (World, bool)
  {
    var script := IpsetScript(w.fw.pendingSets, w.fw.loads, mode, v6On, w.fw.clearDynamic);
    var cut := if o.ipsetCut.Some? && o.ipsetCut.value < |script| then o.ipsetCut.value else |script|;
    var r := RunIpset(w.sets, script[..cut]);
    (w.(sets := r.0), r.1 && cut == |script|)
  }

  predicate DispatchersSeen(w: World, v6: bool, o: Oracle)
  {
    Dispatchers(Tab(w, v6)) && (if v6 then o.probe6 else o.probe4)
  }

  function Rebuild(w: World, o: Oracle, v6On: bool): World
  {
    if (w.fw.active4.Some? && !DispatchersSeen(w, false, o))
       || (v6On && w.fw.active6.Some? && !DispatchersSeen(w, true, o))
    then CleanupRules(w, o) else w
  }

  function StagedContents(fw: Fw, v6: bool): (r: map<SetName, set<Cidr>>)
  {
    map n | n in fw.pendingSets && n.Static? && n.v6 == v6 :: Contents(fw.loads, n)
  }

  function Switched(w: World, v6: bool, t: Table): World
  {
    var g := TargetGen(w.fw, v6);
    var act := Activation(g, w.staged, w.fw.created, w.fw.pf, StagedContents(w.fw, v6));
    if v6 then w.(t6 := t, fw := w.fw.(active6 := Some(g)), live6 := Some(act))
    else w.(t4 := t, fw := w.fw.(active4 := Some(g)), live4 := Some(act))
  }

  function RestoreFamily(w: World, v6: bool, o: Oracle): (World, bool)
  {
    var script := IptScript(v6, TargetGen(w.fw, v6), Active(w.fw, v6).Some?, w.fw.pendingRules, w.fw.pf);
    match AtomicRestore(Tab(w, v6), w.sets, script, if v6 then o.restore6 else o.restore4)
    case None => (w, false)
    case Some(t) => (Switched(w, v6, t), true)
  }

  function Phase2(w: World, o: Oracle, v6On: bool): (World, bool)
  {
    var r4 := RestoreFamily(w, false, o);
    if !r4.1 then r4
    else if v6On || exists pr :: pr in w.fw.pendingRules && pr.v6 then RestoreFamily(r4.0, true, o)
    else r4
  }

  function V6On(w: World, o: Oracle): bool { w.fw.ipv6 && o.backend6 }

  /** The phases of `apply` up to the dispatcher switch. */
  function Phases(w: World, mode: Mode, o: Oracle): (World, bool)
  {
    var r1 := Phase1(Phase0(w, mode, o), mode, o, V6On(w, o));
    if !r1.1 then r1 else Phase2(Rebuild(r1.0, o, V6On(w, o)), o, V6On(w, o))
  }

  function Cleared(w: World): World
  {
    w.(fw := w.fw.(pendingSets := [], loads := [], pendingRules := []))
  }

  /** `apply`; the flag tells whether it returned without throwing. */
  function Apply(w: World, mode: Mode, o: Oracle): (World, bool)
  {
    if !w.fw.prepared then (w, false)
    else
      var r := Phases(w, mode, o);
      if !r.1 then r else (Cleared(r.0), true)
  }

  // ---------------------------------------------------------------- runs

  datatype Op =
    | Cycle(settings: Settings, mode: Mode, rules: seq<RouteRule>, oracle: Oracle)
    | Abandon(settings: Settings, mode: Mode, rules: seq<RouteRule>)  // staging threw before apply
    | Reload(v6: bool)                                                // an outside tool emptied the table

  const CLEAN_FW := Fw([], [], [], map[], None, None, A, A, false, true, true, Prefilter([], false, false, false, 0))
  const CLEAN_START := World(CLEAN_FW, map[], EMPTY_TABLE, EMPTY_TABLE, [], None, None)

  function Step(w: World, op: Op): World
  {
    match op
    case Cycle(s, mode, rules, o) => Apply(StageAll(Begin(w, s, mode), rules), mode, o).0
    case Abandon(s, mode, rules) => StageAll(Begin(w, s, mode), rules)
    case Reload(v6) => if v6 then w.(t6 := EMPTY_TABLE) else w.(t4 := EMPTY_TABLE)
  }

  function Run(w: World, ops: seq<Op>): World
    decreases |ops|
  {
    if ops == [] then w else Run(Step(w, ops[0]), ops[1..])
  }

  // ---------------------------------------------------------------- invariants

  /** What staging guarantees to `apply`. */
  ghost predicate WellStaged(w: World)
  {
    && (forall n :: n in w.fw.pendingSets ==>
          && n in w.fw.created
          && (n.Static? ==> n.gen == TargetGen(w.fw, n.v6))
          && (n.v6 ==> w.fw.ipv6))
    && (forall l :: l in w.fw.loads ==> l.name in w.fw.pendingSets && l.name.Static?)
    && (forall n :: n in w.fw.created ==> w.fw.created[n] == n.v6)
    && (forall r :: r in w.staged && r.criteria.set_.Some? ==> r.criteria.set_.value in w.fw.pendingSets)
    && w.fw.pendingRules == Pending(w.staged, w.fw.created)
  }

  /** The live chain of a family and the static sets it consults are those of one activation. */
  ghost predicate LiveOk(sets: Sets, t: Table, v6: bool, act: Activation)
  {
    && (Dispatcher in t.chains ==> Installed(t, v6, act.gen, Pending(act.rules, act.created), act.pf) && t.hooks > 0)
    && (forall n :: n in act.contents ==>
          n.Static? && n.v6 == v6 && n.gen == act.gen && n in sets && sets[n] == act.contents[n])
    && (forall r :: r in act.rules && r.criteria.set_.Some? ==>
          var n := r.criteria.set_.value;
          && n in act.created && act.created[n] == n.v6
          && (n.Static? && n.v6 == v6 ==> n in act.contents))
  }

  ghost predicate FamilyOk(w: World, v6: bool)
  {
    Active(w.fw, v6).Some? ==>
      && Live(w, v6).Some? && Live(w, v6).value.gen == Active(w.fw, v6).value
      && LiveOk(w.sets, Tab(w, v6), v6, Live(w, v6).value)
  }

  ghost predicate CreatedOk(w: World)
  {
    forall n :: n in w.fw.created ==> w.fw.created[n] == n.v6
  }

  /** A family without an active generation has no rule a packet can reach. */
  predicate Quiet(w: World, v6: bool)
  {
    Active(w.fw, v6) == None ==> Idle(Tab(w, v6))
  }

  // ---------------------------------------------------------------- staging proofs

  lemma {:induction false} PendingIgnoresNewSets(rules: seq<Rule>, created: map<SetName, bool>,
                                                 more: map<SetName, bool>)
    requires forall n :: n in created ==> n in more && more[n] == created[n]
    requires forall r :: r in rules && r.criteria.set_.Some? ==> r.criteria.set_.value in created
    ensures Pending(rules, created) == Pending(rules, more)
  {
    hide Expand;
    if rules != [] {
      assert rules[0] in rules;
      assert Families(created, rules[0].criteria) == Families(more, rules[0].criteria);
      PendingIgnoresNewSets(rules[1..], created, more);
    }
  }

  lemma StageSetOk(w: World, n: SetName)
    requires WellStaged(w) && (n.Static? ==> n.gen == TargetGen(w.fw, n.v6)) && (n.v6 ==> w.fw.ipv6)
    ensures WellStaged(StageSet(w, n)) && n in StageSet(w, n).fw.pendingSets
    ensures forall m :: m in w.fw.pendingSets ==> m in StageSet(w, n).fw.pendingSets
  {
    hide Pending;
    PendingIgnoresNewSets(w.staged, w.fw.created, w.fw.created[n := n.v6]);
  }

  lemma StageLoadOk(w: World, n: SetName, entries: seq<Cidr>)
    requires WellStaged(w) && n in w.fw.pendingSets && n.Static?
    ensures WellStaged(StageLoad(w, n, entries))
  {
    hide Pending;
  }

  lemma ApplyRuleOk(w: World, rr: RouteRule, dst: Option<SetName>)
    requires WellStaged(w) && (dst.Some? ==> dst.value in w.fw.pendingSets)
    ensures WellStaged(ApplyRule(w, rr, dst))
  {
    hide Expand, Families, FlatMap;
    if !(rr.action.Mark? && rr.action.value == 0) {
      var r := Rule(rr.action, rr.criteria.(set_ := dst));
      FlatMapAppend(w.staged, [r], ByRule(w.fw.created));
      FlatMapOne(r, ByRule(w.fw.created));
    }
  }

  predicate SameRun(w: World, v: World)
  {
    && v.sets == w.sets && v.t4 == w.t4 && v.t6 == w.t6 && v.live4 == w.live4 && v.live6 == w.live6
    && v.fw.active4 == w.fw.active4 && v.fw.active6 == w.fw.active6
    && v.fw.target4 == w.fw.target4 && v.fw.target6 == w.fw.target6
    && v.fw.ipv6 == w.fw.ipv6 && v.fw.prepared == w.fw.prepared && v.fw.clearDynamic == w.fw.clearDynamic
    && v.fw.pf == w.fw.pf
  }

  lemma StageListOk(w: World, rr: RouteRule, l: ListUse)
    requires WellStaged(w)
    ensures WellStaged(StageList(w, rr, l)) && SameRun(w, StageList(w, rr, l))
  {
    hide WellStaged, CreateRule;
    var s4, s6 := StaticName(w.fw, false, l.name), StaticName(w.fw, true, l.name);
    var d4, d6 := Dynamic(false, l.name), Dynamic(true, l.name);
    var w1 := if l.entries != [] then StageStatic(w, l) else w;
    if l.entries != [] { StageStaticOk(w, l); }
    var w2 := if l.hasDomains then StageDynamic(w1, l) else w1;
    if l.hasDomains { StageDynamicOk(w1, l); }
    var w3 := if l.entries != [] then RulePair(w2, rr, s4, s6) else w2;
    if l.entries != [] { RulePairOk(w2, rr, s4, s6); }
    if l.hasDomains { RulePairOk(w3, rr, d4, d6); }
  }

  lemma StageStaticOk(w: World, l: ListUse)
    requires WellStaged(w)
    ensures var v := StageStatic(w, l);
            && WellStaged(v) && SameRun(w, v)
            && StaticName(w.fw, false, l.name) in v.fw.pendingSets
            && (w.fw.ipv6 ==> StaticName(w.fw, true, l.name) in v.fw.pendingSets)
  {
    hide WellStaged;
    var s4, s6 := StaticName(w.fw, false, l.name), StaticName(w.fw, true, l.name);
    StageSetOk(w, s4);
    StageLoadOk(StageSet(w, s4), s4, Filter(l.entries, FourEntries()));
    var w1 := StageLoad(StageSet(w, s4), s4, Filter(l.entries, FourEntries()));
    if w.fw.ipv6 {
      StageSetOk(w1, s6);
      StageLoadOk(StageSet(w1, s6), s6, Filter(l.entries, SixEntries()));
    }
  }

  lemma StageDynamicOk(w: World, l: ListUse)
    requires WellStaged(w)
    ensures var v := StageDynamic(w, l);
            && WellStaged(v) && SameRun(w, v)
            && Dynamic(false, l.name) in v.fw.pendingSets
            && (w.fw.ipv6 ==> Dynamic(true, l.name) in v.fw.pendingSets)
            && (forall m :: m in w.fw.pendingSets ==> m in v.fw.pendingSets)
  {
    hide WellStaged;
    StageSetOk(w, Dynamic(false, l.name));
    if w.fw.ipv6 { StageSetOk(StageSet(w, Dynamic(false, l.name)), Dynamic(true, l.name)); }
  }

  lemma RulePairOk(w: World, rr: RouteRule, n4: SetName, n6: SetName)
    requires WellStaged(w) && n4 in w.fw.pendingSets && (w.fw.ipv6 ==> n6 in w.fw.pendingSets)
    ensures var v := RulePair(w, rr, n4, n6);
            WellStaged(v) && SameRun(w, v) && v.fw.pendingSets == w.fw.pendingSets
  {
    hide WellStaged;
    ApplyRuleOk(w, rr, Some(n4));
    if w.fw.ipv6 { ApplyRuleOk(ApplyRule(w, rr, Some(n4)), rr, Some(n6)); }
  }

  lemma {:induction false} StageListsOk(w: World, rr: RouteRule, lists: seq<ListUse>)
    requires WellStaged(w)
    ensures WellStaged(StageLists(w, rr, lists)) && SameRun(w, StageLists(w, rr, lists))
    decreases |lists|
  {
    hide WellStaged, StageList;
    if lists != [] {
      StageListOk(w, rr, lists[0]);
      StageListsOk(StageList(w, rr, lists[0]), rr, lists[1..]);
    }
  }

  /** Whatever the route rules, the driver hands `apply` a well-staged firewall and
      changes nothing in the kernel. */
  lemma StageRuleOk(w: World, rr: RouteRule)
    requires WellStaged(w)
    ensures WellStaged(StageRule(w, rr)) && SameRun(w, StageRule(w, rr))
  {
    hide WellStaged, StageLists;
    StageListsOk(w, rr, rr.lists);
    ApplyRuleOk(StageLists(w, rr, rr.lists), rr, None);
  }

  lemma {:induction false} StageAllOk(w: World, rules: seq<RouteRule>)
    requires WellStaged(w)
    ensures WellStaged(StageAll(w, rules)) && SameRun(w, StageAll(w, rules))
    decreases |rules|
  {
    hide WellStaged, StageRule;
    if rules != [] {
      StageRuleOk(w, rules[0]);
      StageAllOk(StageRule(w, rules[0]), rules[1..]);
    }
  }

  lemma BeginOk(w: World, s: Settings, mode: Mode)
    requires CreatedOk(w)
    ensures WellStaged(Begin(w, s, mode))
  {}

  // ---------------------------------------------------------------- apply proofs

  predicate TargetOk(fw: Fw, mode: Mode, v6: bool)
  {
    mode == Destructive || Active(fw, v6) == None || TargetGen(fw, v6) == Opposite(Active(fw, v6).value)
  }

  /** `prepare_apply` and the mode passed to `apply` agree. */
  predicate Targeted(w: World, mode: Mode) { TargetOk(w.fw, mode, false) && TargetOk(w.fw, mode, true) }

  /** Outside a destructive apply, no script command names a static set of an active
      generation or a dynamic set. */
  lemma ActiveSetsUntouched(w: World, mode: Mode, v6On: bool, n: SetName)
    requires WellStaged(w) && Targeted(w, mode) && mode != Destructive
    requires n.Dynamic? || Active(w.fw, n.v6) == Some(n.gen)
    ensures !Touches(w.fw.pendingSets, w.fw.loads, mode, v6On, n)
  {
    hide Pending;
  }

  lemma Phase1Keeps(w: World, mode: Mode, o: Oracle, v6On: bool, n: SetName)
    requires WellStaged(w) && Targeted(w, mode) && mode != Destructive
    requires n.Dynamic? || Active(w.fw, n.v6) == Some(n.gen)
    ensures SameSet(w.sets, Phase1(w, mode, o, v6On).0.sets, n)
  {
    hide WellStaged, RunIpset, IpsetScript, Touches;
    ActiveSetsUntouched(w, mode, v6On, n);
    var script := IpsetScript(w.fw.pendingSets, w.fw.loads, mode, v6On, w.fw.clearDynamic);
    var cut := if o.ipsetCut.Some? && o.ipsetCut.value < |script| then o.ipsetCut.value else |script|;
    IpsetFrame(w.sets, w.fw.pendingSets, w.fw.loads, mode, v6On, w.fw.clearDynamic, cut, n);
  }

  lemma Phase1Ok(w: World, mode: Mode, o: Oracle, v6On: bool, f: bool)
    requires FamilyOk(w, f) && WellStaged(w) && Targeted(w, mode)
    requires mode == Destructive ==> Active(w.fw, f) == None
    ensures FamilyOk(Phase1(w, mode, o, v6On).0, f)
  {
    hide Pending, RunIpset, IpsetScript, Installed, WellStaged;
    var v := Phase1(w, mode, o, v6On).0;
    if Active(w.fw, f).Some? {
      forall n | n in Live(w, f).value.contents ensures SameSet(w.sets, v.sets, n) {
        Phase1Keeps(w, mode, o, v6On, n);
      }
    }
  }

  lemma Phase1Loads(w: World, mode: Mode, o: Oracle, v6On: bool)
    requires WellStaged(w) && Phase1(w, mode, o, v6On).1
    ensures forall n :: n in w.fw.pendingSets && n.Static? && Enabled(n, v6On) ==>
              n in Phase1(w, mode, o, v6On).0.sets && Phase1(w, mode, o, v6On).0.sets[n] == Contents(w.fw.loads, n)
  {
    hide Pending, RunIpset, IpsetScript;
    var script := IpsetScript(w.fw.pendingSets, w.fw.loads, mode, v6On, w.fw.clearDynamic);
    assert script[..|script|] == script;
    IpsetLoads(w.sets, w.fw.pendingSets, w.fw.loads, mode, v6On, w.fw.clearDynamic);
  }

  /** The static sets of a family hold what was staged for it. */
  ghost predicate Loaded(w: World, v6: bool)
  {
    forall n :: n in w.fw.pendingSets && n.Static? && n.v6 == v6 ==> n in w.sets && w.sets[n] == Contents(w.fw.loads, n)
  }

  /** A family switched over loaded sets satisfies its invariant. */
  lemma SwitchOk(w: World, v6: bool, o: Oracle)
    requires FamilyOk(w, v6) && WellStaged(w) && RestoreFamily(w, v6, o).1 && Loaded(w, v6)
    ensures FamilyOk(RestoreFamily(w, v6, o).0, v6)
  {
    hide Pending, RunRestore, IptScript, Installed, StagedContents, SetsExist, Contents;
    IptScriptInstalls(Tab(w, v6), v6, TargetGen(w.fw, v6), Active(w.fw, v6).Some?, w.fw.pendingRules, w.fw.pf);
    StagedContentsMeans(w, v6);
    var v := RestoreFamily(w, v6, o).0;
    assert LiveOk(v.sets, Tab(v, v6), v6, Live(v, v6).value);
  }

  lemma RestoreKeepsOther(w: World, v6: bool, o: Oracle)
    requires WellStaged(w)
    ensures var r := RestoreFamily(w, v6, o);
            && WellStaged(r.0) && (!r.1 ==> r.0 == w)
            && (FamilyOk(w, !v6) ==> FamilyOk(r.0, !v6))
  {
    hide Pending, AtomicRestore, IptScript, Installed, StagedContents, Contents;
  }

  /** A restore of family `v6` keeps the invariant of family `f`, provided that the sets
      of a family that is switched are loaded. */
  lemma RestoreOk(w: World, v6: bool, o: Oracle, f: bool)
    requires FamilyOk(w, f) && WellStaged(w) && (v6 == f && RestoreFamily(w, v6, o).1 ==> Loaded(w, f))
    ensures FamilyOk(RestoreFamily(w, v6, o).0, f) && WellStaged(RestoreFamily(w, v6, o).0)
  {
    hide FamilyOk, WellStaged, RestoreFamily;
    RestoreKeepsOther(w, v6, o);
    if v6 == f && RestoreFamily(w, v6, o).1 { SwitchOk(w, v6, o); }
  }

  lemma StagedContentsMeans(w: World, v6: bool)
    ensures forall n :: n in StagedContents(w.fw, v6) <==> n in w.fw.pendingSets && n.Static? && n.v6 == v6
    ensures forall n :: n in StagedContents(w.fw, v6) ==> StagedContents(w.fw, v6)[n] == Contents(w.fw.loads, n)
  {}

  lemma CleanupOk(w: World, o: Oracle, f: bool)
    requires WellStaged(w)
    ensures FamilyOk(CleanupRules(w, o), f) && WellStaged(CleanupRules(w, o))
  {
    hide RunClean, Pending;
  }

  lemma Phase0Ok(w: World, mode: Mode, o: Oracle, f: bool)
    requires FamilyOk(w, f) && WellStaged(w) && Targeted(w, mode)
    ensures var v := Phase0(w, mode, o);
            && FamilyOk(v, f) && WellStaged(v) && Targeted(v, mode)
            && (mode == Destructive ==> v.fw.active4 == None && v.fw.active6 == None)
  {
    hide Pending, Installed, RunClean, Sweep;
  }

  lemma Phase1Stays(w: World, mode: Mode, o: Oracle, v6On: bool)
    requires WellStaged(w)
    ensures var r := Phase1(w, mode, o, v6On);
            WellStaged(r.0) && (r.1 ==> Loaded(r.0, false) && (v6On || !w.fw.ipv6 ==> Loaded(r.0, true)))
  {
    hide Pending, RunIpset, IpsetScript;
    if Phase1(w, mode, o, v6On).1 { Phase1Loads(w, mode, o, v6On); }
  }

  lemma RebuildOk(w: World, o: Oracle, v6On: bool, f: bool)
    requires FamilyOk(w, f) && WellStaged(w)
    ensures var v := Rebuild(w, o, v6On);
            FamilyOk(v, f) && WellStaged(v) && (Loaded(w, f) ==> Loaded(v, f))
  {
    hide RunClean, Pending, Contents, Installed;
    CleanupOk(w, o, f);
  }

  /** The IPv6 restore is reached and goes through. */
  predicate Reaches6(w: World, o: Oracle, v6On: bool)
  {
    && RestoreFamily(w, false, o).1 && (v6On || exists pr :: pr in w.fw.pendingRules && pr.v6)
    && RestoreFamily(RestoreFamily(w, false, o).0, true, o).1
  }

  lemma Phase2Ok(w: World, o: Oracle, v6On: bool, f: bool)
    requires FamilyOk(w, f) && WellStaged(w)
    requires Loaded(w, f) || (f && !Reaches6(w, o, v6On))
    ensures FamilyOk(Phase2(w, o, v6On).0, f)
  {
    hide FamilyOk, WellStaged, IptScript;
    var w4 := RestoreFamily(w, false, o).0;
    RestoreOk(w, false, o, f);
    if f && !Reaches6(w, o, v6On) && !RestoreFamily(w4, true, o).1 {
      RestoreOk(w4, true, o, f);
    } else if !f || Reaches6(w, o, v6On) {
      RestoreOk(w4, true, o, f);
    }
  }

  lemma FamilyIgnoresPending(w: World, f: bool)
    requires FamilyOk(w, f)
    ensures FamilyOk(Cleared(w), f)
  {
    hide Pending, Installed;
  }

  /** One apply keeps the invariant of a family, however its commands fare, provided that
      a family it switches had its sets loaded. */
  lemma ApplyKeepsFamily(w: World, mode: Mode, o: Oracle, f: bool)
    requires FamilyOk(w, f) && WellStaged(w) && Targeted(w, mode)
    requires var r1 := Phase1(Phase0(w, mode, o), mode, o, V6On(w, o));
             f && w.fw.ipv6 && !o.backend6 && w.fw.prepared && r1.1 ==>
               !Reaches6(Rebuild(r1.0, o, V6On(w, o)), o, V6On(w, o))
    ensures FamilyOk(Apply(w, mode, o).0, f)
  {
    hide FamilyOk, WellStaged, Phase0, Phase1, Phase2, Rebuild, Targeted, Loaded, Reaches6, Cleared;
    if w.fw.prepared {
      var v6On := V6On(w, o);
      var w0 := Phase0(w, mode, o);
      Phase0Ok(w, mode, o, f);
      Phase0Settings(w, mode, o);
      Phase1Ok(w0, mode, o, v6On, f);
      Phase1Stays(w0, mode, o, v6On);
      var r1 := Phase1(w0, mode, o, v6On);
      if r1.1 {
        RebuildOk(r1.0, o, v6On, f);
        var w1 := Rebuild(r1.0, o, v6On);
        Phase2Ok(w1, o, v6On, f);
        if Phase2(w1, o, v6On).1 { FamilyIgnoresPending(Phase2(w1, o, v6On).0, f); }
      }
    }
  }

  lemma Phase0Settings(w: World, mode: Mode, o: Oracle)
    ensures Phase0(w, mode, o).fw.ipv6 == w.fw.ipv6
  {}

  lemma FamilyAcrossStaging(w: World, v: World, f: bool)
    requires FamilyOk(w, f)
    requires v.sets == w.sets && v.t4 == w.t4 && v.t6 == w.t6 && v.live4 == w.live4 && v.live6 == w.live6
    requires v.fw.active4 == w.fw.active4 && v.fw.active6 == w.fw.active6
    ensures FamilyOk(v, f)
  {
    hide Pending, Installed;
  }
}
