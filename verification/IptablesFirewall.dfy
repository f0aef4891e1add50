/** The iptables backend in its own form: buffers and generation fields updated call
    by call, scripts built in nested loops. Each method is proved to do exactly what
    the transition system of `GenerationSwap` says. */
module IptablesFirewall {
  import opened Common
  import opened Netfilter
  import opened RuleCompiler
  import opened DispatcherScript
  import opened Kernel
  import opened RestoreScript
  import GS = GenerationSwap

  method FilterAddrsByFamily(addrs: seq<Cidr>, v6: bool) returns (filtered: seq<Cidr>)
    ensures filtered == ByFamily(addrs, v6)
  {
    filtered := [];
    var keep := (c: Cidr) => c.v6 == v6;
    assert addrs[..0] == [];
    for i := 0 to |addrs|
      invariant filtered == Filter(addrs[..i], keep)
    {
      FilterStep(addrs, i, keep);
      if addrs[i].v6 == v6 { filtered := filtered + [addrs[i]]; }
    }
    assert addrs[..|addrs|] == addrs;
  }

  /** MARK with its optional CONNMARK save, then RETURN; or a single DROP or RETURN. */
  method BuildUnit(m: Match, action: Action, pf: Prefilter) returns (lines: seq<Line>)
    ensures lines == Unit(action, pf)(m)
  {
    match action {
      case Mark(value, mask) =>
        lines := [Line(m, SetXmark(value, mask))];
        if SavesMark(pf) { lines := lines + [Line(m, SaveMark(pf.ctMask))]; }
        lines := lines + [Line(m, Return)];
      case DropIt => lines := [Line(m, Drop)];
      case Pass => lines := [Line(m, Return)];
    }
  }

  method BuildProtoLines(pr: PendingRule, proto: Proto, pf: Prefilter) returns (lines: seq<Line>)
    ensures lines == FlatMap(ByLineProto(pr.criteria, pf)(proto), Unit(pr.action, pf))
  {
    hide Unit, IfaceChoices;
    var ifaces := IfaceChoices(pf);
    ghost var selectors := ByLineProto(pr.criteria, pf)(proto);
    lines := [];
    assert selectors[..0] == [];
    for j := 0 to |ifaces|
      invariant lines == FlatMap(selectors[..j], Unit(pr.action, pf))
    {
      var unit := BuildUnit(ByIface(pr.criteria, proto)(ifaces[j]), pr.action, pf);
      FlatMapStep(selectors, j, Unit(pr.action, pf));
      lines := lines + unit;
    }
    assert selectors[..|ifaces|] == selectors;
  }

  /** The lines of one pending rule, protocol by protocol and interface by interface. */
  method BuildRuleLines(pr: PendingRule, pf: Prefilter) returns (lines: seq<Line>)
    ensures lines == RuleLines(pr, pf)
  {
    hide Unit, ByLineProto, ExpandProtos;
    var protos := ExpandProtos(pr.criteria);
    ghost var byProto := ByLineProto(pr.criteria, pf);
    lines := [];
    assert protos[..0] == [];
    for i := 0 to |protos|
      invariant lines == FlatMap(FlatMap(protos[..i], byProto), Unit(pr.action, pf))
    {
      var more := BuildProtoLines(pr, protos[i], pf);
      FlatMapStep(protos, i, byProto);
      FlatMapAppend(FlatMap(protos[..i], byProto), byProto(protos[i]), Unit(pr.action, pf));
      lines := lines + more;
    }
    assert protos[..|protos|] == protos;
  }

  /** Rule lines of one family, set-matched drops and passes going to the dispatcher. */
  method BuildRuleCmds(v6: bool, g: Generation, pending: seq<PendingRule>, pf: Prefilter)
    returns (cmds: seq<RestoreCmd>)
    ensures cmds == FlatMap(Filter(pending, OfFamily(v6)), RuleCmds(pf, g))
  {
    hide RuleLines, RuleCmds;
    cmds := [];
    assert pending[..0] == [];
    for i := 0 to |pending|
      invariant cmds == FlatMap(Filter(pending[..i], OfFamily(v6)), RuleCmds(pf, g))
    {
      var more := [];
      if pending[i].v6 == v6 { more := BuildOneRule(pending[i], g, pf); }
      RuleCmdsStep(pending, i, v6, g, pf);
      cmds := cmds + more;
    }
    assert pending[..|pending|] == pending;
  }

  lemma RuleCmdsStep(pending: seq<PendingRule>, i: nat, v6: bool, g: Generation, pf: Prefilter)
    requires i < |pending|
    ensures FlatMap(Filter(pending[..i + 1], OfFamily(v6)), RuleCmds(pf, g)) ==
            FlatMap(Filter(pending[..i], OfFamily(v6)), RuleCmds(pf, g))
            + (if pending[i].v6 == v6 then RuleCmds(pf, g)(pending[i]) else [])
  {
    hide RuleCmds;
    FilterStep(pending, i, OfFamily(v6));
    var done := Filter(pending[..i], OfFamily(v6));
    FlatMapAppend(done, [pending[i]], RuleCmds(pf, g));
    FlatMapOne(pending[i], RuleCmds(pf, g));
    assert done + [] == done;
  }

  method BuildOneRule(pr: PendingRule, g: Generation, pf: Prefilter) returns (cmds: seq<RestoreCmd>)
    ensures cmds == RuleCmds(pf, g)(pr)
  {
    hide RuleLines;
    var lines := BuildRuleLines(pr, pf);
    cmds := [];
    for i := 0 to |lines|
      invariant cmds == Map(lines, ToAppend(ChainFor(pr, g)))[..i]
    {
      cmds := cmds + [AppendLine(ChainFor(pr, g), lines[i])];
    }
  }

  /** The script of one family for the generation scheme. */
  method BuildIptScript(v6: bool, g: Generation, replace: bool, pending: seq<PendingRule>, pf: Prefilter)
    returns (cmds: seq<RestoreCmd>)
    ensures cmds == IptScript(v6, g, replace, pending, pf)
  {
    hide ScaffoldCmds, PrefilterLines, RuleCmds;
    cmds := ScaffoldCmds(g, replace);
    cmds := cmds + Map(PrefilterLines(pf), ToAppend(GenChain(g)));
    var rules := BuildRuleCmds(v6, g, pending, pf);
    cmds := cmds + rules;
  }

  method BuildSetCmds(n: SetName, mode: Mode, v6On: bool, clear: bool) returns (script: seq<IpsetCmd>)
    ensures script == SetCmdsFor(mode, v6On, clear)(n)
  {
    script := [];
    if n.v6 && !v6On { return; }
    if n.Dynamic? {
      if mode == Destructive {
        script := [Create(n)];
        if clear { script := script + [FlushSet(n)]; }
      }
      return;
    }
    script := [Create(n)];
    script := script + [FlushSet(n)];
  }

  method BuildIpsetScript(pendingSets: seq<SetName>, loads: seq<Load>, mode: Mode, v6On: bool, clear: bool)
    returns (script: seq<IpsetCmd>)
    ensures script == IpsetScript(pendingSets, loads, mode, v6On, clear)
  {
    hide SetCmdsFor, LoadCmdsFor;
    script := [];
    assert pendingSets[..0] == [];
    for i := 0 to |pendingSets|
      invariant script == FlatMap(pendingSets[..i], SetCmdsFor(mode, v6On, clear))
    {
      var cmds := BuildSetCmds(pendingSets[i], mode, v6On, clear);
      FlatMapStep(pendingSets, i, SetCmdsFor(mode, v6On, clear));
      script := script + cmds;
    }
    assert pendingSets[..|pendingSets|] == pendingSets;
    ghost var before := script;
    assert loads[..0] == [];
    for i := 0 to |loads|
      invariant script == before + FlatMap(loads[..i], LoadCmdsFor(v6On))
    {
      FlatMapStep(loads, i, LoadCmdsFor(v6On));
      var adds := BuildLoadCmds(loads[i], v6On);
      script := script + adds;
    }
    assert loads[..|loads|] == loads;
  }

  method BuildLoadCmds(l: Load, v6On: bool) returns (adds: seq<IpsetCmd>)
    ensures adds == LoadCmdsFor(v6On)(l)
  {
    adds := [];
    if l.name.v6 && !v6On { return; }
    for i := 0 to |l.entries|
      invariant adds == Map(l.entries, ToAdd(l.name))[..i]
    {
      adds := adds + [AddEntry(l.name, l.entries[i])];
    }
  }

  /** What the external commands act on. */
  datatype KernelState = KernelState(sets: Sets, t4: Table, t6: Table)

  /** What the theorems remember about earlier applies. */
  datatype History = History(staged: seq<Rule>, live4: Option<GS.Activation>, live6: Option<GS.Activation>)

  class Firewall {
    var pendingSets: seq<SetName>
    var loads: seq<Load>
    var pendingRules: seq<PendingRule>
    var created: map<SetName, bool>
    var active4: Option<Generation>
    var active6: Option<Generation>
    var target4: Generation
    var target6: Generation
    var prepared: bool
    var settings: GS.Settings
    var kernel: KernelState
    ghost var history: History

    ghost function Fields(): GS.Fw
      reads this
    {
      GS.Fw(pendingSets, loads, pendingRules, created, active4, active6, target4, target6, prepared,
            settings.ipv6, settings.clearDynamic, settings.pf)
    }

    ghost function State(): GS.World
      reads this
    {
      GS.World(Fields(), kernel.sets, kernel.t4, kernel.t6, history.staged, history.live4, history.live6)
    }

    constructor ()
      ensures State() == GS.CLEAN_START
    {
      pendingSets, loads, pendingRules, created := [], [], [], map[];
      active4, active6, target4, target6 := None, None, A, A;
      prepared, settings := false, GS.Settings(true, true, Prefilter([], false, false, false, 0));
      kernel := KernelState(map[], EMPTY_TABLE, EMPTY_TABLE);
      history := History([], None, None);
    }

    method PrepareApply(mode: Mode)
      modifies this`pendingSets, this`loads, this`pendingRules, this`target4, this`target6, this`prepared, this`history
      ensures Fields() == GS.Prepare(old(Fields()), mode)
      ensures history == old(history).(staged := [])
    {
      pendingSets, loads, pendingRules := [], [], [];
      target4 := if mode == Destructive then A else if active4.Some? then Opposite(active4.value) else A;
      target6 := if mode == Destructive then A else if active6.Some? then Opposite(active6.value) else A;
      prepared := true;
      history := history.(staged := []);
    }

    method CreateIpset(n: SetName)
      modifies this`pendingSets, this`created
      ensures Fields() == GS.CreateIpset(old(Fields()), n)
    {
      if n !in pendingSets { pendingSets := pendingSets + [n]; }
      created := created[n := n.v6];
    }

    /** Cross product of protocols, sources and destinations of one family. */
    method AppendRulesForFamily(v6: bool, action: Action, c: Criteria)
      modifies this`pendingRules
      ensures pendingRules == old(pendingRules) + Expand(v6, action, c)
    {
      var srcs, dsts := [None], [None];
      if c.src != [] { var fs := FilterAddrsByFamily(c.src, v6); srcs := Map(fs, (x: Cidr) => Some(x)); }
      if c.dst != [] { var fd := FilterAddrsByFamily(c.dst, v6); dsts := Map(fd, (x: Cidr) => Some(x)); }
      assert srcs == AddrChoices(c.src, v6) && dsts == AddrChoices(c.dst, v6);
      if srcs == [] || dsts == [] {
        NothingToExpand(v6, action, c);
        return;
      }
      var rules := CrossProduct(v6, action, c, srcs, dsts);
      pendingRules := pendingRules + rules;
    }

    /** `create_mark_rule`, `create_drop_rule` and `create_pass_rule`. */
    method CreateRule(r: Rule)
      modifies this`pendingRules, this`history
      ensures pendingRules == GS.CreateRule(old(Fields()), r).pendingRules
      ensures history == old(history).(staged := old(history).staged + [r])
    {
      hide Expand;
      history := history.(staged := history.staged + [r]);
      ghost var start, f := pendingRules, ByRuleFamily(r);
      if r.criteria.set_.Some? {
        var v6 := r.criteria.set_.value in created && created[r.criteria.set_.value];
        AppendRulesForFamily(v6, r.action, r.criteria);
        FlatMapOne(v6, f);
      } else {
        AppendRulesForFamily(false, r.action, r.criteria);
        AppendRulesForFamily(true, r.action, r.criteria);
        BothFamilies(created, r);
      }
    }

    method CleanupRules(o: GS.Oracle)
      modifies this`active4, this`active6, this`kernel, this`history
      ensures State() == GS.CleanupRules(old(State()), o)
    {
      hide RunClean;
      kernel := kernel.(t4 := RunClean(kernel.t4, CLEANUP_CMDS, 0, o.cleanupFails),
                        t6 := RunClean(kernel.t6, CLEANUP_CMDS, CLEANUP6_FIRST, o.cleanupFails));
      active4, active6 := None, None;
      history := history.(live4 := None, live6 := None);
    }

    method RestoreFamily(v6: bool, o: GS.Oracle) returns (ok: bool)
      modifies this`active4, this`active6, this`kernel, this`history
      ensures (State(), ok) == GS.RestoreFamily(old(State()), v6, o)
    {
      hide IptScript, AtomicRestore, GS.StagedContents;
      var g := if v6 then target6 else target4;
      var replace := if v6 then active6.Some? else active4.Some?;
      var script := BuildIptScript(v6, g, replace, pendingRules, settings.pf);
      var t := AtomicRestore(if v6 then kernel.t6 else kernel.t4, kernel.sets, script,
                             if v6 then o.restore6 else o.restore4);
      ok := t.Some?;
      if ok {
        ghost var act := GS.Activation(g, history.staged, created, settings.pf, GS.StagedContents(Fields(), v6));
        if v6 {
          kernel, active6, history := kernel.(t6 := t.value), Some(g), history.(live6 := Some(act));
        } else {
          kernel, active4, history := kernel.(t4 := t.value), Some(g), history.(live4 := Some(act));
        }
      }
    }

    /** Phase 1: the sets of the inactive generation. */
    method LoadSets(mode: Mode, o: GS.Oracle, v6On: bool) returns (ok: bool)
      modifies this`kernel
      ensures (State(), ok) == GS.Phase1(old(State()), mode, o, v6On)
    {
      hide RunIpset, IpsetScript;
      var script := BuildIpsetScript(pendingSets, loads, mode, v6On, settings.clearDynamic);
      var cut := if o.ipsetCut.Some? && o.ipsetCut.value < |script| then o.ipsetCut.value else |script|;
      var r := RunIpset(kernel.sets, script[..cut]);
      kernel := kernel.(sets := r.0);
      ok := r.1 && cut == |script|;
    }

    /** A destructive apply first removes chains and sets. */
    method CleanupLive(o: GS.Oracle)
      modifies this`active4, this`active6, this`kernel, this`history
      ensures State() ==
              GS.CleanupRules(old(State()), o).(sets := GS.Sweep(old(kernel).sets, o, !settings.clearDynamic))
    {
      hide GS.Sweep, RunClean;
      var swept := GS.Sweep(kernel.sets, o, !settings.clearDynamic);
      CleanupRules(o);
      kernel := kernel.(sets := swept);
    }

    method StartApply(mode: Mode, o: GS.Oracle)
      modifies this`prepared, this`active4, this`active6, this`kernel, this`history
      ensures State() == GS.Phase0(old(State()), mode, o)
    {
      hide GS.Sweep, GS.CleanupRules;
      prepared := false;
      if mode == Destructive { CleanupLive(o); }
    }

    /** Phase 2: the dispatcher switch, IPv4 before IPv6. */
    method SwitchChains(o: GS.Oracle, v6On: bool) returns (ok: bool)
      modifies this`active4, this`active6, this`kernel, this`history
      ensures (State(), ok) == GS.Phase2(old(State()), o, v6On)
    {
      hide GS.RestoreFamily;
      var has6 := v6On || exists pr :: pr in pendingRules && pr.v6;
      ok := RestoreFamily(false, o);
      if ok && has6 { ok := RestoreFamily(true, o); }
    }

    /** Externally flushed dispatchers force a rebuild of the whole scaffold. */
    method RebuildIfMissing(o: GS.Oracle, v6On: bool)
      modifies this`active4, this`active6, this`kernel, this`history
      ensures State() == GS.Rebuild(old(State()), o, v6On)
    {
      hide GS.CleanupRules;
      var missing4 := active4.Some? && !(Dispatchers(kernel.t4) && o.probe4);
      var missing6 := v6On && active6.Some? && !(Dispatchers(kernel.t6) && o.probe6);
      if missing4 || missing6 { CleanupRules(o); }
    }

    /** Fills the inactive generation, then retargets the dispatchers. */
    method RunPhases(mode: Mode, o: GS.Oracle) returns (ok: bool)
      modifies this`prepared, this`active4, this`active6, this`kernel, this`history
      ensures (State(), ok) == GS.Phases(old(State()), mode, o)
    {
      hide GS.Phase0, GS.Phase1, GS.Phase2, GS.Rebuild;
      var v6On := settings.ipv6 && o.backend6;
      assert v6On == GS.V6On(State(), o);
      hide Firewall.State, GS.V6On;
      StartApply(mode, o);
      ok := LoadSets(mode, o, v6On);
      if !ok { return; }
      RebuildIfMissing(o, v6On);
      ok := SwitchChains(o, v6On);
    }

    method ClearPending()
      modifies this`pendingSets, this`loads, this`pendingRules
      ensures State() == GS.Cleared(old(State()))
    {
      pendingSets, loads, pendingRules := [], [], [];
    }

    /** `apply`: only a prepared apply runs, and what was staged is forgotten on success. */
    method Apply(mode: Mode, o: GS.Oracle) returns (ok: bool)
      modifies this`pendingSets, this`loads, this`pendingRules, this`prepared,
               this`active4, this`active6, this`kernel, this`history
      ensures (State(), ok) == GS.Apply(old(State()), mode, o)
    {
      hide GS.Phases, GS.Cleared;
      if !prepared { return false; }
      hide Firewall.State;
      ok := RunPhases(mode, o);
      if ok { ClearPending(); }
    }
  }

  /** The three nested loops of the expansion. */
  method CrossProduct(v6: bool, action: Action, c: Criteria, srcs: seq<Option<Cidr>>, dsts: seq<Option<Cidr>>)
    returns (rules: seq<PendingRule>)
    requires srcs == AddrChoices(c.src, v6) && dsts == AddrChoices(c.dst, v6)
    ensures rules == Expand(v6, action, c)
  {
    hide AddrChoices, ExpandProtos, ByProto;
    var protos := ExpandProtos(c);
    rules := [];
    assert protos[..0] == [];
    for i := 0 to |protos|
      invariant rules == FlatMap(protos[..i], ByProto(v6, action, c))
    {
      var more := ProductOfAddrs(v6, action, c, protos[i], srcs, dsts);
      FlatMapStep(protos, i, ByProto(v6, action, c));
      rules := rules + more;
    }
    assert protos[..|protos|] == protos;
  }

  method ProductOfAddrs(v6: bool, action: Action, c: Criteria, proto: Proto, srcs: seq<Option<Cidr>>,
                        dsts: seq<Option<Cidr>>)
    returns (rules: seq<PendingRule>)
    requires srcs == AddrChoices(c.src, v6) && dsts == AddrChoices(c.dst, v6)
    ensures rules == ByProto(v6, action, c)(proto)
  {
    hide AddrChoices, BySrc, ByDst;
    rules := [];
    assert srcs[..0] == [];
    for j := 0 to |srcs|
      invariant rules == FlatMap(srcs[..j], BySrc(v6, action, c, proto))
    {
      var more := ForEachDst(v6, action, c, proto, srcs[j], dsts);
      FlatMapStep(srcs, j, BySrc(v6, action, c, proto));
      rules := rules + more;
    }
    assert srcs[..|srcs|] == srcs;
  }

  method ForEachDst(v6: bool, action: Action, c: Criteria, proto: Proto, s: Option<Cidr>, dsts: seq<Option<Cidr>>)
    returns (rules: seq<PendingRule>)
    requires dsts == AddrChoices(c.dst, v6)
    ensures rules == BySrc(v6, action, c, proto)(s)
  {
    hide AddrChoices, Single;
    rules := [];
    for k := 0 to |dsts|
      invariant rules == Map(dsts, ByDst(v6, action, c, proto, s))[..k]
    {
      rules := rules + [PendingRule(v6, action, c.(proto := proto, src := Single(s), dst := Single(dsts[k])))];
    }
  }

  lemma BothFamilies(created: map<SetName, bool>, r: Rule)
    requires r.criteria.set_.None?
    ensures ByRule(created)(r) == Expand(false, r.action, r.criteria) + Expand(true, r.action, r.criteria)
  {
    hide Expand;
    var f := ByRuleFamily(r);
    FlatMapAppend([false], [true], f);
    FlatMapOne(false, f);
    FlatMapOne(true, f);
    assert Families(created, r.criteria) == [false] + [true];
  }

  lemma NothingToExpand(v6: bool, action: Action, c: Criteria)
    requires AddrChoices(c.src, v6) == [] || AddrChoices(c.dst, v6) == []
    ensures Expand(v6, action, c) == []
  {
    if Expand(v6, action, c) != [] {
      ExpandMember(v6, action, c, Expand(v6, action, c)[0]);
    }
  }
}
