/** The runtime driver: for every route rule it declares and loads the list sets of
    the target generation, queues the rules, and finally applies. Running it on the
    firewall object is one `Cycle` step of the generation-swap system. */
module FirewallRuntime {
  import opened Common
  import opened Netfilter
  import opened RuleCompiler
  import opened RestoreScript
  import GS = GenerationSwap
  import IF = IptablesFirewall

  method ApplyRule(fw: IF.Firewall, rr: GS.RouteRule, dst: Option<SetName>)
    modifies fw
    ensures fw.State() == GS.ApplyRule(old(fw.State()), rr, dst)
  {
    if !(rr.action.Mark? && rr.action.value == 0) {
      fw.CreateRule(Rule(rr.action, rr.criteria.(set_ := dst)));
    }
  }

  method StageSet(fw: IF.Firewall, n: SetName)
    modifies fw
    ensures fw.State() == GS.StageSet(old(fw.State()), n)
  {
    fw.CreateIpset(n);
  }

  method StageLoad(fw: IF.Firewall, n: SetName, entries: seq<Cidr>)
    modifies fw
    ensures fw.State() == GS.StageLoad(old(fw.State()), n, entries)
  {
    fw.loads := fw.loads + [Load(n, entries)];
  }

  method StageStatic(fw: IF.Firewall, l: GS.ListUse)
    modifies fw
    ensures fw.State() == GS.StageStatic(old(fw.State()), l)
  {
    hide GS.StageSet, GS.StageLoad;
    var s4, s6 := Static(false, fw.target4, l.name), Static(true, fw.target6, l.name);
    var both := fw.settings.ipv6;
    StageSet(fw, s4);
    StageLoad(fw, s4, Filter(l.entries, GS.FourEntries()));
    if both {
      StageSet(fw, s6);
      StageLoad(fw, s6, Filter(l.entries, GS.SixEntries()));
    }
  }

  method StageDynamic(fw: IF.Firewall, l: GS.ListUse)
    modifies fw
    ensures fw.State() == GS.StageDynamic(old(fw.State()), l)
  {
    hide GS.StageSet;
    var both := fw.settings.ipv6;
    StageSet(fw, Dynamic(false, l.name));
    if both { StageSet(fw, Dynamic(true, l.name)); }
  }

  method RulePair(fw: IF.Firewall, rr: GS.RouteRule, n4: SetName, n6: SetName)
    modifies fw
    ensures fw.State() == GS.RulePair(old(fw.State()), rr, n4, n6)
  {
    hide GS.ApplyRule;
    var both := fw.settings.ipv6;
    ApplyRule(fw, rr, Some(n4));
    if both { ApplyRule(fw, rr, Some(n6)); }
  }

  method StageList(fw: IF.Firewall, rr: GS.RouteRule, l: GS.ListUse)
    modifies fw
    ensures fw.State() == GS.StageList(old(fw.State()), rr, l)
  {
    hide GS.StageStatic, GS.StageDynamic, GS.RulePair;
    var s4, s6 := Static(false, fw.target4, l.name), Static(true, fw.target6, l.name);
    if l.entries != [] { StageStatic(fw, l); }
    if l.hasDomains { StageDynamic(fw, l); }
    if l.entries != [] { RulePair(fw, rr, s4, s6); }
    if l.hasDomains { RulePair(fw, rr, Dynamic(false, l.name), Dynamic(true, l.name)); }
  }

  lemma {:induction false} StageListsSnoc(w: GS.World, rr: GS.RouteRule, lists: seq<GS.ListUse>, l: GS.ListUse)
    ensures GS.StageLists(w, rr, lists + [l]) == GS.StageList(GS.StageLists(w, rr, lists), rr, l)
    decreases |lists|
  {
    hide GS.StageList;
    if lists == [] {
      assert [l][1..] == [];
    } else {
      assert (lists + [l])[1..] == lists[1..] + [l];
      StageListsSnoc(GS.StageList(w, rr, lists[0]), rr, lists[1..], l);
    }
  }

  lemma {:induction false} StageAllSnoc(w: GS.World, rules: seq<GS.RouteRule>, rr: GS.RouteRule)
    ensures GS.StageAll(w, rules + [rr]) == GS.StageRule(GS.StageAll(w, rules), rr)
    decreases |rules|
  {
    hide GS.StageRule;
    if rules == [] {
      assert [rr][1..] == [];
    } else {
      assert (rules + [rr])[1..] == rules[1..] + [rr];
      StageAllSnoc(GS.StageRule(w, rules[0]), rules[1..], rr);
    }
  }

  method StageRule(fw: IF.Firewall, rr: GS.RouteRule)
    modifies fw
    ensures fw.State() == GS.StageRule(old(fw.State()), rr)
  {
    hide GS.StageList, GS.ApplyRule;
    var emitted := false;
    ghost var start := fw.State();
    assert rr.lists[..0] == [];
    for i := 0 to |rr.lists|
      invariant fw.State() == GS.StageLists(start, rr, rr.lists[..i])
      invariant emitted == exists l :: l in rr.lists[..i] && (l.entries != [] || l.hasDomains)
    {
      StageList(fw, rr, rr.lists[i]);
      StageListsSnoc(start, rr, rr.lists[..i], rr.lists[i]);
      assert rr.lists[..i + 1] == rr.lists[..i] + [rr.lists[i]];
      if rr.lists[i].entries != [] || rr.lists[i].hasDomains { emitted := true; }
    }
    assert rr.lists[..|rr.lists|] == rr.lists;
    if !emitted && GS.HasSelector(rr.criteria) { ApplyRule(fw, rr, None); }
  }

  method StageAll(fw: IF.Firewall, rules: seq<GS.RouteRule>)
    modifies fw
    ensures fw.State() == GS.StageAll(old(fw.State()), rules)
  {
    hide GS.StageRule;
    ghost var start := fw.State();
    assert rules[..0] == [];
    for i := 0 to |rules|
      invariant fw.State() == GS.StageAll(start, rules[..i])
    {
      StageRule(fw, rules[i]);
      StageAllSnoc(start, rules[..i], rules[i]);
      assert rules[..i + 1] == rules[..i] + [rules[i]];
    }
    assert rules[..|rules|] == rules;
  }

  /** One complete refresh of the firewall, and whether it went through. */
  method ApplyRuntimeFirewall(fw: IF.Firewall, s: GS.Settings, mode: Mode, rules: seq<GS.RouteRule>, o: GS.Oracle)
    returns (ok: bool)
    modifies fw
    ensures (fw.State(), ok) == GS.Apply(GS.StageAll(GS.Begin(old(fw.State()), s, mode), rules), mode, o)
    ensures fw.State() == GS.Step(old(fw.State()), GS.Cycle(s, mode, rules, o))
  {
    hide GS.StageAll, GS.Apply, GS.NextTarget;
    ghost var start := fw.State();
    fw.settings := s;
    fw.PrepareApply(mode);
    assert fw.State() == GS.Begin(start, s, mode);
    StageAll(fw, rules);
    ok := fw.Apply(mode, o);
  }
}
