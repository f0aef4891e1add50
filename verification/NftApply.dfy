/** What an nftables document leaves behind, phase by phase: its sets, its chains and the
    elements it loads. */
module NftApply {
  import opened Common
  import opened NftDocument

  // ---------------------------------------------------------------- sets

  lemma SetsExtend(p: Plan, t: Table, before: seq<PendingSet>, ps: PendingSet, u: Table, v: Table)
    requires SetsAre(p, t, before, u) && SetStepped(p, t, ps, u, v)
    requires forall i :: 0 <= i < |before| && before[i].name == ps.name ==> before[i] == ps
    ensures SetsAre(p, t, before + [ps], v)
  {
    hide SetAfter;
    var all := before + [ps];
    forall n ensures Pending(all, n) <==> Pending(before, n) || n == ps.name {
      if Pending(before, n) {
        var i :| 0 <= i < |before| && before[i].name == n;
        assert all[i].name == n;
      }
      assert all[|before|].name == ps.name;
    }
    forall i | 0 <= i < |all|
      ensures all[i].name in v.sets && v.sets[all[i].name] == SetAfter(p, t, all[i])
    {
      if i < |before| { assert all[i] == before[i]; }
    }
  }

  ghost predicate AnyBlocked(p: Plan, t: Table, pending: seq<PendingSet>)
  {
    exists i :: 0 <= i < |pending| && Blocked(p, t, pending[i])
  }

  lemma {:induction false} SetsPhase(p: Plan, t: Table, pending: seq<PendingSet>)
    requires Truthful(p, t) && Consistent(pending)
    ensures var r := Run(FlatMap(pending, SetCmds(p)), t);
            && (r.None? <==> AnyBlocked(p, t, pending))
            && (r.Some? ==> SetsAre(p, t, pending, r.value))
  {
    hide Run, SetCmds, SetAfter, FlatMap, Blocked, Truthful;
    if pending == [] {
      RunNone(t);
      FlatMapNone(SetCmds(p));
    } else {
      var before, ps := pending[..|pending| - 1], pending[|pending| - 1];
      assert pending == before + [ps];
      SetsPhase(p, t, before);
      FlatMapAppend(before, [ps], SetCmds(p));
      FlatMapOne(ps, SetCmds(p));
      RunAppend(FlatMap(before, SetCmds(p)), SetCmds(p)(ps), t);
      match Run(FlatMap(before, SetCmds(p)), t)
      case None =>
        var i :| 0 <= i < |before| && Blocked(p, t, before[i]);
        assert pending[i] == before[i];
      case Some(u) =>
        forall i | 0 <= i < |before| && before[i].name == ps.name ensures before[i] == ps && !Blocked(p, t, ps) {
          assert pending[i] == before[i] && pending[|before|] == ps;
        }
        SetStep(p, t, before, ps, u);
        assert AnyBlocked(p, t, pending) <==> Blocked(p, t, ps) by {
          assert pending[|before|] == ps;
        }
        if Run(SetCmds(p)(ps), u).Some? {
          SetsExtend(p, t, before, ps, u, Run(SetCmds(p)(ps), u).value);
        }
    }
  }

  // ---------------------------------------------------------------- chains

  function OnChain(c: ChainName): NftRule -> bool
  {
    (r: NftRule) => r.chain == c
  }

  /** A chain's rules before the new ones are added: none, unless it exists unseen. */
  function Kept(p: Plan, t: Table, c: ChainName): seq<NftRule>
  {
    if c in t.chains && (p.full || c !in p.live.chains) then t.chains[c] else []
  }

  lemma ChainCmdsRun(p: Plan, t: Table)
    requires ChainsTruthful(p, t)
    ensures var r := Run(ChainCmds(p), t);
            && r.Some? && r.value.sets == t.sets
            && forall c :: c in r.value.chains && r.value.chains[c] == Kept(p, t, c)
  {
    hide Run;
    var d1 := if !p.full && Prerouting in p.live.chains then [DeleteChain(Prerouting)] else [];
    var d2 := if !p.full && Output in p.live.chains then [DeleteChain(Output)] else [];
    RunAppend(d1 + d2, [AddChain(Prerouting), AddChain(Output)], t);
    RunAppend(d1, d2, t);
    RunOne(DeleteChain(Prerouting), t);
    RunNone(t);
    var u := Run(d1, t).value;
    RunOne(DeleteChain(Output), u);
    RunNone(u);
    var v := Run(d2, u).value;
    RunTwo(AddChain(Prerouting), AddChain(Output), v);
    var w := Run(ChainCmds(p), t).value;
    forall c ensures c in w.chains && w.chains[c] == Kept(p, t, c) {
      match c
      case Prerouting =>
      case Output =>
    }
  }

  lemma {:induction false} RulesRun(t: Table, rules: seq<NftRule>)
    requires forall c: ChainName :: c in t.chains
    requires forall r :: r in rules && r.ref.Some? ==> r.ref.value in t.sets
    ensures var r := Run(Map(rules, RuleCmd()), t);
            && r.Some? && r.value.sets == t.sets
            && forall c :: c in r.value.chains && r.value.chains[c] == t.chains[c] + Filter(rules, OnChain(c))
  {
    hide Run, Filter;
    if rules == [] {
      RunNone(t);
      FilterNone<NftRule>([], OnChain(Prerouting));
      FilterNone<NftRule>([], OnChain(Output));
    } else {
      var init, r := rules[..|rules| - 1], rules[|rules| - 1];
      assert rules == init + [r];
      RulesRun(t, init);
      assert Map(rules, RuleCmd()) == Map(init, RuleCmd()) + [AddRule(r)];
      RunAppend(Map(init, RuleCmd()), [AddRule(r)], t);
      RuleStep(Run(Map(init, RuleCmd()), t).value, r);
      forall c ensures Filter(rules, OnChain(c)) == Filter(init, OnChain(c)) + (if r.chain == c then [r] else []) {
        RuleFilter(init, r, c);
      }
    }
  }

  lemma RuleStep(u: Table, r: NftRule)
    requires (forall c: ChainName :: c in u.chains) && (r.ref.Some? ==> r.ref.value in u.sets)
    ensures var v := Run([AddRule(r)], u);
            && v.Some? && v.value.sets == u.sets
            && forall c :: c in v.value.chains && v.value.chains[c] == u.chains[c] + (if r.chain == c then [r] else [])
  {
    hide Run;
    RunOne(AddRule(r), u);
  }

  lemma RuleFilter(init: seq<NftRule>, r: NftRule, c: ChainName)
    ensures Filter(init + [r], OnChain(c)) == Filter(init, OnChain(c)) + (if r.chain == c then [r] else [])
  {
    FilterAppend(init, [r], OnChain(c));
  }

  /** The rules of each chain after an apply. */
  function ChainAfter(p: Plan, t: Table, rules: seq<NftRule>, c: ChainName): seq<NftRule>
  {
    Kept(p, t, c) + Filter(rules, OnChain(c))
  }

  lemma ChainPhase(p: Plan, t: Table, rules: seq<NftRule>)
    requires ChainsTruthful(p, t) && forall r :: r in rules && r.ref.Some? ==> r.ref.value in t.sets
    ensures var r := Run(ChainPart(p, rules), t);
            && r.Some? && r.value.sets == t.sets
            && (p.staticOnly ==> r.value.chains == t.chains)
            && (!p.staticOnly ==> forall c :: c in r.value.chains && r.value.chains[c] == ChainAfter(p, t, rules, c))
  {
    hide Run, ChainCmds, Filter, Kept;
    RunNone(t);
    if !p.staticOnly {
      ChainCmdsRun(p, t);
      RunAppend(ChainCmds(p), Map(rules, RuleCmd()), t);
      RulesRun(Run(ChainCmds(p), t).value, rules);
    }
  }

  // ---------------------------------------------------------------- elements

  function LoadAfter(p: Plan, s: NftSet, l: Load): NftSet
  {
    if Known(p, l.name) && IsDynamic(l.name) then s
    else if Known(p, l.name) then s.(elems := Members(l.elems))
    else s.(elems := s.elems + Members(l.elems))
  }

  ghost predicate DistinctLoads(loads: seq<Load>)
  {
    forall i, j :: 0 <= i < j < |loads| ==> loads[i].name != loads[j].name
  }

  ghost predicate Loaded(loads: seq<Load>, n: string)
  {
    exists i :: 0 <= i < |loads| && loads[i].name == n
  }

  ghost predicate LoadsAre(p: Plan, t: Table, loads: seq<Load>, u: Table)
    requires forall i :: 0 <= i < |loads| ==> loads[i].name in t.sets
  {
    && u.chains == t.chains && (forall n :: n in u.sets <==> n in t.sets)
    && (forall i :: 0 <= i < |loads| ==> u.sets[loads[i].name] == LoadAfter(p, t.sets[loads[i].name], loads[i]))
    && (forall n :: n in t.sets && !Loaded(loads, n) ==> u.sets[n] == t.sets[n])
  }

  lemma LoadStep(p: Plan, u: Table, l: Load)
    requires l.name in u.sets
    ensures var r := Run(LoadCmds(p)(l), u);
            && r.Some? && r.value.chains == u.chains
            && (forall n :: n in r.value.sets <==> n in u.sets)
            && (forall n :: n in u.sets && n != l.name ==> r.value.sets[n] == u.sets[n])
            && r.value.sets[l.name] == LoadAfter(p, u.sets[l.name], l)
  {
    hide Run, IsDynamic, Members;
    NoMembers();
    var cs, flush, add := LoadCmds(p)(l), FlushSet(l.name), AddElements(l.name, l.elems);
    if Known(p, l.name) && IsDynamic(l.name) {
      RunNone(u);
    } else if Known(p, l.name) && l.elems != [] {
      assert cs == [flush, add];
      RunTwo(flush, add, u);
    } else if Known(p, l.name) {
      assert cs == [flush];
      RunOne(flush, u);
    } else if l.elems != [] {
      assert cs == [add];
      RunOne(add, u);
    } else {
      assert cs == [];
      RunNone(u);
    }
  }

  lemma NoMembers()
    ensures Members([]) == {}
  {}

  lemma {:induction false} LoadPhase(p: Plan, t: Table, loads: seq<Load>)
    requires DistinctLoads(loads) && forall i :: 0 <= i < |loads| ==> loads[i].name in t.sets
    ensures Run(FlatMap(loads, LoadCmds(p)), t).Some?
            && LoadsAre(p, t, loads, Run(FlatMap(loads, LoadCmds(p)), t).value)
  {
    hide Run, LoadCmds, LoadAfter, FlatMap;
    if loads == [] {
      RunNone(t);
      FlatMapNone(LoadCmds(p));
    } else {
      var init, l := loads[..|loads| - 1], loads[|loads| - 1];
      assert loads == init + [l];
      LoadPhase(p, t, init);
      FlatMapAppend(init, [l], LoadCmds(p));
      FlatMapOne(l, LoadCmds(p));
      RunAppend(FlatMap(init, LoadCmds(p)), LoadCmds(p)(l), t);
      var u := Run(FlatMap(init, LoadCmds(p)), t).value;
      assert !Loaded(init, l.name);
      LoadStep(p, u, l);
      LoadExtend(p, t, init, l, u, Run(LoadCmds(p)(l), u).value);
    }
  }

  lemma LoadExtend(p: Plan, t: Table, init: seq<Load>, l: Load, u: Table, v: Table)
    requires DistinctLoads(init + [l]) && l.name in t.sets && forall i :: 0 <= i < |init| ==> init[i].name in t.sets
    requires LoadsAre(p, t, init, u) && u.sets[l.name] == t.sets[l.name]
    requires v.chains == u.chains && (forall n :: n in v.sets <==> n in u.sets)
    requires forall n :: n in u.sets && n != l.name ==> v.sets[n] == u.sets[n]
    requires v.sets[l.name] == LoadAfter(p, u.sets[l.name], l)
    ensures LoadsAre(p, t, init + [l], v)
  {
    hide LoadAfter;
    var all := init + [l];
    forall i | 0 <= i < |all| ensures v.sets[all[i].name] == LoadAfter(p, t.sets[all[i].name], all[i]) {
      if i < |init| { assert all[i] == init[i] && all[|init|] == l; }
    }
    forall n | n in t.sets && !Loaded(all, n) ensures v.sets[n] == t.sets[n] {
      assert all[|init|].name == l.name;
      assert forall i :: 0 <= i < |init| ==> init[i] == all[i];
    }
  }
}
