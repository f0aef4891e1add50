/** What the runtime driver's staging means: the first staged rule that matches a packet
    carries the action of the first route rule whose criteria hold and whose lists cover
    the destination. */
module StagedPolicy {
  import opened Common
  import opened Netfilter
  import opened RuleCompiler
  import opened DispatcherScript
  import opened Kernel
  import opened RestoreScript
  import opened GenerationSwap
  import opened ApplyOutcome
  import opened SwapTheorems

  // ---------------------------------------------------------------- the policy of route rules

  /** A mark rule without an allocated mark is skipped. */
  predicate Written(rr: RouteRule) { !(rr.action.Mark? && rr.action.value == 0) }

  predicate UsesLists(rr: RouteRule) { exists l :: l in rr.lists && (l.entries != [] || l.hasDomains) }

  /** A destination is covered by an entry of the list, or by what was resolved from its domains. */
  predicate ListCovers(l: ListUse, ipv6: bool, sets: Sets, p: Packet)
  {
    && (p.v6 ==> ipv6)
    && ((exists c :: c in l.entries && c.v6 == p.v6 && Covers(c, p.dst))
        || (l.hasDomains && InSet(sets, Dynamic(p.v6, l.name), p.dst)))
  }

  /** A rule needs a list or another criterion besides the protocol. */
  predicate RouteMatches(rr: RouteRule, ipv6: bool, sets: Sets, p: Packet)
  {
    var c := rr.criteria;
    && Written(rr) && Wanted(c.(set_ := None), sets, p)
    && (if UsesLists(rr) then exists l :: l in rr.lists && ListCovers(l, ipv6, sets, p)
        else c.dscp.Some? || c.sport.ranges != [] || c.dport.ranges != [] || c.src != [] || c.dst != [])
  }

  /** The action of the first route rule that matches. */
  function FirstRoute(rules: seq<RouteRule>, ipv6: bool, sets: Sets, p: Packet): Option<Action>
  {
    if rules == [] then None
    else if RouteMatches(rules[0], ipv6, sets, p) then Some(rules[0].action)
    else FirstRoute(rules[1..], ipv6, sets, p)
  }

  /** The fate the route rules state for a packet: the prefilter, then the first route. */
  function RoutePolicy(rules: seq<RouteRule>, s: Settings, sets: Sets, p: Packet): Outcome
  {
    var o := PrefilterOutcome(s.pf, p);
    if !o.Go? || !InboundOk(s.pf, p) then o
    else
      match FirstRoute(rules, s.ipv6, sets, p)
      case None => o
      case Some(action) => ActionOutcome(action, s.pf, p)
  }

  // ---------------------------------------------------------------- staging in closed form

  datatype Gens = Gens(four: Generation, six: Generation, ipv6: bool)

  function GensOf(fw: Fw): Gens { Gens(fw.target4, fw.target6, fw.ipv6) }

  function NameIn(g: Gens, v6: bool, list: string): SetName { Static(v6, if v6 then g.six else g.four, list) }

  function EntriesOf(v6: bool): Cidr -> bool { if v6 then SixEntries() else FourEntries() }

  function LoadOf(g: Gens, v6: bool, l: ListUse): Load { Load(NameIn(g, v6, l.name), Filter(l.entries, EntriesOf(v6))) }

  function ListLoads(g: Gens): ListUse -> seq<Load>
  {
    (l: ListUse) =>
      if l.entries == [] then []
      else [LoadOf(g, false, l)] + (if g.ipv6 then [LoadOf(g, true, l)] else [])
  }

  function RouteLoads(g: Gens): RouteRule -> seq<Load> { (rr: RouteRule) => FlatMap(rr.lists, ListLoads(g)) }

  function RuleFor(rr: RouteRule, dst: Option<SetName>): seq<Rule>
  {
    if Written(rr) then [Rule(rr.action, rr.criteria.(set_ := dst))] else []
  }

  function RulesOver(g: Gens, rr: RouteRule, n4: SetName, n6: SetName): seq<Rule>
  {
    RuleFor(rr, Some(n4)) + (if g.ipv6 then RuleFor(rr, Some(n6)) else [])
  }

  function StaticRules(g: Gens, rr: RouteRule, l: ListUse): seq<Rule>
  {
    if l.entries == [] then [] else RulesOver(g, rr, NameIn(g, false, l.name), NameIn(g, true, l.name))
  }

  function DynamicRules(g: Gens, rr: RouteRule, l: ListUse): seq<Rule>
  {
    if l.hasDomains then RulesOver(g, rr, Dynamic(false, l.name), Dynamic(true, l.name)) else []
  }

  function ListRules(g: Gens, rr: RouteRule): ListUse -> seq<Rule>
  {
    l => StaticRules(g, rr, l) + DynamicRules(g, rr, l)
  }

  function RouteRules(g: Gens): RouteRule -> seq<Rule>
  {
    (rr: RouteRule) =>
      FlatMap(rr.lists, ListRules(g, rr))
      + (if !UsesLists(rr) && HasSelector(rr.criteria) then RuleFor(rr, None) else [])
  }

  /** Staging from `w` to `v` appended these rules and loads and kept the generations. */
  predicate Appends(w: World, v: World, rules: seq<Rule>, loads: seq<Load>)
  {
    v.staged == w.staged + rules && v.fw.loads == w.fw.loads + loads && GensOf(v.fw) == GensOf(w.fw)
  }

  lemma AppendsThen(w: World, v: World, u: World, a: seq<Rule>, b: seq<Rule>, x: seq<Load>, y: seq<Load>)
    requires Appends(w, v, a, x) && Appends(v, u, b, y)
    ensures Appends(w, u, a + b, x + y)
  {}

  lemma ApplyRuleAppends(w: World, rr: RouteRule, dst: Option<SetName>)
    ensures Appends(w, ApplyRule(w, rr, dst), RuleFor(rr, dst), [])
  {
    hide ByRule;
  }

  lemma RulePairAppends(w: World, rr: RouteRule, n4: SetName, n6: SetName)
    ensures Appends(w, RulePair(w, rr, n4, n6), RulesOver(GensOf(w.fw), rr, n4, n6), [])
  {
    hide ApplyRule;
    var w1 := ApplyRule(w, rr, Some(n4));
    ApplyRuleAppends(w, rr, Some(n4));
    ApplyRuleAppends(w1, rr, Some(n6));
    AppendsThen(w, w1, ApplyRule(w1, rr, Some(n6)), RuleFor(rr, Some(n4)), RuleFor(rr, Some(n6)), [], []);
  }

  lemma StageStaticAppends(w: World, l: ListUse)
    requires l.entries != []
    ensures Appends(w, StageStatic(w, l), [], ListLoads(GensOf(w.fw))(l))
  {}

  lemma StageDynamicAppends(w: World, l: ListUse)
    ensures Appends(w, StageDynamic(w, l), [], [])
  {}

  lemma NothingAppended(w: World)
    ensures Appends(w, w, [], [])
  {}

  lemma StageListAppends(w: World, rr: RouteRule, l: ListUse)
    ensures Appends(w, StageList(w, rr, l), ListRules(GensOf(w.fw), rr)(l), ListLoads(GensOf(w.fw))(l))
  {
    hide StageStatic, StageDynamic, RulePair, RulesOver, Appends, NameIn;
    var g := GensOf(w.fw);
    var loads := ListLoads(g)(l);
    var s4, s6 := NameIn(g, false, l.name), NameIn(g, true, l.name);
    var d4, d6 := Dynamic(false, l.name), Dynamic(true, l.name);
    assert s4 == StaticName(w.fw, false, l.name) && s6 == StaticName(w.fw, true, l.name) by {
      NamesAgree(w.fw, l.name);
    }
    var w1 := if l.entries != [] then StageStatic(w, l) else w;
    NothingAppended(w);
    if l.entries != [] { StageStaticAppends(w, l); }
    var w2 := if l.hasDomains then StageDynamic(w1, l) else w1;
    NothingAppended(w1);
    StageDynamicAppends(w1, l);
    Same(w, w1, w2, [], loads);
    var w3 := if l.entries != [] then RulePair(w2, rr, s4, s6) else w2;
    NothingAppended(w2);
    RulePairAppends(w2, rr, s4, s6);
    var w4 := if l.hasDomains then RulePair(w3, rr, d4, d6) else w3;
    NothingAppended(w3);
    RulePairAppends(w3, rr, d4, d6);
    assert GensOf(w2.fw) == g by { KeepsGens(w, w2, [], loads); }
    Grow(w, w2, w3, [], StaticRules(g, rr, l), loads);
    assert GensOf(w3.fw) == g by { KeepsGens(w, w3, [] + StaticRules(g, rr, l), loads); }
    Grow(w, w3, w4, [] + StaticRules(g, rr, l), DynamicRules(g, rr, l), loads);
    assert [] + StaticRules(g, rr, l) + DynamicRules(g, rr, l) == ListRules(g, rr)(l);
  }

  lemma NamesAgree(fw: Fw, list: string)
    ensures forall v6 :: NameIn(GensOf(fw), v6, list) == StaticName(fw, v6, list)
  {}

  lemma KeepsGens(w: World, v: World, rules: seq<Rule>, loads: seq<Load>)
    requires Appends(w, v, rules, loads)
    ensures GensOf(v.fw) == GensOf(w.fw)
  {}

  lemma Same(w: World, v: World, u: World, a: seq<Rule>, x: seq<Load>)
    requires Appends(w, v, a, x) && Appends(v, u, [], [])
    ensures Appends(w, u, a, x)
  {}

  lemma Grow(w: World, v: World, u: World, a: seq<Rule>, b: seq<Rule>, x: seq<Load>)
    requires Appends(w, v, a, x) && Appends(v, u, b, [])
    ensures Appends(w, u, a + b, x)
  {}

  lemma {:induction false} StageListsAppends(w: World, rr: RouteRule, lists: seq<ListUse>)
    ensures var g := GensOf(w.fw);
            Appends(w, StageLists(w, rr, lists), FlatMap(lists, ListRules(g, rr)), FlatMap(lists, ListLoads(g)))
    decreases |lists|
  {
    hide StageList, Appends, ListRules, ListLoads;
    if lists == [] {
      NothingAppended(w);
    } else {
      var v := StageList(w, rr, lists[0]);
      var g := GensOf(w.fw);
      StageListAppends(w, rr, lists[0]);
      KeepsGens(w, v, ListRules(g, rr)(lists[0]), ListLoads(g)(lists[0]));
      StageListsAppends(v, rr, lists[1..]);
      AppendsThen(w, v, StageLists(v, rr, lists[1..]), ListRules(g, rr)(lists[0]),
                  FlatMap(lists[1..], ListRules(g, rr)),
                  ListLoads(g)(lists[0]), FlatMap(lists[1..], ListLoads(g)));
    }
  }

  lemma StageRuleAppends(w: World, rr: RouteRule)
    ensures var g := GensOf(w.fw); Appends(w, StageRule(w, rr), RouteRules(g)(rr), RouteLoads(g)(rr))
  {
    hide StageLists, Appends, ListRules, ListLoads, ApplyRule, RuleFor, HasSelector, FlatMap;
    var g := GensOf(w.fw);
    var w1 := StageLists(w, rr, rr.lists);
    var rules, loads := FlatMap(rr.lists, ListRules(g, rr)), FlatMap(rr.lists, ListLoads(g));
    StageListsAppends(w, rr, rr.lists);
    ApplyRuleAppends(w1, rr, None);
    Grow(w, w1, ApplyRule(w1, rr, None), rules, RuleFor(rr, None), loads);
    assert rules + [] == rules;
  }

  lemma {:induction false} StageAllAppends(w: World, rules: seq<RouteRule>)
    ensures var g := GensOf(w.fw);
            Appends(w, StageAll(w, rules), FlatMap(rules, RouteRules(g)), FlatMap(rules, RouteLoads(g)))
    decreases |rules|
  {
    hide StageRule, Appends, RouteRules, RouteLoads;
    if rules == [] {
      NothingAppended(w);
    } else {
      var v := StageRule(w, rules[0]);
      var g := GensOf(w.fw);
      StageRuleAppends(w, rules[0]);
      KeepsGens(w, v, RouteRules(g)(rules[0]), RouteLoads(g)(rules[0]));
      StageAllAppends(v, rules[1..]);
      AppendsThen(w, v, StageAll(v, rules[1..]), RouteRules(g)(rules[0]), FlatMap(rules[1..], RouteRules(g)),
                  RouteLoads(g)(rules[0]), FlatMap(rules[1..], RouteLoads(g)));
    }
  }

  // ---------------------------------------------------------------- meaning of the staged rules

  /** A rule over a set applies to the set's own family. */
  predicate Hits(r: Rule, sets: Sets, p: Packet)
  {
    (r.criteria.set_.Some? ==> r.criteria.set_.value.v6 == p.v6) && Wanted(r.criteria, sets, p)
  }

  function FirstHit(rules: seq<Rule>, sets: Sets, p: Packet): Option<Action>
  {
    if rules == [] then None
    else if Hits(rules[0], sets, p) then Some(rules[0].action)
    else FirstHit(rules[1..], sets, p)
  }

  function OrElse(a: Option<Action>, b: Option<Action>): Option<Action> { if a.Some? then a else b }

  lemma {:induction false} FirstHitAppend(a: seq<Rule>, b: seq<Rule>, sets: Sets, p: Packet)
    ensures FirstHit(a + b, sets, p) == OrElse(FirstHit(a, sets, p), FirstHit(b, sets, p))
  {
    hide Hits;
    if a == [] {
      assert a + b == b;
    } else {
      assert (a + b)[1..] == a[1..] + b;
      FirstHitAppend(a[1..], b, sets, p);
    }
  }

  /** With every set known under its own family, matching needs only the names. */
  lemma {:induction false} FirstMatchByName(rules: seq<Rule>, created: map<SetName, bool>, sets: Sets, p: Packet)
    requires forall r :: r in rules && r.criteria.set_.Some? ==>
               r.criteria.set_.value in created && created[r.criteria.set_.value] == r.criteria.set_.value.v6
    ensures FirstMatch(rules, created, sets, p) == FirstHit(rules, sets, p)
  {
    hide Wanted;
    if rules != [] {
      assert rules[0] in rules;
      FirstMatchByName(rules[1..], created, sets, p);
    }
  }

  predicate Rest(rr: RouteRule, sets: Sets, p: Packet) { Written(rr) && Wanted(rr.criteria.(set_ := None), sets, p) }

  function When(hit: bool, a: Action): Option<Action> { if hit then Some(a) else None }

  lemma RuleForMeans(rr: RouteRule, dst: Option<SetName>, sets: Sets, p: Packet)
    ensures FirstHit(RuleFor(rr, dst), sets, p) ==
            When(Rest(rr, sets, p) && (dst.Some? ==> dst.value.v6 == p.v6 && InSet(sets, dst.value, p.dst)), rr.action)
  {
    hide InSet, AddrWanted, ProtoOk, PortOk;
    if Written(rr) {
      var r := Rule(rr.action, rr.criteria.(set_ := dst));
      assert [r][1..] == [];
    }
  }

  lemma RulesOverMean(g: Gens, rr: RouteRule, n4: SetName, n6: SetName, sets: Sets, p: Packet)
    requires !n4.v6 && n6.v6
    ensures FirstHit(RulesOver(g, rr, n4, n6), sets, p) ==
            When(Rest(rr, sets, p) && (p.v6 ==> g.ipv6) && InSet(sets, if p.v6 then n6 else n4, p.dst), rr.action)
  {
    hide InSet, Rest, RuleFor, FirstHit;
    RuleForMeans(rr, Some(n4), sets, p);
    RuleForMeans(rr, Some(n6), sets, p);
    FirstHitAppend(RuleFor(rr, Some(n4)), RuleFor(rr, Some(n6)), sets, p);
    assert RuleFor(rr, Some(n4)) + [] == RuleFor(rr, Some(n4));
  }

  /** A list covers a destination by way of its sets. */
  predicate SetCovers(g: Gens, l: ListUse, sets: Sets, p: Packet)
  {
    && (p.v6 ==> g.ipv6)
    && ((l.entries != [] && InSet(sets, NameIn(g, p.v6, l.name), p.dst))
        || (l.hasDomains && InSet(sets, Dynamic(p.v6, l.name), p.dst)))
  }

  lemma ListRulesMean(g: Gens, rr: RouteRule, l: ListUse, sets: Sets, p: Packet)
    ensures FirstHit(ListRules(g, rr)(l), sets, p) == When(Rest(rr, sets, p) && SetCovers(g, l, sets, p), rr.action)
  {
    hide InSet, Rest, RulesOver, FirstHit;
    RulesOverMean(g, rr, NameIn(g, false, l.name), NameIn(g, true, l.name), sets, p);
    RulesOverMean(g, rr, Dynamic(false, l.name), Dynamic(true, l.name), sets, p);
    NothingHits(sets, p);
    FirstHitAppend(StaticRules(g, rr, l), DynamicRules(g, rr, l), sets, p);
  }

  lemma NothingHits(sets: Sets, p: Packet)
    ensures FirstHit([], sets, p) == None
  {}

  lemma {:induction false} ListsMean(g: Gens, rr: RouteRule, lists: seq<ListUse>, sets: Sets, p: Packet)
    ensures FirstHit(FlatMap(lists, ListRules(g, rr)), sets, p) ==
            When(Rest(rr, sets, p) && exists l :: l in lists && SetCovers(g, l, sets, p), rr.action)
  {
    hide Rest, SetCovers, FirstHit, ListRules;
    NothingHits(sets, p);
    if lists != [] {
      assert lists == [lists[0]] + lists[1..];
      ListsMean(g, rr, lists[1..], sets, p);
      ListRulesMean(g, rr, lists[0], sets, p);
      FirstHitAppend(ListRules(g, rr)(lists[0]), FlatMap(lists[1..], ListRules(g, rr)), sets, p);
    }
  }

  predicate SetRouteMatches(g: Gens, rr: RouteRule, sets: Sets, p: Packet)
  {
    && Rest(rr, sets, p)
    && (if UsesLists(rr) then exists l :: l in rr.lists && SetCovers(g, l, sets, p) else HasSelector(rr.criteria))
  }

  lemma RouteRulesMean(g: Gens, rr: RouteRule, sets: Sets, p: Packet)
    ensures FirstHit(RouteRules(g)(rr), sets, p) == When(SetRouteMatches(g, rr, sets, p), rr.action)
  {
    hide Rest, FirstHit, ListRules, HasSelector, InSet, FlatMap, RuleFor;
    ListsMean(g, rr, rr.lists, sets, p);
    RuleForMeans(rr, None, sets, p);
    NothingHits(sets, p);
    var rules := FlatMap(rr.lists, ListRules(g, rr));
    FirstHitAppend(rules, RuleFor(rr, None), sets, p);
    assert rules + [] == rules;
  }

  // ---------------------------------------------------------------- contents of the staged sets

  /** Lists come from one table by name, so one name means one list. */
  ghost predicate ListsByName(rules: seq<RouteRule>)
  {
    forall r1, l1, r2, l2 :: r1 in rules && l1 in r1.lists && r2 in rules && l2 in r2.lists && l1.name == l2.name ==>
      l1.entries == l2.entries
  }

  lemma {:induction false} ContentsMember(loads: seq<Load>, n: SetName, c: Cidr)
    ensures c in Contents(loads, n) <==> exists ld :: ld in loads && ld.name == n && c in ld.entries
  {
    if loads != [] {
      assert loads == [loads[0]] + loads[1..];
      ContentsMember(loads[1..], n, c);
    }
  }

  lemma LoadComesFromList(g: Gens, rules: seq<RouteRule>, ld: Load)
    requires ld in FlatMap(rules, RouteLoads(g))
    ensures exists rr, l, v6 :: rr in rules && l in rr.lists && l.entries != [] && ld == LoadOf(g, v6, l)
  {
    hide FlatMap, LoadOf;
    FlatMapMember(rules, RouteLoads(g), ld);
    var rr :| rr in rules && ld in RouteLoads(g)(rr);
    FlatMapMember(rr.lists, ListLoads(g), ld);
    var l :| l in rr.lists && ld in ListLoads(g)(l);
    assert ld == LoadOf(g, false, l) || ld == LoadOf(g, true, l);
  }

  lemma ListIsLoaded(g: Gens, rules: seq<RouteRule>, rr: RouteRule, l: ListUse, v6: bool)
    requires rr in rules && l in rr.lists && l.entries != [] && (v6 ==> g.ipv6)
    ensures LoadOf(g, v6, l) in FlatMap(rules, RouteLoads(g))
  {
    hide FlatMap, LoadOf;
    FlatMapMember(rr.lists, ListLoads(g), LoadOf(g, v6, l));
    FlatMapMember(rules, RouteLoads(g), LoadOf(g, v6, l));
  }

  /** A static set is staged with exactly the entries its list has in that family. */
  lemma StagedSetIsList(g: Gens, rules: seq<RouteRule>, rr: RouteRule, l: ListUse, v6: bool, c: Cidr)
    requires ListsByName(rules) && rr in rules && l in rr.lists && l.entries != [] && (v6 ==> g.ipv6)
    ensures c in Contents(FlatMap(rules, RouteLoads(g)), NameIn(g, v6, l.name)) <==> c in l.entries && c.v6 == v6
  {
    hide Contents, FlatMap, RouteLoads;
    var loads, n := FlatMap(rules, RouteLoads(g)), NameIn(g, v6, l.name);
    ContentsMember(loads, n, c);
    ListIsLoaded(g, rules, rr, l, v6);
    if c in Contents(loads, n) {
      var ld :| ld in loads && ld.name == n && c in ld.entries;
      LoadComesFromList(g, rules, ld);
      var rr2, l2, w6 :| rr2 in rules && l2 in rr2.lists && l2.entries != [] && ld == LoadOf(g, w6, l2);
      assert w6 == v6 && l2.name == l.name;
    }
    assert c in l.entries && c.v6 == v6 ==> c in LoadOf(g, v6, l).entries;
  }

  /** The sets hold what was staged for this family. */
  ghost predicate Holds(sets: Sets, loads: seq<Load>, v6: bool)
  {
    forall ld :: ld in loads && ld.name.v6 == v6 ==> ld.name in sets && sets[ld.name] == Contents(loads, ld.name)
  }

  lemma CoversAgree(g: Gens, rules: seq<RouteRule>, rr: RouteRule, l: ListUse, sets: Sets, p: Packet)
    requires ListsByName(rules) && rr in rules && l in rr.lists
    requires Holds(sets, FlatMap(rules, RouteLoads(g)), p.v6)
    ensures SetCovers(g, l, sets, p) <==> ListCovers(l, g.ipv6, sets, p)
  {
    hide Contents, FlatMap, RouteLoads, Covers, ListsByName, Filter;
    var n := NameIn(g, p.v6, l.name);
    if l.entries != [] && (p.v6 ==> g.ipv6) {
      ListIsLoaded(g, rules, rr, l, p.v6);
      assert n in sets && sets[n] == Contents(FlatMap(rules, RouteLoads(g)), n) by {
        assert LoadOf(g, p.v6, l).name == n;
      }
      forall c ensures c in sets[n] <==> c in l.entries && c.v6 == p.v6 { StagedSetIsList(g, rules, rr, l, p.v6, c); }
    }
  }

  lemma MatchesAgree(g: Gens, rules: seq<RouteRule>, rr: RouteRule, sets: Sets, p: Packet)
    requires ListsByName(rules) && rr in rules && Holds(sets, FlatMap(rules, RouteLoads(g)), p.v6)
    ensures SetRouteMatches(g, rr, sets, p) <==> RouteMatches(rr, g.ipv6, sets, p)
  {
    hide FlatMap, RouteLoads, SetCovers, ListCovers, ListsByName, Holds, Wanted;
    forall l | l in rr.lists ensures SetCovers(g, l, sets, p) <==> ListCovers(l, g.ipv6, sets, p) {
      CoversAgree(g, rules, rr, l, sets, p);
    }
  }

  lemma {:induction false} RoutesMean(g: Gens, all: seq<RouteRule>, rules: seq<RouteRule>, sets: Sets, p: Packet)
    requires ListsByName(all) && (forall rr :: rr in rules ==> rr in all)
    requires Holds(sets, FlatMap(all, RouteLoads(g)), p.v6)
    ensures FirstHit(FlatMap(rules, RouteRules(g)), sets, p) == FirstRoute(rules, g.ipv6, sets, p)
    decreases |rules|
  {
    hide RouteLoads, RouteRules, ListsByName, Holds, RouteMatches, SetRouteMatches, Hits;
    NothingHits(sets, p);
    if rules != [] {
      assert rules[0] in rules;
      RouteRulesMean(g, rules[0], sets, p);
      MatchesAgree(g, all, rules[0], sets, p);
      RoutesMean(g, all, rules[1..], sets, p);
      FirstHitAppend(RouteRules(g)(rules[0]), FlatMap(rules[1..], RouteRules(g)), sets, p);
    }
  }

  // ---------------------------------------------------------------- the driver's staging

  /** Whatever was in force before: on sets that hold what was staged, the staged rules give
      every packet the action of the first route rule that matches it. */
  lemma StagingMeansRoutes(w: World, op: Op, sets: Sets, p: Packet)
    requires CreatedOk(w) && !op.Reload? && ListsByName(op.rules)
    requires Holds(sets, StagedFor(w, op).fw.loads, p.v6)
    ensures var v := StagedFor(w, op);
            FirstMatch(v.staged, v.fw.created, sets, p) == FirstRoute(op.rules, op.settings.ipv6, sets, p)
  {
    hide StageAll, FirstMatch, FirstHit, FirstRoute, Holds, RouteLoads, RouteRules, ListsByName, Pending, Targeted,
      FlatMap;
    var v, v0 := StagedFor(w, op), Begin(w, op.settings, op.mode);
    var g := GensOf(v0.fw);
    StagedForOk(w, op);
    StageAllAppends(v0, op.rules);
    assert v.staged == FlatMap(op.rules, RouteRules(g)) && v.fw.loads == FlatMap(op.rules, RouteLoads(g));
    FirstMatchByName(v.staged, v.fw.created, sets, p);
    RoutesMean(g, op.rules, op.rules, sets, p);
  }

  // ---------------------------------------------------------------- a whole refresh

  /** No rule over a list drops or passes, so none is moved out of the generation chain. */
  ghost predicate MarksOnlyLists(rules: seq<RouteRule>)
  {
    forall rr :: rr in rules && UsesLists(rr) ==> rr.action.Mark?
  }

  /** A staged rule is a route rule with its set filled in, and has a set only for a list. */
  predicate ComesFrom(r: Rule, rr: RouteRule)
  {
    && r.action == rr.action && r.criteria == rr.criteria.(set_ := r.criteria.set_)
    && (r.criteria.set_.Some? ==> UsesLists(rr))
  }

  lemma RuleForFrom(rr: RouteRule, dst: Option<SetName>, r: Rule)
    requires r in RuleFor(rr, dst) && (dst.Some? ==> UsesLists(rr))
    ensures ComesFrom(r, rr)
  {
    hide UsesLists;
  }

  lemma ListRulesFrom(g: Gens, rr: RouteRule, l: ListUse, r: Rule)
    requires l in rr.lists && r in ListRules(g, rr)(l)
    ensures ComesFrom(r, rr)
  {
    hide ComesFrom, RuleFor;
    var s4, s6 := NameIn(g, false, l.name), NameIn(g, true, l.name);
    var d4, d6 := Dynamic(false, l.name), Dynamic(true, l.name);
    assert UsesLists(rr);
    if r in RuleFor(rr, Some(s4)) {
      RuleForFrom(rr, Some(s4), r);
    } else if r in RuleFor(rr, Some(s6)) {
      RuleForFrom(rr, Some(s6), r);
    } else if r in RuleFor(rr, Some(d4)) {
      RuleForFrom(rr, Some(d4), r);
    } else {
      RuleForFrom(rr, Some(d6), r);
    }
  }

  lemma StagedRulesFrom(g: Gens, rules: seq<RouteRule>, r: Rule)
    requires r in FlatMap(rules, RouteRules(g))
    ensures exists rr :: rr in rules && ComesFrom(r, rr)
  {
    hide FlatMap, ComesFrom, RuleFor, ListRules, UsesLists, HasSelector;
    FlatMapMember(rules, RouteRules(g), r);
    var rr :| rr in rules && r in RouteRules(g)(rr);
    FlatMapMember(rr.lists, ListRules(g, rr), r);
    if r in FlatMap(rr.lists, ListRules(g, rr)) {
      var l :| l in rr.lists && r in ListRules(g, rr)(l);
      ListRulesFrom(g, rr, l, r);
    } else {
      RuleForFrom(rr, None, r);
    }
  }

  lemma StagedRulesKeep(w: World, op: Op, r: Rule)
    requires !op.Reload? && r in StagedFor(w, op).staged
    ensures exists rr :: rr in op.rules && ComesFrom(r, rr)
  {
    hide StageAll, FlatMap, RouteRules, RouteLoads;
    var v0 := Begin(w, op.settings, op.mode);
    StageAllAppends(v0, op.rules);
    assert StagedFor(w, op).staged == FlatMap(op.rules, RouteRules(GensOf(v0.fw)));
    StagedRulesFrom(GensOf(v0.fw), op.rules, r);
  }

  /** A refresh that switches a family makes the kernel enforce the route rules it was given:
      the installed chains yield the fate that the first matching route rule states, on the
      lists of this refresh and the resolved addresses, exactly for the packets to which
      its spilled rules do no harm. */
  lemma RefreshEnforcesRoutesExactly(w: World, op: Op, p: Packet)
    requires FamilyOk(w, p.v6) && CreatedOk(w) && op.Cycle? && (p.v6 ==> !StaleStep(w, op))
    requires Switches(StagedFor(w, op), op.mode, op.oracle, p.v6)
    requires ListsByName(op.rules) && forall rr :: rr in op.rules ==> Faithful(rr.criteria, p.v6)
    ensures var s, v := StagedFor(w, op), Step(w, op);
            && Dispatcher in Tab(v, p.v6).chains && Tab(v, p.v6).hooks > 0
            && (FateOf(EvalDispatcher(Tab(v, p.v6).chains[Dispatcher], GenChains(Tab(v, p.v6)), v.sets, p)) ==
                FateOf(RoutePolicy(op.rules, op.settings, v.sets, p))
                <==> SpillHarmless(s.staged, s.fw.created, op.settings.pf, v.sets, p))
  {
    hide StageAll, Apply, FirstMatch, FirstRoute, ListsByName, Pending, Targeted, FlatMap, Switches, StaleStep,
      GenLines, DispatcherLines, EvalDispatcher, Actual, PrefilterOutcome, OneBlock, Contents, GoesStale, UsesLists,
      StartTable, SpillHarmless;
    var s, v := StagedFor(w, op), Step(w, op);
    StagedForOk(w, op);
    StepSoundExactly(w, op, p.v6);
    ApplyExactly(s, op.mode, op.oracle);
    assert RunsStaging(s, op.mode, op.oracle, v, p.v6);
    StagedContentsMeans(s, p.v6);
    assert Holds(v.sets, s.fw.loads, p.v6);
    StagingMeansRoutes(w, op, v.sets, p);
    forall r | r in s.staged ensures Faithful(r.criteria, p.v6) { StagedRulesKeep(w, op, r); }
    ScriptMeansActual(s.staged, s.fw.created, s.fw.pf, v.sets, GenChains(Tab(v, p.v6)), TargetGen(s.fw, p.v6), p);
    SpillExact(s.staged, s.fw.created, s.fw.pf, v.sets, p);
  }

  /** When no list rule drops or passes, that is every packet. */
  lemma RefreshEnforcesRoutes(w: World, op: Op, p: Packet)
    requires FamilyOk(w, p.v6) && CreatedOk(w) && op.Cycle? && (p.v6 ==> !StaleStep(w, op))
    requires Switches(StagedFor(w, op), op.mode, op.oracle, p.v6)
    requires ListsByName(op.rules) && forall rr :: rr in op.rules ==> Faithful(rr.criteria, p.v6)
    requires MarksOnlyLists(op.rules)
    ensures var v := Step(w, op);
            && Dispatcher in Tab(v, p.v6).chains
            && FateOf(EvalDispatcher(Tab(v, p.v6).chains[Dispatcher], GenChains(Tab(v, p.v6)), v.sets, p)) ==
               FateOf(RoutePolicy(op.rules, op.settings, v.sets, p))
  {
    hide StageAll, Step, ListsByName, Switches, StaleStep, EvalDispatcher, RoutePolicy, Faithful, FamilyOk, UsesLists,
      Actual, Policy, SpillHarmless;
    RefreshEnforcesRoutesExactly(w, op, p);
    var s, v := StagedFor(w, op), Step(w, op);
    forall r | r in s.staged ensures !Spilled(r.action, r.criteria) { StagedRulesKeep(w, op, r); }
    PolicyWithoutSpills(s.staged, s.fw.created, op.settings.pf, v.sets, p);
    SpillExact(s.staged, s.fw.created, op.settings.pf, v.sets, p);
  }
}
