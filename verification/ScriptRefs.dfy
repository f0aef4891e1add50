/** Which sets the lines of a restore script name: exactly those of its pending rules. */
module ScriptRefs {
  import opened Common
  import opened Netfilter
  import opened RuleCompiler
  import opened DispatcherScript
  import opened Kernel
  import opened RestoreScript

  lemma UnitRefs(m: Match, action: Action, pf: Prefilter, l: Line)
    requires l in UnitLines(m, action, pf)
    ensures l.m == m && !l.target.Jump?
  {}

  lemma SelectorRefs(c: Criteria, pf: Prefilter, m: Match)
    requires m in Selectors(c, pf)
    ensures m.Selector? && m.set_ == c.set_
  {
    hide ExpandProtos, IfaceChoices, FlatMap, Map;
    FlatMapMember(ExpandProtos(c), ByLineProto(c, pf), m);
    var proto :| proto in ExpandProtos(c) && m in ByLineProto(c, pf)(proto);
    MapMember(IfaceChoices(pf), ByIface(c, proto), m);
  }

  lemma RuleLinesRefs(pr: PendingRule, pf: Prefilter, l: Line)
    requires l in RuleLines(pr, pf)
    ensures l.m.Selector? && l.m.set_ == pr.criteria.set_ && !l.target.Jump?
  {
    hide Selectors, UnitLines, FlatMap;
    FlatMapMember(Selectors(pr.criteria, pf), Unit(pr.action, pf), l);
    var m :| m in Selectors(pr.criteria, pf) && l in Unit(pr.action, pf)(m);
    UnitRefs(m, pr.action, pf, l);
    SelectorRefs(pr.criteria, pf, m);
  }

  lemma PendingRefs(rules: seq<Rule>, created: map<SetName, bool>, pr: PendingRule)
    requires pr in Pending(rules, created)
    ensures exists r :: r in rules && r.criteria.set_ == pr.criteria.set_ && pr.v6 in Families(created, r.criteria)
  {
    hide Expand, Families;
    FlatMapMember(rules, ByRule(created), pr);
    var r :| r in rules && pr in ByRule(created)(r);
    FlatMapMember(Families(created, r.criteria), ByRuleFamily(r), pr);
    var v6 :| v6 in Families(created, r.criteria) && pr in ByRuleFamily(r)(v6);
    ExpandMember(v6, r.action, r.criteria, pr);
  }

  lemma FamilyLinesRefs(pending: seq<PendingRule>, pf: Prefilter, v6: bool, l: Line)
    requires l in FamilyLines(pending, pf, v6)
    ensures !l.target.Jump? && l.m.Selector?
    ensures exists pr :: pr in pending && pr.v6 == v6 && l.m.set_ == pr.criteria.set_
  {
    hide RuleLines;
    FlatMapMember(Filter(pending, OfFamily(v6)), ByPending(pf), l);
    var pr :| pr in Filter(pending, OfFamily(v6)) && l in ByPending(pf)(pr);
    RuleLinesRefs(pr, pf, l);
  }

  lemma PrefilterHasNoSets(pf: Prefilter, l: Line)
    requires l in PrefilterLines(pf)
    ensures !l.m.Selector? && !l.target.Jump?
  {}

  /** Every pending rule is written as at least one line. */
  lemma RuleHasLine(pr: PendingRule, pf: Prefilter) returns (l: Line)
    ensures l in RuleLines(pr, pf)
  {
    var proto, iface := ExpandProtos(pr.criteria)[0], IfaceChoices(pf)[0];
    var m := ByIface(pr.criteria, proto)(iface);
    MapMember(IfaceChoices(pf), ByIface(pr.criteria, proto), m);
    FlatMapMember(ExpandProtos(pr.criteria), ByLineProto(pr.criteria, pf), m);
    l := Unit(pr.action, pf)(m)[0];
    FlatMapMember(Selectors(pr.criteria, pf), Unit(pr.action, pf), l);
  }

  lemma ScaffoldHasNoSets(g: Generation, replace: bool, c: RestoreCmd)
    requires c in ScaffoldCmds(g, replace) && c.AppendLine?
    ensures !c.line.m.Selector?
  {}

  lemma RuleCmdRefs(pr: PendingRule, pf: Prefilter, g: Generation, c: RestoreCmd)
    requires c in RuleCmds(pf, g)(pr) && c.AppendLine?
    ensures c.line.m.Selector? && c.line.m.set_ == pr.criteria.set_
  {
    hide RuleLines;
    MapMember(RuleLines(pr, pf), ToAppend(ChainFor(pr, g)), c);
    RuleLinesRefs(pr, pf, c.line);
  }

  /** The sets a family's pending rules name are all there. */
  predicate RuleSetsExist(pending: seq<PendingRule>, v6: bool, sets: Sets)
  {
    forall pr :: pr in pending && pr.v6 == v6 && pr.criteria.set_.Some? ==> pr.criteria.set_.value in sets
  }

  lemma ScriptNamesRule(v6: bool, g: Generation, replace: bool, pending: seq<PendingRule>, pf: Prefilter,
                        pr: PendingRule)
    returns (c: RestoreCmd)
    requires pr in pending && pr.v6 == v6
    ensures c in IptScript(v6, g, replace, pending, pf)
    ensures c.AppendLine? && c.line.m.Selector? && c.line.m.set_ == pr.criteria.set_
  {
    hide RuleLines, ScaffoldCmds, PrefilterLines;
    var l := RuleHasLine(pr, pf);
    c := AppendLine(ChainFor(pr, g), l);
    MapMember(RuleLines(pr, pf), ToAppend(ChainFor(pr, g)), c);
    RuleLinesRefs(pr, pf, l);
    FlatMapMember(Filter(pending, OfFamily(v6)), RuleCmds(pf, g), c);
  }

  lemma ScriptNamesOnlyRules(v6: bool, g: Generation, replace: bool, pending: seq<PendingRule>, pf: Prefilter,
                             c: RestoreCmd)
    returns (pr: PendingRule)
    requires c in IptScript(v6, g, replace, pending, pf)
    requires c.AppendLine? && c.line.m.Selector?
    ensures pr in pending && pr.v6 == v6 && c.line.m.set_ == pr.criteria.set_
  {
    hide RuleLines, ScaffoldCmds, PrefilterLines, RuleCmds;
    var prefilter := Map(PrefilterLines(pf), ToAppend(GenChain(g)));
    if c in ScaffoldCmds(g, replace) { ScaffoldHasNoSets(g, replace, c); }
    MapMember(PrefilterLines(pf), ToAppend(GenChain(g)), c);
    if c in prefilter { PrefilterHasNoSets(pf, c.line); }
    FlatMapMember(Filter(pending, OfFamily(v6)), RuleCmds(pf, g), c);
    pr :| pr in Filter(pending, OfFamily(v6)) && c in RuleCmds(pf, g)(pr);
    RuleCmdRefs(pr, pf, g, c);
  }

  /** The kernel accepts a script's set references exactly when the sets of the family's
      pending rules exist. */
  lemma ScriptSets(v6: bool, g: Generation, replace: bool, pending: seq<PendingRule>, pf: Prefilter, sets: Sets)
    ensures SetsExist(IptScript(v6, g, replace, pending, pf), sets) <==> RuleSetsExist(pending, v6, sets)
  {
    hide IptScript;
    var script := IptScript(v6, g, replace, pending, pf);
    if SetsExist(script, sets) {
      forall pr | pr in pending && pr.v6 == v6 && pr.criteria.set_.Some? ensures pr.criteria.set_.value in sets {
        var c := ScriptNamesRule(v6, g, replace, pending, pf, pr);
      }
    }
    if RuleSetsExist(pending, v6, sets) {
      forall c | c in script && c.AppendLine? && c.line.m.Selector? && c.line.m.set_.Some?
        ensures c.line.m.set_.value in sets
      {
        var pr := ScriptNamesOnlyRules(v6, g, replace, pending, pf, c);
      }
    }
  }
}
