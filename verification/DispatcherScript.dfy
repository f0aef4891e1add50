/** The two-chain script used at run time: rule lines go to a generation chain that
    the dispatcher jumps to, except that set-matched drop and pass lines are written
    to the dispatcher itself, behind the jump. */
module DispatcherScript {
  import opened Common
  import opened Bits
  import opened Netfilter
  import opened RuleCompiler

  /** Rules whose lines land in the dispatcher. */
  predicate Spilled(action: Action, c: Criteria) { c.set_.Some? && !action.Mark? }

  function SpillsPending(): PendingRule -> bool { (pr: PendingRule) => Spilled(pr.action, pr.criteria) }
  function StaysPending(): PendingRule -> bool { (pr: PendingRule) => !Spilled(pr.action, pr.criteria) }
  function SpillsRule(): Rule -> bool { (r: Rule) => Spilled(r.action, r.criteria) }
  function StaysRule(): Rule -> bool { (r: Rule) => !Spilled(r.action, r.criteria) }

  function GenLines(pending: seq<PendingRule>, pf: Prefilter, v6: bool): seq<Line>
  {
    ChainLines(Filter(pending, StaysPending()), pf, v6)
  }

  function SpillLines(pending: seq<PendingRule>, pf: Prefilter, v6: bool): seq<Line>
  {
    FamilyLines(Filter(pending, SpillsPending()), pf, v6)
  }

  function DispatcherLines(pending: seq<PendingRule>, pf: Prefilter, v6: bool, g: Generation): seq<Line>
  {
    [Line(Everything, Jump(g))] + SpillLines(pending, pf, v6)
  }

  lemma {:induction false} FilterFlatMap<T(!new), U(!new)>(s: seq<T>, f: T -> seq<U>, keep: T -> bool,
                                                           keepEach: U -> bool)
    requires forall x, y :: x in s && y in f(x) ==> keepEach(y) == keep(x)
    ensures Filter(FlatMap(s, f), keepEach) == FlatMap(Filter(s, keep), f)
  {
    if s != [] {
      var x, rest := s[0], s[1..];
      assert s == [x] + rest;
      FilterFlatMap(rest, f, keep, keepEach);
      FilterAppend(f(x), FlatMap(rest, f), keepEach);
      if keep(x) {
        FilterAll(f(x), keepEach);
        FlatMapAppend([x], Filter(rest, keep), f);
        FlatMapOne(x, f);
      } else {
        FilterNone(f(x), keepEach);
        assert [] + Filter(rest, keep) == Filter(rest, keep);
      }
    }
  }

  /** The filters on pending rules and on route rules select corresponding parts. */
  lemma FilterPending(rules: seq<Rule>, created: map<SetName, bool>)
    ensures Filter(Pending(rules, created), StaysPending()) == Pending(Filter(rules, StaysRule()), created)
    ensures Filter(Pending(rules, created), SpillsPending()) == Pending(Filter(rules, SpillsRule()), created)
  {
    forall r | r in rules
      ensures forall pr :: pr in ByRule(created)(r) ==> pr.action == r.action && pr.criteria.set_ == r.criteria.set_
    {
      SameActionAndSet(r, created);
    }
    FilterFlatMap(rules, ByRule(created), StaysRule(), StaysPending());
    FilterFlatMap(rules, ByRule(created), SpillsRule(), SpillsPending());
  }

  lemma SameActionAndSet(r: Rule, created: map<SetName, bool>)
    ensures forall pr :: pr in ByRule(created)(r) ==> pr.action == r.action && pr.criteria.set_ == r.criteria.set_
  {
    hide Expand;
    forall pr | pr in ByRule(created)(r) ensures pr.action == r.action && pr.criteria.set_ == r.criteria.set_ {
      FlatMapMember(Families(created, r.criteria), ByRuleFamily(r), pr);
      var v6 :| v6 in Families(created, r.criteria) && pr in ByRuleFamily(r)(v6);
      ExpandMember(v6, r.action, r.criteria, pr);
    }
  }

  lemma RuleHasNoJumps(pr: PendingRule, pf: Prefilter, l: Line)
    requires l in RuleLines(pr, pf)
    ensures !l.target.Jump?
  {
    hide Selectors;
    FlatMapMember(Selectors(pr.criteria, pf), Unit(pr.action, pf), l);
  }

  lemma NoJumps(pending: seq<PendingRule>, pf: Prefilter, v6: bool)
    ensures forall l :: l in FamilyLines(pending, pf, v6) ==> !l.target.Jump?
  {
    hide RuleLines;
    var prs := Filter(pending, OfFamily(v6));
    forall l | l in FamilyLines(pending, pf, v6) ensures !l.target.Jump? {
      FlatMapMember(prs, ByPending(pf), l);
      var pr :| pr in prs && l in ByPending(pf)(pr);
      RuleHasNoJumps(pr, pf, l);
    }
  }

  /** What the two-chain script does: the remaining rules first, then, unless the
      packet was dropped or accepted, the spilled rules in their own order. */
  function Actual(rules: seq<Rule>, created: map<SetName, bool>, pf: Prefilter, sets: Sets, p: Packet): Outcome
  {
    var o := AfterCall(Policy(Filter(rules, StaysRule()), created, pf, sets, p));
    if !o.Go? || !LineIface(pf, o.p) then o
    else
      match FirstMatch(Filter(rules, SpillsRule()), created, sets, o.p)
      case None => o
      case Some(action) => ActionOutcome(action, pf, o.p)
  }

  lemma PolicyKeepsFamily(rules: seq<Rule>, created: map<SetName, bool>, pf: Prefilter, sets: Sets, p: Packet)
    ensures var o := Policy(rules, created, pf, sets, p);
            !o.Dropped? ==> o.p == p.(mark := o.p.mark, ctmark := o.p.ctmark)
  {}

  /** For every rule list and packet the installed dispatcher and chain behave as `Actual`. */
  lemma ScriptMeansActual(rules: seq<Rule>, created: map<SetName, bool>, pf: Prefilter, sets: Sets,
                          chains: map<Generation, seq<Line>>, g: Generation, p: Packet)
    requires forall r :: r in rules ==> Faithful(r.criteria, p.v6)
    requires g in chains && chains[g] == GenLines(Pending(rules, created), pf, p.v6)
    ensures EvalDispatcher(DispatcherLines(Pending(rules, created), pf, p.v6, g), chains, sets, p) ==
            Actual(rules, created, pf, sets, p)
  {
    hide ActionOutcome, FirstMatch, FamilyLines, ChainLines, Faithful, Policy, EvalChain;
    var stays, spills := Filter(rules, StaysRule()), Filter(rules, SpillsRule());
    FilterPending(rules, created);
    SingleChainMeansPolicy(stays, created, pf, sets, p);
    PolicyKeepsFamily(stays, created, pf, sets, p);
    var o := AfterCall(Policy(stays, created, pf, sets, p));
    var lines := DispatcherLines(Pending(rules, created), pf, p.v6, g);
    assert lines[1..] == SpillLines(Pending(rules, created), pf, p.v6);
    if o.Go? {
      NoJumps(Pending(spills, created), pf, p.v6);
      DispatcherTail(lines[1..], chains, sets, o.p);
      ListEval(spills, created, pf, sets, o.p);
    }
  }

  /** What becomes of the packet, whichever chain it left. */
  datatype Fate = Lost | Kept(mark: nat, ctmark: nat)

  function FateOf(o: Outcome): Fate
  {
    if o.Dropped? then Lost else Kept(o.p.mark, o.p.ctmark)
  }

  /** The run-time script enforces the stated policy when no set-matched rule drops or passes. */
  lemma PolicyWithoutSpills(rules: seq<Rule>, created: map<SetName, bool>, pf: Prefilter, sets: Sets, p: Packet)
    requires forall r :: r in rules ==> !Spilled(r.action, r.criteria)
    ensures FateOf(Actual(rules, created, pf, sets, p)) == FateOf(Policy(rules, created, pf, sets, p))
  {
    FilterAll(rules, StaysRule());
    FilterNone(rules, SpillsRule());
  }

  lemma {:induction false} FirstMatchSplits(rules: seq<Rule>, created: map<SetName, bool>, sets: Sets, p: Packet)
    ensures var f := FirstMatch(rules, created, sets, p);
            var k := FirstMatch(Filter(rules, StaysRule()), created, sets, p);
            var d := FirstMatch(Filter(rules, SpillsRule()), created, sets, p);
            && (f == k || f == d)
            && (d == None ==> f == k)
            && (d.Some? ==> f.Some?)
  {
    hide Wanted, Families, Filter, FirstMatch, Spilled;
    if rules == [] {
      NothingMatches(created, sets, p);
    } else {
      var r, rest := rules[0], rules[1..];
      assert rules == [r] + rest;
      FirstMatchSplits(rest, created, sets, p);
      FirstMatchCons(r, rest, created, sets, p);
      FilterCons(r, rest, StaysRule());
      FilterCons(r, rest, SpillsRule());
      if Spilled(r.action, r.criteria) {
        FirstMatchCons(r, Filter(rest, SpillsRule()), created, sets, p);
        assert [] + Filter(rest, StaysRule()) == Filter(rest, StaysRule());
      } else {
        FirstMatchCons(r, Filter(rest, StaysRule()), created, sets, p);
        assert [] + Filter(rest, SpillsRule()) == Filter(rest, SpillsRule());
      }
    }
  }

  lemma NothingMatches(created: map<SetName, bool>, sets: Sets, p: Packet)
    ensures FirstMatch([], created, sets, p) == None
    ensures Filter<Rule>([], StaysRule()) == [] && Filter<Rule>([], SpillsRule()) == []
  {}

  lemma FirstMatchCons(r: Rule, rest: seq<Rule>, created: map<SetName, bool>, sets: Sets, p: Packet)
    ensures FirstMatch([r] + rest, created, sets, p) ==
            if p.v6 in Families(created, r.criteria) && Wanted(r.criteria, sets, p) then Some(r.action)
            else FirstMatch(rest, created, sets, p)
  {
    hide Wanted, Families;
    assert ([r] + rest)[1..] == rest;
  }

  lemma {:induction false} SpillsNeverMark(rules: seq<Rule>, created: map<SetName, bool>, sets: Sets, p: Packet)
    requires forall r :: r in rules ==> Spilled(r.action, r.criteria)
    ensures var d := FirstMatch(rules, created, sets, p); d.Some? ==> !d.value.Mark?
  {
    if rules != [] { SpillsNeverMark(rules[1..], created, sets, p); }
  }

  lemma {:induction false} FirstMatchIgnoresMarks(rules: seq<Rule>, created: map<SetName, bool>, sets: Sets,
                                                  p: Packet, q: Packet)
    requires q == p.(mark := q.mark, ctmark := q.ctmark)
    ensures FirstMatch(rules, created, sets, p) == FirstMatch(rules, created, sets, q)
  {
    if rules != [] { FirstMatchIgnoresMarks(rules[1..], created, sets, p, q); }
  }

  /** Which spilled rules are harmless for a packet that reaches the rules: a spilled
      drop only where the policy drops anyway, a spilled pass only where the first
      match is not spilled or the remaining rules leave the marks alone. */
  predicate HarmlessInside(rules: seq<Rule>, created: map<SetName, bool>, pf: Prefilter, sets: Sets, p: Packet)
  {
    var f := FirstMatch(rules, created, sets, p);
    var k := FirstMatch(Filter(rules, StaysRule()), created, sets, p);
    match FirstMatch(Filter(rules, SpillsRule()), created, sets, p)
    case None => true
    case Some(DropIt) => f == Some(DropIt)
    case Some(_) => f == k || k == None || FateOf(ActionOutcome(k.value, pf, p)) == Kept(p.mark, p.ctmark)
  }

  /** The same for every packet. One the prefilter returns leaves the generation chain and
      then meets the spilled lines, which it was meant to bypass: only a spilled drop
      harms it. One the prefilter accepts, or that came in elsewhere, meets none. */
  predicate SpillHarmless(rules: seq<Rule>, created: map<SetName, bool>, pf: Prefilter, sets: Sets, p: Packet)
  {
    match PrefilterOutcome(pf, p)
    case Returned(q) => LineIface(pf, q) ==> FirstMatch(Filter(rules, SpillsRule()), created, sets, q) != Some(DropIt)
    case Go(q) => InboundOk(pf, q) ==> HarmlessInside(rules, created, pf, sets, q)
    case _ => true
  }

  lemma SpillExactInside(rules: seq<Rule>, created: map<SetName, bool>, pf: Prefilter, sets: Sets, p: Packet)
    requires PrefilterOutcome(pf, p) == Go(p) && InboundOk(pf, p)
    ensures FateOf(Actual(rules, created, pf, sets, p)) == FateOf(Policy(rules, created, pf, sets, p))
            <==> HarmlessInside(rules, created, pf, sets, p)
  {
    hide FirstMatch, Xmark, PrefilterOutcome, Filter;
    FirstMatchSplits(rules, created, sets, p);
    SpillsNeverMark(Filter(rules, SpillsRule()), created, sets, p);
    var o := AfterCall(Policy(Filter(rules, StaysRule()), created, pf, sets, p));
    if o.Go? { FirstMatchIgnoresMarks(Filter(rules, SpillsRule()), created, sets, p, o.p); }
  }

  /** With one inbound interface the prefilter returns everyone else's packets. */
  lemma StrangersMeetNoLine(pf: Prefilter, p: Packet)
    requires PrefilterOutcome(pf, p) == Go(p) && !InboundOk(pf, p)
    ensures !LineIface(pf, p)
  {
    hide And;
  }

  /** For every rule list, prefilter, set contents and packet: the run-time script gives
      the packet the fate the policy states exactly when its spilled rules are harmless. */
  lemma SpillExact(rules: seq<Rule>, created: map<SetName, bool>, pf: Prefilter, sets: Sets, p: Packet)
    ensures FateOf(Actual(rules, created, pf, sets, p)) == FateOf(Policy(rules, created, pf, sets, p))
            <==> SpillHarmless(rules, created, pf, sets, p)
  {
    hide FirstMatch, Xmark, PrefilterOutcome, Filter;
    PrefilterEval(pf, sets, p);
    var o := PrefilterOutcome(pf, p);
    if o.Go? && InboundOk(pf, p) {
      SpillExactInside(rules, created, pf, sets, p);
    } else if o.Returned? {
      SpillsNeverMark(Filter(rules, SpillsRule()), created, sets, o.p);
    } else if o.Go? {
      StrangersMeetNoLine(pf, p);
    }
  }

  /** A packet from another interface, which the prefilter returns: the policy keeps it,
      the installed script drops it. */
  lemma ReturnedPacketMeetsSpilledDrop(sets: Sets, p: Packet)
    requires !p.v6 && p.iface == "eth9" && InSet(sets, Dynamic(false, "ads"), p.dst)
    ensures var any := Criteria(None, None, AnyProto, Ports(false, []), Ports(false, []), [], [], false, false);
            var ads := Dynamic(false, "ads");
            var rules := [Rule(DropIt, any.(set_ := Some(ads)))];
            var pf := Prefilter(["br0"], false, false, false, 0);
            && FateOf(Policy(rules, map[ads := false], pf, sets, p)) == Kept(p.mark, p.ctmark)
            && FateOf(Actual(rules, map[ads := false], pf, sets, p)) == Lost
  {
    var any := Criteria(None, None, AnyProto, Ports(false, []), Ports(false, []), [], [], false, false);
    var ads := Dynamic(false, "ads");
    var drop := Rule(DropIt, any.(set_ := Some(ads)));
    var pf := Prefilter(["br0"], false, false, false, 0);
    FilterNone([drop], StaysRule());
    FilterAll([drop], SpillsRule());
    assert "eth9" != "br0";
    assert PrefilterOutcome(pf, p) == Returned(p);
    assert FirstMatch([drop], map[ads := false], sets, p) == Some(DropIt);
  }

  /** A set-matched pass rule ahead of a mark rule: the policy leaves the packet
      unmarked, the installed script marks it. */
  lemma SpilledPassLosesToLaterMark(sets: Sets, p: Packet)
    requires !p.v6 && p.mark == 0 && p.ctmark == 0 && !p.dnat
    requires InSet(sets, Dynamic(false, "lan"), p.dst)
    ensures var any := Criteria(None, None, AnyProto, Ports(false, []), Ports(false, []), [], [], false, false);
            var lan := Dynamic(false, "lan");
            var rules := [Rule(Pass, any.(set_ := Some(lan))), Rule(Mark(1, 1), any)];
            var pf := Prefilter([], true, true, false, 0);
            && FateOf(Policy(rules, map[lan := false], pf, sets, p)) == Kept(0, 0)
            && FateOf(Actual(rules, map[lan := false], pf, sets, p)) == Kept(1, 0)
  {
    var any := Criteria(None, None, AnyProto, Ports(false, []), Ports(false, []), [], [], false, false);
    var lan := Dynamic(false, "lan");
    var pass, mark := Rule(Pass, any.(set_ := Some(lan))), Rule(Mark(1, 1), any);
    var rules := [pass, mark];
    assert rules[1..] == [mark];
    assert Filter([mark], StaysRule()) == [mark] && Filter([mark], SpillsRule()) == [];
    assert Filter(rules, StaysRule()) == [mark];
    assert Filter(rules, SpillsRule()) == [pass];
    assert Xmark(0, 1, 1) == 1;
  }
}
