/** The rule compiler of the iptables backend: route rules are expanded over
    protocol, source, destination and inbound interface into chain lines. The
    theorems compare those lines with the first matching unexpanded rule. */
module RuleCompiler {
  import opened Common
  import opened Bits
  import opened Netfilter

  datatype Criteria = Criteria(
    set_: Option<SetName>, dscp: Option<nat>, proto: Proto, sport: Ports, dport: Ports,
    src: seq<Cidr>, dst: seq<Cidr>, negSrc: bool, negDst: bool)

  datatype Action = Mark(value: nat, mask: nat) | DropIt | Pass

  datatype Rule = Rule(action: Action, criteria: Criteria)

  datatype PendingRule = PendingRule(v6: bool, action: Action, criteria: Criteria)

  datatype Prefilter = Prefilter(
    ifaces: seq<string>, skipDnat: bool, skipMarked: bool, restore: bool, ctMask: nat)

  predicate SavesMark(pf: Prefilter) { pf.restore && pf.ctMask != 0 }

  // ---------------------------------------------------------------- intended meaning

  function ByFamily(addrs: seq<Cidr>, v6: bool): (r: seq<Cidr>)
    ensures forall c :: c in r <==> c in addrs && c.v6 == v6
  {
    Filter(addrs, (c: Cidr) => c.v6 == v6)
  }

  /** An address list restricts the families it names; negated, it means "none of these". */
  predicate AddrWanted(addrs: seq<Cidr>, negate: bool, v6: bool, a: nat)
  {
    addrs == [] ||
    (ByFamily(addrs, v6) != [] &&
     negate != exists c :: c in ByFamily(addrs, v6) && Covers(c, a))
  }

  predicate Wanted(c: Criteria, sets: Sets, p: Packet)
  {
    && (c.set_.Some? ==> InSet(sets, c.set_.value, p.dst))
    && AddrWanted(c.src, c.negSrc, p.v6, p.src)
    && AddrWanted(c.dst, c.negDst, p.v6, p.dst)
    && (c.dscp.Some? ==> p.dscp == c.dscp.value)
    && ProtoOk(c.proto, p.l4) && PortOk(c.sport, p.sport, p.l4) && PortOk(c.dport, p.dport, p.l4)
  }

  /** Families a rule is written for: that of its set as created, otherwise both. */
  function Families(created: map<SetName, bool>, c: Criteria): (r: seq<bool>)
  {
    if c.set_.Some? then [c.set_.value in created && created[c.set_.value]] else [false, true]
  }

  function FirstMatch(rules: seq<Rule>, created: map<SetName, bool>, sets: Sets, p: Packet): Option<Action>
  {
    if rules == [] then None
    else if p.v6 in Families(created, rules[0].criteria) && Wanted(rules[0].criteria, sets, p)
    then Some(rules[0].action)
    else FirstMatch(rules[1..], created, sets, p)
  }

  function ActionOutcome(action: Action, pf: Prefilter, p: Packet): (o: Outcome)
    ensures !o.Go? && !o.Accepted?
  {
    match action
    case Mark(value, mask) =>
      var q := p.(mark := Xmark(p.mark, value, mask));
      Returned(if SavesMark(pf) then q.(ctmark := Xmark(q.ctmark, And(q.mark, pf.ctMask), pf.ctMask)) else q)
    case DropIt => Dropped
    case Pass => Returned(p)
  }

  function Restored(pf: Prefilter, p: Packet): Packet
  {
    if SavesMark(pf) && p.original && And(p.ctmark, pf.ctMask) != 0
    then p.(mark := Xmark(p.mark, And(p.ctmark, pf.ctMask), pf.ctMask)) else p
  }

  /** Before any rule: a marked connection gets its mark back and is not classified
      again; translated or already marked packets are left alone. */
  function PrefilterOutcome(pf: Prefilter, p: Packet): Outcome
  {
    var q := Restored(pf, p);
    if SavesMark(pf) && q.original && And(q.mark, pf.ctMask) != 0 then Returned(q)
    else if pf.skipDnat && q.dnat then Returned(q)
    else if pf.skipMarked && q.mark != 0 then Accepted(q)
    else if |pf.ifaces| == 1 && q.iface != pf.ifaces[0] then Returned(q)
    else Go(q)
  }

  predicate InboundOk(pf: Prefilter, p: Packet) { pf.ifaces == [] || p.iface in pf.ifaces }

  /** The policy a rule list states: prefilter, then the first matching rule. */
  function Policy(rules: seq<Rule>, created: map<SetName, bool>, pf: Prefilter, sets: Sets, p: Packet): Outcome
  {
    var o := PrefilterOutcome(pf, p);
    if !o.Go? || !InboundOk(pf, p) then o
    else
      match FirstMatch(rules, created, sets, p)
      case None => o
      case Some(action) => ActionOutcome(action, pf, p)
  }

  // ---------------------------------------------------------------- expansion

  function ExpandProtos(c: Criteria): (r: seq<Proto>)
    ensures forall x :: x in r ==> x != TcpUdp
  {
    if c.proto == TcpUdp || (c.proto == AnyProto && (c.sport.ranges != [] || c.dport.ranges != []))
    then [Tcp, Udp] else [c.proto]
  }

  function AddrChoices(addrs: seq<Cidr>, v6: bool): seq<Option<Cidr>>
  {
    if addrs == [] then [None] else Map(ByFamily(addrs, v6), (c: Cidr) => Some(c))
  }

  function Single(choice: Option<Cidr>): seq<Cidr>
  {
    if choice.Some? then [choice.value] else []
  }

  function ByDst(v6: bool, action: Action, c: Criteria, proto: Proto, s: Option<Cidr>): Option<Cidr> -> PendingRule
  {
    d => PendingRule(v6, action, c.(proto := proto, src := Single(s), dst := Single(d)))
  }

  function BySrc(v6: bool, action: Action, c: Criteria, proto: Proto): Option<Cidr> -> seq<PendingRule>
  {
    s => Map(AddrChoices(c.dst, v6), ByDst(v6, action, c, proto, s))
  }

  function ByProto(v6: bool, action: Action, c: Criteria): Proto -> seq<PendingRule>
  {
    proto => FlatMap(AddrChoices(c.src, v6), BySrc(v6, action, c, proto))
  }

  /** `append_rules_for_family`: one pending rule per protocol, source and destination. */
  function Expand(v6: bool, action: Action, c: Criteria): seq<PendingRule>
  {
    FlatMap(ExpandProtos(c), ByProto(v6, action, c))
  }

  function ByRuleFamily(r: Rule): bool -> seq<PendingRule>
  {
    v6 => Expand(v6, r.action, r.criteria)
  }

  function ByRule(created: map<SetName, bool>): Rule -> seq<PendingRule>
  {
    (r: Rule) => FlatMap(Families(created, r.criteria), ByRuleFamily(r))
  }

  /** The pending rules a sequence of `create_*_rule` calls leaves behind. */
  function Pending(rules: seq<Rule>, created: map<SetName, bool>): seq<PendingRule>
  {
    FlatMap(rules, ByRule(created))
  }

  function IfaceChoices(pf: Prefilter): seq<Option<string>>
  {
    if |pf.ifaces| > 1 then Map(pf.ifaces, (i: string) => Some(i)) else [None]
  }

  function ToAddr(addrs: seq<Cidr>, negate: bool): AddrMatch
  {
    if addrs == [] then AnyAddr else Addr(negate, addrs[0])
  }

  function ByIface(c: Criteria, proto: Proto): Option<string> -> Match
  {
    i => Selector(c.set_, i, ToAddr(c.src, c.negSrc), ToAddr(c.dst, c.negDst), c.dscp, proto, c.sport, c.dport)
  }

  function ByLineProto(c: Criteria, pf: Prefilter): Proto -> seq<Match>
  {
    proto => Map(IfaceChoices(pf), ByIface(c, proto))
  }

  function Selectors(c: Criteria, pf: Prefilter): seq<Match>
  {
    FlatMap(ExpandProtos(c), ByLineProto(c, pf))
  }

  function UnitLines(m: Match, action: Action, pf: Prefilter): seq<Line>
  {
    match action
    case Mark(value, mask) =>
      [Line(m, SetXmark(value, mask))]
      + (if SavesMark(pf) then [Line(m, SaveMark(pf.ctMask))] else [])
      + [Line(m, Return)]
    case DropIt => [Line(m, Drop)]
    case Pass => [Line(m, Return)]
  }

  function Unit(action: Action, pf: Prefilter): Match -> seq<Line>
  {
    m => UnitLines(m, action, pf)
  }

  /** `build_rule_lines`, without the chain name. */
  function RuleLines(pr: PendingRule, pf: Prefilter): seq<Line>
  {
    FlatMap(Selectors(pr.criteria, pf), Unit(pr.action, pf))
  }

  function ByPending(pf: Prefilter): PendingRule -> seq<Line>
  {
    pr => RuleLines(pr, pf)
  }

  function PrefilterLines(pf: Prefilter): seq<Line>
  {
    (if SavesMark(pf) then
       [Line(OriginalWithCtmark(pf.ctMask), RestoreMark(pf.ctMask)), Line(OriginalWithMark(pf.ctMask), Return)]
     else [])
    + (if pf.skipDnat then [Line(DnatState, Return)] else [])
    + (if pf.skipMarked then [Line(AnyMark, Accept)] else [])
    + (if |pf.ifaces| == 1 then [Line(NotFrom(pf.ifaces[0]), Return)] else [])
  }

  function OfFamily(v6: bool): PendingRule -> bool { (pr: PendingRule) => pr.v6 == v6 }

  function FamilyLines(pending: seq<PendingRule>, pf: Prefilter, v6: bool): seq<Line>
  {
    FlatMap(Filter(pending, OfFamily(v6)), ByPending(pf))
  }

  /** The whole chain of the single-chain script. */
  function ChainLines(pending: seq<PendingRule>, pf: Prefilter, v6: bool): seq<Line>
  {
    PrefilterLines(pf) + FamilyLines(pending, pf, v6)
  }

  // ---------------------------------------------------------------- negated address lists

  /** What the expansion tests: one line per listed address of the family. */
  predicate AddrExpanded(addrs: seq<Cidr>, negate: bool, v6: bool, a: nat)
  {
    addrs == [] || exists c :: c in ByFamily(addrs, v6) && negate != Covers(c, a)
  }

  predicate WellFormed(c: Cidr)
  {
    c.len <= Width(c.v6) && c.base < Pow2(Width(c.v6))
  }

  predicate SameBlock(c: Cidr, d: Cidr)
  {
    BlockSize(c) == BlockSize(d) && c.base / BlockSize(c) == d.base / BlockSize(d)
  }

  /** Every listed address of the family names the same block. */
  predicate OneBlock(addrs: seq<Cidr>, v6: bool)
  {
    forall c, d :: c in ByFamily(addrs, v6) && d in ByFamily(addrs, v6) ==> SameBlock(c, d)
  }

  lemma QuotientBelow(base: nat, size: nat, n: nat)
    requires size > 0 && base < n * size
    ensures (base / size + 1) * size <= n * size
  {
    var q := base / size;
    assert q * size <= base;
    MulMono(n, q, size);
    MulMono(q + 1, n, size);
  }

  /** The last address of a well-formed block is still an address of its family. */
  lemma BlockInside(c: Cidr)
    requires WellFormed(c)
    ensures (c.base / BlockSize(c) + 1) * BlockSize(c) <= Pow2(Width(c.v6))
  {
    Pow2Splits(c.len, Width(c.v6) - c.len);
    QuotientBelow(c.base, BlockSize(c), Pow2(c.len));
  }

  lemma CloseTogether(x: nat, y: nat, size: nat)
    requires size > 0 && x <= y && x / size == y / size
    ensures y - x < size
  {
    var k := x / size;
    assert k * size <= x;
    assert y < (k + 1) * size;
    assert (k + 1) * size == k * size + size;
  }

  /** Two different blocks are told apart by an address in exactly one of them. */
  lemma DistinctBlocksDiffer(c: Cidr, d: Cidr) returns (a: nat)
    requires c.v6 == d.v6 && WellFormed(c) && WellFormed(d) && !SameBlock(c, d)
    requires BlockSize(c) >= BlockSize(d)
    ensures a < Pow2(Width(c.v6)) && Covers(c, a) && !Covers(d, a)
  {
    var size := BlockSize(c);
    var lo := c.base / size * size;
    var hi := lo + (size - 1);
    DivOfBlock(c.base / size, 0, size);
    DivOfBlock(c.base / size, size - 1, size);
    BlockInside(c);
    assert (c.base / size + 1) * size == lo + size;
    if size == BlockSize(d) {
      a := lo;
    } else if Covers(d, lo) && Covers(d, hi) {
      CloseTogether(lo, hi, BlockSize(d));
      assert false;
    } else {
      a := if Covers(d, lo) then hi else lo;
    }
  }

  /** A list keeps its meaning through the expansion exactly when it is not negated
      or names a single block in the family. */
  lemma NegationExact(addrs: seq<Cidr>, negate: bool, v6: bool)
    requires forall c :: c in addrs ==> WellFormed(c)
    ensures (forall a :: 0 <= a < Pow2(Width(v6)) ==>
               AddrExpanded(addrs, negate, v6, a) == AddrWanted(addrs, negate, v6, a))
            <==> !negate || OneBlock(addrs, v6)
  {
    if !negate || OneBlock(addrs, v6) {
      forall a | 0 <= a < Pow2(Width(v6))
        ensures AddrExpanded(addrs, negate, v6, a) == AddrWanted(addrs, negate, v6, a)
      {
        NegationAgrees(addrs, negate, v6, a);
      }
    } else {
      var c, d :| c in ByFamily(addrs, v6) && d in ByFamily(addrs, v6) && !SameBlock(c, d);
      var a;
      if BlockSize(c) >= BlockSize(d) {
        a := DistinctBlocksDiffer(c, d);
      } else {
        a := DistinctBlocksDiffer(d, c);
      }
      assert AddrExpanded(addrs, negate, v6, a) && !AddrWanted(addrs, negate, v6, a);
    }
  }

  lemma NegationAgrees(addrs: seq<Cidr>, negate: bool, v6: bool, a: nat)
    requires !negate || OneBlock(addrs, v6)
    ensures AddrExpanded(addrs, negate, v6, a) == AddrWanted(addrs, negate, v6, a)
  {
    var fam := ByFamily(addrs, v6);
    if negate && addrs != [] && fam != [] {
      assert fam[0] in fam;
      forall c | c in fam ensures Covers(c, a) == Covers(fam[0], a) {
        assert SameBlock(c, fam[0]);
      }
    }
  }

  /** The negation limit under which a rule keeps its meaning for one family. */
  predicate Faithful(c: Criteria, v6: bool)
  {
    (!c.negSrc || OneBlock(c.src, v6)) && (!c.negDst || OneBlock(c.dst, v6))
  }

  // ---------------------------------------------------------------- one rule

  lemma MarkUnitEval(m: Match, value: nat, mask: nat, pf: Prefilter, sets: Sets, p: Packet)
    requires m.Selector?
    ensures EvalChain(UnitLines(m, Mark(value, mask), pf), sets, p) ==
            if Matches(m, sets, p) then ActionOutcome(Mark(value, mask), pf, p) else Go(p)
  {
    hide Xmark, InSet, AddrOk, ProtoOk, PortOk;
    var q := if Matches(m, sets, p) then p.(mark := Xmark(p.mark, value, mask)) else p;
    var a, b, c := Line(m, SetXmark(value, mask)), Line(m, SaveMark(pf.ctMask)), Line(m, Return);
    EvalOne(a, sets, p);
    if SavesMark(pf) {
      EvalAppend([a] + [b], [c], sets, p);
      EvalAppend([a], [b], sets, p);
      EvalOne(b, sets, q);
      EvalOne(c, sets, StepLine(b, sets, q).p);
    } else {
      EvalAppend([a], [c], sets, p);
      EvalOne(c, sets, q);
      assert [a] + [] + [c] == [a] + [c];
    }
  }

  /** MARK, the optional CONNMARK save and RETURN share one selector, and no
      selector reads the mark, so the unit acts as a whole or not at all. */
  lemma UnitEval(m: Match, action: Action, pf: Prefilter, sets: Sets, p: Packet)
    requires m.Selector?
    ensures EvalChain(UnitLines(m, action, pf), sets, p) ==
            if Matches(m, sets, p) then ActionOutcome(action, pf, p) else Go(p)
  {
    match action
    case Mark(value, mask) => MarkUnitEval(m, value, mask, pf, sets, p);
    case DropIt => EvalOne(Line(m, Drop), sets, p);
    case Pass => EvalOne(Line(m, Return), sets, p);
  }

  lemma {:induction false} UnitsEval(ms: seq<Match>, action: Action, pf: Prefilter, sets: Sets, p: Packet)
    requires forall m :: m in ms ==> m.Selector?
    ensures EvalChain(FlatMap(ms, Unit(action, pf)), sets, p) ==
            if exists m :: m in ms && Matches(m, sets, p) then ActionOutcome(action, pf, p) else Go(p)
  {
    if ms != [] {
      UnitEval(ms[0], action, pf, sets, p);
      EvalAppend(UnitLines(ms[0], action, pf), FlatMap(ms[1..], Unit(action, pf)), sets, p);
      UnitsEval(ms[1..], action, pf, sets, p);
      assert ms == [ms[0]] + ms[1..];
    }
  }

  lemma SelectorsShape(c: Criteria, pf: Prefilter)
    ensures forall m :: m in Selectors(c, pf) ==> m.Selector?
  {
    forall m | m in Selectors(c, pf) ensures m.Selector? {
      FlatMapMember(ExpandProtos(c), ByLineProto(c, pf), m);
    }
  }

  predicate Fires(pr: PendingRule, pf: Prefilter, sets: Sets, p: Packet)
  {
    exists m :: m in Selectors(pr.criteria, pf) && Matches(m, sets, p)
  }

  lemma PendingEval(pr: PendingRule, pf: Prefilter, sets: Sets, p: Packet)
    ensures EvalChain(RuleLines(pr, pf), sets, p) ==
            if Fires(pr, pf, sets, p) then ActionOutcome(pr.action, pf, p) else Go(p)
  {
    hide ActionOutcome, Matches, UnitLines, Selectors, EvalChain;
    SelectorsShape(pr.criteria, pf);
    UnitsEval(Selectors(pr.criteria, pf), pr.action, pf, sets, p);
  }

  lemma {:induction false} BlockEval(prs: seq<PendingRule>, action: Action, pf: Prefilter, sets: Sets, p: Packet)
    requires forall pr :: pr in prs ==> pr.action == action
    ensures EvalChain(FlatMap(prs, ByPending(pf)), sets, p) ==
            if exists pr :: pr in prs && Fires(pr, pf, sets, p) then ActionOutcome(action, pf, p) else Go(p)
  {
    hide ActionOutcome, Fires, RuleLines;
    if prs != [] {
      PendingEval(prs[0], pf, sets, p);
      EvalAppend(RuleLines(prs[0], pf), FlatMap(prs[1..], ByPending(pf)), sets, p);
      BlockEval(prs[1..], action, pf, sets, p);
      assert prs == [prs[0]] + prs[1..];
    }
  }

  /** Interface part of the lines: only lists of two or more interfaces are
      expanded, a single one is a guard in the prefilter. */
  predicate LineIface(pf: Prefilter, p: Packet) { |pf.ifaces| > 1 ==> p.iface in pf.ifaces }

  /** The criteria as the expansion tests them. */
  predicate Tested(c: Criteria, sets: Sets, p: Packet)
  {
    && (c.set_.Some? ==> InSet(sets, c.set_.value, p.dst))
    && AddrExpanded(c.src, c.negSrc, p.v6, p.src)
    && AddrExpanded(c.dst, c.negDst, p.v6, p.dst)
    && (c.dscp.Some? ==> p.dscp == c.dscp.value)
    && ProtoOk(c.proto, p.l4) && PortOk(c.sport, p.sport, p.l4) && PortOk(c.dport, p.dport, p.l4)
  }

  lemma ExpandMember(v6: bool, action: Action, c: Criteria, pr: PendingRule)
    ensures pr in Expand(v6, action, c) <==>
            exists proto, s, d :: proto in ExpandProtos(c) && s in AddrChoices(c.src, v6) && d in AddrChoices(c.dst, v6)
                               && pr == ByDst(v6, action, c, proto, s)(d)
  {
    FlatMapMember(ExpandProtos(c), ByProto(v6, action, c), pr);
    forall proto ensures pr in ByProto(v6, action, c)(proto) <==>
                         exists s :: s in AddrChoices(c.src, v6) && pr in BySrc(v6, action, c, proto)(s) {
      FlatMapMember(AddrChoices(c.src, v6), BySrc(v6, action, c, proto), pr);
    }
    forall proto, s ensures pr in BySrc(v6, action, c, proto)(s) <==>
                            exists d :: d in AddrChoices(c.dst, v6) && pr == ByDst(v6, action, c, proto, s)(d) {
      MapMember(AddrChoices(c.dst, v6), ByDst(v6, action, c, proto, s), pr);
    }
  }

  /** The selectors of one pending rule differ only in the interface. */
  lemma FiresMeans(pr: PendingRule, pf: Prefilter, sets: Sets, p: Packet)
    requires ExpandProtos(pr.criteria) == [pr.criteria.proto]
    ensures Fires(pr, pf, sets, p) <==>
            LineIface(pf, p) && Matches(ByIface(pr.criteria, pr.criteria.proto)(None), sets, p)
  {
    var c := pr.criteria;
    var f := ByIface(c, c.proto);
    assert Selectors(c, pf) == Map(IfaceChoices(pf), f) by {
      assert FlatMap([c.proto], ByLineProto(c, pf)) == ByLineProto(c, pf)(c.proto) + [];
    }
    if LineIface(pf, p) && Matches(f(None), sets, p) {
      var i := if |pf.ifaces| > 1 then Some(p.iface) else None;
      MapMember(pf.ifaces, (x: string) => Some(x), i);
      assert i in IfaceChoices(pf);
      MapMember(IfaceChoices(pf), f, f(i));
      assert Matches(f(i), sets, p);
    }
    if Fires(pr, pf, sets, p) {
      var m :| m in Selectors(c, pf) && Matches(m, sets, p);
      MapMember(IfaceChoices(pf), f, m);
      var i :| i in IfaceChoices(pf) && m == f(i);
      if |pf.ifaces| > 1 { MapMember(pf.ifaces, (x: string) => Some(x), i); }
    }
  }

  lemma AddrChoiceMeans(addrs: seq<Cidr>, negate: bool, v6: bool, a: nat)
    ensures AddrExpanded(addrs, negate, v6, a) <==>
            exists s :: s in AddrChoices(addrs, v6) && AddrOk(ToAddr(Single(s), negate), a)
  {
    var f := (c: Cidr) => Some(c);
    if addrs == [] {
      assert None in AddrChoices(addrs, v6);
      assert AddrOk(ToAddr(Single(None), negate), a);
    } else {
      if c :| c in ByFamily(addrs, v6) && negate != Covers(c, a) {
        MapMember(ByFamily(addrs, v6), f, Some(c));
        assert Some(c) in AddrChoices(addrs, v6);
      }
      if s :| s in AddrChoices(addrs, v6) && AddrOk(ToAddr(Single(s), negate), a) {
        MapMember(ByFamily(addrs, v6), f, s);
      }
    }
  }

  lemma ExpandedFiresOnlyTested(v6: bool, action: Action, c: Criteria, pr: PendingRule, pf: Prefilter, sets: Sets,
                                p: Packet)
    requires p.v6 == v6 && pr in Expand(v6, action, c) && Fires(pr, pf, sets, p)
    ensures LineIface(pf, p) && Tested(c, sets, p)
  {
    hide InSet, Expand, Fires, AddrChoices, AddrExpanded, Covers;
    ExpandMember(v6, action, c, pr);
    var proto, s, d :| proto in ExpandProtos(c) && s in AddrChoices(c.src, v6) && d in AddrChoices(c.dst, v6)
                    && pr == ByDst(v6, action, c, proto, s)(d);
    FiresMeans(pr, pf, sets, p);
    AddrChoiceMeans(c.src, c.negSrc, v6, p.src);
    AddrChoiceMeans(c.dst, c.negDst, v6, p.dst);
  }

  predicate ProtoChosen(c: Criteria, proto: Proto, l4: L4)
  {
    proto in ExpandProtos(c) && ProtoOk(proto, l4)
  }

  lemma ChooseProto(c: Criteria, l4: L4) returns (proto: Proto)
    requires ProtoOk(c.proto, l4)
    requires c.proto == AnyProto && (c.sport.ranges != [] || c.dport.ranges != []) ==> !l4.OtherL4?
    ensures ProtoChosen(c, proto, l4)
  {
    proto := if ExpandProtos(c) == [c.proto] then c.proto else if l4.TcpSegment? then Tcp else Udp;
  }

  lemma TestedFires(v6: bool, action: Action, c: Criteria, pf: Prefilter, sets: Sets, p: Packet)
    returns (pr: PendingRule)
    requires p.v6 == v6 && LineIface(pf, p) && Tested(c, sets, p)
    ensures pr in Expand(v6, action, c) && Fires(pr, pf, sets, p)
  {
    AddrChoiceMeans(c.src, c.negSrc, v6, p.src);
    AddrChoiceMeans(c.dst, c.negDst, v6, p.dst);
    var s :| s in AddrChoices(c.src, v6) && AddrOk(ToAddr(Single(s), c.negSrc), p.src);
    var d :| d in AddrChoices(c.dst, v6) && AddrOk(ToAddr(Single(d), c.negDst), p.dst);
    var proto := ChooseProto(c, p.l4);
    pr := FiringChoice(v6, action, c, pf, sets, p, proto, s, d);
  }

  lemma FiringChoice(v6: bool, action: Action, c: Criteria, pf: Prefilter, sets: Sets, p: Packet,
                     proto: Proto, s: Option<Cidr>, d: Option<Cidr>) returns (pr: PendingRule)
    requires p.v6 == v6 && LineIface(pf, p) && Tested(c, sets, p) && ProtoChosen(c, proto, p.l4)
    requires s in AddrChoices(c.src, v6) && AddrOk(ToAddr(Single(s), c.negSrc), p.src)
    requires d in AddrChoices(c.dst, v6) && AddrOk(ToAddr(Single(d), c.negDst), p.dst)
    ensures pr in Expand(v6, action, c) && Fires(pr, pf, sets, p)
  {
    hide Expand, Fires, AddrChoices, AddrExpanded, InSet, PortOk, AddrOk, ToAddr, Single;
    pr := ByDst(v6, action, c, proto, s)(d);
    ExpandMember(v6, action, c, pr);
    FiresMeans(pr, pf, sets, p);
  }

  /** The cross product over protocols and addresses fires exactly on the packets the rule asks for. */
  lemma ExpansionFires(v6: bool, action: Action, c: Criteria, pf: Prefilter, sets: Sets, p: Packet)
    requires p.v6 == v6
    ensures (exists pr :: pr in Expand(v6, action, c) && Fires(pr, pf, sets, p)) <==>
            LineIface(pf, p) && Tested(c, sets, p)
  {
    if pr :| pr in Expand(v6, action, c) && Fires(pr, pf, sets, p) {
      ExpandedFiresOnlyTested(v6, action, c, pr, pf, sets, p);
    }
    if LineIface(pf, p) && Tested(c, sets, p) {
      var pr := TestedFires(v6, action, c, pf, sets, p);
    }
  }

  /** One route rule, compiled for the packet's family. */
  lemma RuleEval(v6: bool, action: Action, c: Criteria, pf: Prefilter, sets: Sets, p: Packet)
    requires p.v6 == v6 && Faithful(c, v6)
    ensures EvalChain(FlatMap(Expand(v6, action, c), ByPending(pf)), sets, p) ==
            if LineIface(pf, p) && Wanted(c, sets, p) then ActionOutcome(action, pf, p) else Go(p)
  {
    forall pr | pr in Expand(v6, action, c) ensures pr.action == action {
      ExpandMember(v6, action, c, pr);
    }
    BlockEval(Expand(v6, action, c), action, pf, sets, p);
    ExpansionFires(v6, action, c, pf, sets, p);
    NegationAgrees(c.src, c.negSrc, v6, p.src);
    NegationAgrees(c.dst, c.negDst, v6, p.dst);
  }

  // ---------------------------------------------------------------- rule lists

  lemma FilterExpand(v6: bool, w6: bool, action: Action, c: Criteria)
    ensures Filter(Expand(v6, action, c), OfFamily(w6)) == if v6 == w6 then Expand(v6, action, c) else []
  {
    forall pr | pr in Expand(v6, action, c) ensures pr.v6 == v6 {
      ExpandMember(v6, action, c, pr);
    }
    if v6 == w6 {
      FilterAll(Expand(v6, action, c), OfFamily(w6));
    } else {
      FilterNone(Expand(v6, action, c), OfFamily(w6));
    }
  }

  /** The lines one rule contributes to one family's chain. */
  lemma FamilyPart(r: Rule, created: map<SetName, bool>, v6: bool)
    ensures Filter(ByRule(created)(r), OfFamily(v6)) ==
            if v6 in Families(created, r.criteria) then Expand(v6, r.action, r.criteria) else []
  {
    var fams := Families(created, r.criteria);
    var f := ByRuleFamily(r);
    FilterExpand(false, v6, r.action, r.criteria);
    FilterExpand(true, v6, r.action, r.criteria);
    if r.criteria.set_.Some? {
      FlatMapOne(fams[0], f);
    } else {
      FlatMapAppend([false], [true], f);
      FlatMapOne(false, f);
      FlatMapOne(true, f);
      FilterAppend(f(false), f(true), OfFamily(v6));
      assert fams == [false] + [true];
    }
  }

  /** The head rule's lines come first. */
  lemma LinesOfCons(r: Rule, rest: seq<Rule>, created: map<SetName, bool>, pf: Prefilter, v6: bool)
    ensures FamilyLines(Pending([r] + rest, created), pf, v6) ==
            (if v6 in Families(created, r.criteria) then FlatMap(Expand(v6, r.action, r.criteria), ByPending(pf))
             else [])
            + FamilyLines(Pending(rest, created), pf, v6)
  {
    FlatMapAppend([r], rest, ByRule(created));
    FlatMapOne(r, ByRule(created));
    var head, tail := ByRule(created)(r), Pending(rest, created);
    FilterAppend(head, tail, OfFamily(v6));
    FamilyPart(r, created, v6);
    FlatMapAppend(Filter(head, OfFamily(v6)), Filter(tail, OfFamily(v6)), ByPending(pf));
  }

  /** The rules of a whole list, compiled into one chain, act as the first match. */
  lemma {:induction false} ListEval(rules: seq<Rule>, created: map<SetName, bool>, pf: Prefilter, sets: Sets, p: Packet)
    requires forall r :: r in rules ==> Faithful(r.criteria, p.v6)
    ensures EvalChain(FamilyLines(Pending(rules, created), pf, p.v6), sets, p) ==
            match FirstMatch(rules, created, sets, p)
            case None => Go(p)
            case Some(action) => if LineIface(pf, p) then ActionOutcome(action, pf, p) else Go(p)
  {
    hide Wanted, ActionOutcome, Expand, Faithful, Families;
    if rules == [] {
      assert FamilyLines(Pending(rules, created), pf, p.v6) == [];
    } else {
      var r, rest := rules[0], rules[1..];
      assert rules == [r] + rest;
      LinesOfCons(r, rest, created, pf, p.v6);
      ListEval(rest, created, pf, sets, p);
      if p.v6 in Families(created, r.criteria) {
        EvalAppend(FlatMap(Expand(p.v6, r.action, r.criteria), ByPending(pf)),
                   FamilyLines(Pending(rest, created), pf, p.v6), sets, p);
        RuleEval(p.v6, r.action, r.criteria, pf, sets, p);
      } else {
        assert [] + FamilyLines(Pending(rest, created), pf, p.v6) == FamilyLines(Pending(rest, created), pf, p.v6);
      }
    }
  }

  lemma EvalOptional(cond: bool, line: Line, sets: Sets, p: Packet)
    ensures EvalChain(if cond then [line] else [], sets, p) == if cond then StepLine(line, sets, p) else Go(p)
  {
    EvalOne(line, sets, p);
  }

  lemma PrefilterEval(pf: Prefilter, sets: Sets, p: Packet)
    ensures EvalChain(PrefilterLines(pf), sets, p) == PrefilterOutcome(pf, p)
    ensures PrefilterOutcome(pf, p).Go? ==> PrefilterOutcome(pf, p).p == p
  {
    hide EvalChain, Xmark, And;
    var la, lb := Line(OriginalWithCtmark(pf.ctMask), RestoreMark(pf.ctMask)),
        Line(OriginalWithMark(pf.ctMask), Return);
    var lc, ld := Line(DnatState, Return), Line(AnyMark, Accept);
    var a := if SavesMark(pf) then [la] else [];
    var b := if SavesMark(pf) then [lb] else [];
    var c := if pf.skipDnat then [lc] else [];
    var d := if pf.skipMarked then [ld] else [];
    var e := if |pf.ifaces| == 1 then [Line(NotFrom(pf.ifaces[0]), Return)] else [];
    var q := Restored(pf, p);
    assert PrefilterLines(pf) == a + b + c + d + e;
    EvalAppend(a + b + c + d, e, sets, p);
    EvalAppend(a + b + c, d, sets, p);
    EvalAppend(a + b, c, sets, p);
    EvalAppend(a, b, sets, p);
    RestoreReadsBack(p.mark, p.ctmark, pf.ctMask);
    EvalOptional(SavesMark(pf), la, sets, p);
    EvalOptional(SavesMark(pf), lb, sets, q);
    EvalOptional(pf.skipDnat, lc, sets, q);
    EvalOptional(pf.skipMarked, ld, sets, q);
    if |pf.ifaces| == 1 {
      EvalOptional(true, Line(NotFrom(pf.ifaces[0]), Return), sets, q);
    } else {
      EvalOptional(false, lc, sets, q);
    }
  }

  /** Meaning preservation for the single-chain script: for every rule list and
      packet, the expanded lines act as the policy the list states. */
  lemma SingleChainMeansPolicy(rules: seq<Rule>, created: map<SetName, bool>, pf: Prefilter, sets: Sets, p: Packet)
    requires forall r :: r in rules ==> Faithful(r.criteria, p.v6)
    ensures EvalChain(ChainLines(Pending(rules, created), pf, p.v6), sets, p) ==
            Policy(rules, created, pf, sets, p)
  {
    PrefilterEval(pf, sets, p);
    EvalAppend(PrefilterLines(pf), FamilyLines(Pending(rules, created), pf, p.v6), sets, p);
    ListEval(rules, created, pf, sets, p);
  }

  // ---------------------------------------------------------------- connection marks

  /** A mark rule gives the packet the rule's bits under its mask. */
  lemma MarkIsSet(value: nat, mask: nat, pf: Prefilter, p: Packet)
    requires And(value, mask) == value
    ensures var o := ActionOutcome(Mark(value, mask), pf, p); o.Returned? && And(o.p.mark, mask) == value
  {
    RestoreReadsBack(p.mark, value, mask);
  }

  /** With connection marks on, a connection keeps the mark its first packet was given: whatever
      the rules and sets have become by then, a later packet of that connection returns
      with the same bits and is not classified again. */
  lemma ConnectionKeepsMark(rules: seq<Rule>, created: map<SetName, bool>, sets: Sets, pf: Prefilter, p: Packet,
                            laterRules: seq<Rule>, laterCreated: map<SetName, bool>, laterSets: Sets, next: Packet)
    requires pf.restore && pf.ctMask != 0
    requires PrefilterOutcome(pf, p).Go? && InboundOk(pf, p)
    requires FirstMatch(rules, created, sets, p).Some? && FirstMatch(rules, created, sets, p).value.Mark?
    requires var first := Policy(rules, created, pf, sets, p);
             first.Returned? && And(first.p.mark, pf.ctMask) != 0 && next.ctmark == first.p.ctmark && next.original
    ensures var first := Policy(rules, created, pf, sets, p);
            var later := Policy(laterRules, laterCreated, pf, laterSets, next);
            later.Returned? && And(later.p.mark, pf.ctMask) == And(first.p.mark, pf.ctMask)
  {
    hide FirstMatch, And, Xmark;
    var first := Policy(rules, created, pf, sets, p).p;
    RestoreReadsBack(p.ctmark, first.mark, pf.ctMask);
    RestoreReadsBack(next.mark, next.ctmark, pf.ctMask);
  }

  /** With connection marks off, the connection's mark is neither read nor written. */
  lemma ConnectionMarkUntouched(rules: seq<Rule>, created: map<SetName, bool>, sets: Sets, pf: Prefilter, p: Packet,
                                ctmark: nat)
    requires !pf.restore
    ensures var o, other := Policy(rules, created, pf, sets, p), Policy(rules, created, pf, sets, p.(ctmark := ctmark));
            && (!o.Dropped? ==> o.p.ctmark == p.ctmark)
            && other == (if o.Dropped? then o else match o
                                                   case Go(q) => Go(q.(ctmark := ctmark))
                                                   case Returned(q) => Returned(q.(ctmark := ctmark))
                                                   case Accepted(q) => Accepted(q.(ctmark := ctmark)))
  {
    hide And, Xmark, Wanted;
    MatchIgnoresCtmark(rules, created, sets, p, ctmark);
    hide FirstMatch;
  }

  lemma {:induction false} MatchIgnoresCtmark(rules: seq<Rule>, created: map<SetName, bool>, sets: Sets, p: Packet,
                                              ctmark: nat)
    ensures FirstMatch(rules, created, sets, p.(ctmark := ctmark)) == FirstMatch(rules, created, sets, p)
  {
    if rules != [] { MatchIgnoresCtmark(rules[1..], created, sets, p, ctmark); }
  }
}
