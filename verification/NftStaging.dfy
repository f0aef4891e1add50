/** Which nftables rules a route rule becomes, and where they and the sets end up once a
    document is applied. */
module NftStaging {
  import opened Common
  import opened NftDocument
  import opened NftApply
  import opened NftFirewall
  import Netfilter

  // ---------------------------------------------------------------- staged rules, exactly

  /** The addresses of one family, in order; IPv6 addresses are those with a colon. */
  function AddressesOf(addrs: seq<string>, v6: bool): seq<string>
  {
    if addrs == [] then []
    else (if (':' in addrs[0]) == v6 then [addrs[0]] else []) + AddressesOf(addrs[1..], v6)
  }

  lemma {:induction false} FilteredAddresses(addrs: seq<string>, v6: bool)
    ensures Filter(addrs, OfFamily(v6)) == AddressesOf(addrs, v6)
  {
    if addrs != [] { FilteredAddresses(addrs[1..], v6); }
  }

  /** The families a rule is staged for: its set's own, IPv4 alone when nothing in it depends
      on the family, otherwise every enabled one. */
  predicate Admitted(created: map<string, bool>, ipv6: bool, c: Criteria, v6: bool)
  {
    && (v6 ==> ipv6)
    && (c.set_.Some? ==> v6 == (c.set_.value in created && created[c.set_.value]))
    && (c.set_.None? && !c.specific && c.src == [] && c.dst == [] ==> !v6)
    && (c.src != [] ==> AddressesOf(c.src, v6) != []) && (c.dst != [] ==> AddressesOf(c.dst, v6) != [])
  }

  lemma FamilyRulesExactly(v6: bool, ipv6: bool, action: RuleAction, c: Criteria, r: NftRule)
    ensures r in FamilyRules(v6, ipv6, action, c) <==>
            && r.v6 == v6 && (v6 ==> ipv6)
            && (c.src != [] ==> AddressesOf(c.src, v6) != []) && (c.dst != [] ==> AddressesOf(c.dst, v6) != [])
            && r.chain == (if c.output then Output else Prerouting) && r.ref == c.set_ && r.action == action
            && (if c.proto == TcpUdp then r.criteria.proto in {Tcp, Udp} else r.criteria.proto == c.proto)
            && r.criteria == c.(proto := r.criteria.proto, src := AddressesOf(c.src, v6), dst := AddressesOf(c.dst, v6))
  {
    hide Filter;
    FilteredAddresses(c.src, v6);
    FilteredAddresses(c.dst, v6);
    MapMember(Protos(c.proto), RuleFor(v6, action, c), r);
    assert r.criteria.proto in Protos(c.proto) <==>
           if c.proto == TcpUdp then r.criteria.proto in {Tcp, Udp} else r.criteria.proto == c.proto;
    if r.criteria.proto in Protos(c.proto) && r == RuleFor(v6, action, c)(r.criteria.proto) {
      assert r in Map(Protos(c.proto), RuleFor(v6, action, c));
    }
  }

  /** Soundness and completeness of staging: a rule is staged for given criteria exactly when
      it is on the chain they ask for, carries their set and action, is of an admitted
      family, of each of tcp and udp or of the one protocol, and keeps the other criteria,
      with exactly the addresses of its family. */
  lemma StagedRulesExactly(created: map<string, bool>, ipv6: bool, action: RuleAction, c: Criteria, r: NftRule)
    ensures r in StagedRules(created, ipv6, action, c) <==>
            && Admitted(created, ipv6, c, r.v6)
            && r.chain == (if c.output then Output else Prerouting) && r.ref == c.set_ && r.action == action
            && (if c.proto == TcpUdp then r.criteria.proto in {Tcp, Udp} else r.criteria.proto == c.proto)
            && r.criteria ==
               c.(proto := r.criteria.proto, src := AddressesOf(c.src, r.v6), dst := AddressesOf(c.dst, r.v6))
  {
    hide FamilyRules, AddressesOf;
    FamilyRulesExactly(false, ipv6, action, c, r);
    FamilyRulesExactly(true, ipv6, action, c, r);
  }

  // ---------------------------------------------------------------- after an apply

  /** A rule that was staged is, after an accepted document, on the chain its criteria ask for
      and not on the other one: forwarded traffic meets exactly the ordinary rules. */
  lemma StagedRuleIsLive(t: Option<Table>, clear: bool, pending: seq<PendingSet>, rules: seq<NftRule>,
                         loads: seq<Load>, created: map<string, bool>, ipv6: bool, action: RuleAction, c: Criteria,
                         r: NftRule)
    requires WellStaged(Base(t), pending, rules, loads)
    requires r in rules && r in StagedRules(created, ipv6, action, c)
    requires Transaction(Document(PlanFor(Observe(t), false, clear), pending, rules, loads), t).Some?
    ensures var u := Transaction(Document(PlanFor(Observe(t), false, clear), pending, rules, loads), t).value;
            && Prerouting in u.chains && Output in u.chains
            && (r in u.chains[Prerouting] <==> !c.output) && (r in u.chains[Output] <==> c.output)
  {
    hide Document, Transaction, WellStaged, StagedRules, Filter;
    ApplyIsExact(t, false, clear, pending, rules, loads);
    StagedRulesExactly(created, ipv6, action, c, r);
    var u := Transaction(Document(PlanFor(Observe(t), false, clear), pending, rules, loads), t).value;
    assert u.chains[Prerouting] == Filter(rules, OnChain(Prerouting));
    assert u.chains[Output] == Filter(rules, OnChain(Output));
  }

  /** A document keeps the order in which rules of one chain were staged. */
  lemma ChainKeepsOrder(t: Option<Table>, clear: bool, pending: seq<PendingSet>, a: seq<NftRule>, b: seq<NftRule>,
                        loads: seq<Load>, ch: ChainName)
    requires WellStaged(Base(t), pending, a + b, loads)
    requires Transaction(Document(PlanFor(Observe(t), false, clear), pending, a + b, loads), t).Some?
    ensures var u := Transaction(Document(PlanFor(Observe(t), false, clear), pending, a + b, loads), t).value;
            ch in u.chains && u.chains[ch] == Filter(a, OnChain(ch)) + Filter(b, OnChain(ch))
  {
    hide Document, Transaction, WellStaged, Filter;
    ApplyIsExact(t, false, clear, pending, a + b, loads);
    FilterAppend(a, b, OnChain(ch));
    assert ch == Prerouting || ch == Output;
  }

  // ---------------------------------------------------------------- which sets are dynamic

  /** The name test agrees with the sets it is meant for. */
  lemma DynamicByName(n: Netfilter.SetName)
    ensures IsDynamic(Netfilter.Render(n)) <==> n.Dynamic?
  {
    var s := Netfilter.Render(n);
    assert "kpbr4d_"[5] == 'd' && "kpbr6d_"[5] == 'd';
    match n
    case Static(v6, gen, list) =>
      assert s[5] == (if gen == Netfilter.A then 's' else 'S');
    case Dynamic(v6, list) =>
      assert s[..7] == (if v6 then "kpbr6d_" else "kpbr4d_");
  }

  /** What an apply does to a named set: a loaded static set holds exactly the streamed
      entries, a dynamic set that existed keeps its entries unless it is cleared. */
  lemma AppliedSets(t: Option<Table>, staticOnly: bool, clear: bool, pending: seq<PendingSet>, rules: seq<NftRule>,
                    loads: seq<Load>, n: Netfilter.SetName)
    requires WellStaged(Base(t), pending, rules, loads)
    requires Transaction(Document(PlanFor(Observe(t), staticOnly, clear), pending, rules, loads), t).Some?
    ensures var doc := Document(PlanFor(Observe(t), staticOnly, clear), pending, rules, loads);
            var u, name := Transaction(doc, t).value, Netfilter.Render(n);
            && (forall j :: 0 <= j < |loads| && n.Static? && loads[j].name == name ==>
                  name in u.sets && forall x :: x in u.sets[name].elems <==> x in loads[j].elems)
            && (n.Dynamic? && name in Base(t).sets ==>
                  name in u.sets
                  && u.sets[name].elems == if clear && Pending(pending, name) then {} else Base(t).sets[name].elems)
  {
    hide Document, Transaction, WellStaged, Netfilter.Render, IsDynamic;
    DynamicByName(n);
    ApplyIsExact(t, staticOnly, clear, pending, rules, loads);
  }
}
