/** The nftables backend object, and what a whole apply guarantees about the live table. */
module NftFirewall {
  import opened Common
  import opened NftDocument
  import opened NftApply

  /** The table a transaction starts from once it exists. */
  function Base(t: Option<Table>): Table
  {
    if t.Some? then t.value else Table(map[], map[])
  }

  /** What callers stage: every set loaded or matched by a rule has been created first, a
      name always with the same schema. */
  ghost predicate WellStaged(t: Table, pending: seq<PendingSet>, rules: seq<NftRule>, loads: seq<Load>)
  {
    && Consistent(pending) && DistinctLoads(loads)
    && (forall i :: 0 <= i < |loads| ==> Pending(pending, loads[i].name))
    && (forall r :: r in rules && r.ref.Some? ==> Pending(pending, r.ref.value) || r.ref.value in t.sets)
  }

  /** The table a successful document leaves. */
  ghost predicate Meaning(p: Plan, t: Table, pending: seq<PendingSet>, rules: seq<NftRule>, loads: seq<Load>, u: Table)
  {
    && (p.staticOnly ==> u.chains == t.chains)
    && (!p.staticOnly ==> forall c :: c in u.chains && u.chains[c] == ChainAfter(p, t, rules, c))
    && (forall i, j :: 0 <= i < |pending| && 0 <= j < |loads| && pending[i].name == loads[j].name ==>
                       loads[j].name in u.sets
                       && u.sets[loads[j].name] == LoadAfter(p, SetAfter(p, t, pending[i]), loads[j]))
    && (forall i :: 0 <= i < |pending| && !Loaded(loads, pending[i].name) ==>
                    pending[i].name in u.sets && u.sets[pending[i].name] == SetAfter(p, t, pending[i]))
    && (forall n :: !Pending(pending, n) ==> (n in u.sets <==> n in t.sets))
    && (forall n :: !Pending(pending, n) && n in t.sets ==> u.sets[n] == t.sets[n])
  }

  lemma AfterSets(p: Plan, t: Table, pending: seq<PendingSet>, rules: seq<NftRule>, loads: seq<Load>, u: Table)
    requires Truthful(p, t) && WellStaged(t, pending, rules, loads) && SetsAre(p, t, pending, u)
    ensures var r := Run(ChainPart(p, rules) + FlatMap(loads, LoadCmds(p)), u);
            r.Some? && Meaning(p, t, pending, rules, loads, r.value)
  {
    hide Run, ChainPart, LoadCmds, FlatMap, SetAfter, LoadAfter, Filter;
    forall n | Pending(pending, n) ensures n in u.sets {
      var i :| 0 <= i < |pending| && pending[i].name == n;
    }
    ChainPhase(p, u, rules);
    RunAppend(ChainPart(p, rules), FlatMap(loads, LoadCmds(p)), u);
    var v := Run(ChainPart(p, rules), u).value;
    LoadPhase(p, v, loads);
    var w := Run(FlatMap(loads, LoadCmds(p)), v).value;
    assert forall c :: ChainAfter(p, u, rules, c) == ChainAfter(p, t, rules, c);
    forall n | !Pending(pending, n) && n in t.sets ensures w.sets[n] == t.sets[n] {
      assert !Loaded(loads, n);
    }
  }

  /** A document fails exactly when the kernel refuses one of its sets; otherwise it leaves
      the table its plan describes, whatever the table held before. */
  lemma DocumentMeans(p: Plan, t: Option<Table>, pending: seq<PendingSet>, rules: seq<NftRule>, loads: seq<Load>)
    requires t.None? ==> p.full
    requires Truthful(p, Base(t)) && WellStaged(Base(t), pending, rules, loads)
    ensures var r := Transaction(Document(p, pending, rules, loads), t);
            && (r.None? <==> AnyBlocked(p, Base(t), pending))
            && (r.Some? ==> Meaning(p, Base(t), pending, rules, loads, r.value))
  {
    hide Run, ChainPart, LoadCmds, FlatMap, SetCmds, SetsAre, Meaning, Truthful, WellStaged;
    var sets, rest := FlatMap(pending, SetCmds(p)), ChainPart(p, rules) + FlatMap(loads, LoadCmds(p));
    var doc := Document(p, pending, rules, loads);
    var b := Base(t);
    if p.full {
      assert doc == [AddTable] + (sets + rest) && doc[1..] == sets + rest;
      RunAppend([AddTable], sets + rest, b);
      RunOne(AddTable, b);
    } else {
      assert doc == sets + rest;
    }
    assert Transaction(doc, t) == Run(sets + rest, b);
    assert Consistent(pending) by { Staged(b, pending, rules, loads); }
    SetsPhase(p, b, pending);
    RunAppend(sets, rest, b);
    if Run(sets, b).Some? {
      AfterSets(p, b, pending, rules, loads, Run(sets, b).value);
    }
  }

  lemma Staged(t: Table, pending: seq<PendingSet>, rules: seq<NftRule>, loads: seq<Load>)
    requires WellStaged(t, pending, rules, loads)
    ensures Consistent(pending)
  {}

  // ---------------------------------------------------------------- a faithful read

  function Observe(t: Option<Table>): Live
  {
    if t.None? then Live(false, {}, map[])
    else Live(true, t.value.chains.Keys, map n | n in t.value.sets :: t.value.sets[n].schema)
  }

  function PlanFor(live: Live, staticOnly: bool, clear: bool): Plan
  {
    Plan(live, !live.table, staticOnly, clear)
  }

  lemma ObservedTruth(t: Option<Table>, staticOnly: bool, clear: bool)
    ensures var p := PlanFor(Observe(t), staticOnly, clear);
            && Truthful(p, Base(t)) && (forall n :: Known(p, n) <==> n in Base(t).sets)
            && forall c :: Kept(p, Base(t), c) == []
  {}

  /** An apply that read the table truly: it fails exactly when a static set changes its
      schema while a live rule matches it; otherwise every loaded static set holds exactly
      the streamed entries, dynamic sets that existed are unchanged unless cleared, the
      chains hold exactly the new rules (or are untouched by a set refresh), and sets that
      were not staged are unchanged. */
  lemma ApplyIsExact(t: Option<Table>, staticOnly: bool, clear: bool, pending: seq<PendingSet>, rules: seq<NftRule>,
                     loads: seq<Load>)
    requires WellStaged(Base(t), pending, rules, loads)
    ensures var b, r := Base(t), Transaction(Document(PlanFor(Observe(t), staticOnly, clear), pending, rules, loads),
                                             t);
            && (r.None? <==> exists i :: 0 <= i < |pending| && ChangesUnderRules(b, pending[i]))
            && (r.Some? ==> Exact(b, staticOnly, clear, pending, rules, loads, r.value))
  {
    hide Document, Transaction, WellStaged, Referenced;
    var p, b := PlanFor(Observe(t), staticOnly, clear), Base(t);
    ObservedTruth(t, staticOnly, clear);
    DocumentMeans(p, t, pending, rules, loads);
    forall i | 0 <= i < |pending| ensures Blocked(p, b, pending[i]) <==> ChangesUnderRules(b, pending[i]) {}
    var r := Transaction(Document(p, pending, rules, loads), t);
    if r.Some? {
      ExactFrom(p, b, pending, rules, loads, r.value);
    }
  }

  ghost predicate ChangesUnderRules(b: Table, ps: PendingSet)
  {
    ps.name in b.sets && !IsDynamic(ps.name) && b.sets[ps.name].schema != ps.schema && Referenced(b, ps.name)
  }

  ghost predicate Exact(b: Table, staticOnly: bool, clear: bool, pending: seq<PendingSet>, rules: seq<NftRule>,
                        loads: seq<Load>, u: Table)
  {
    && (forall j :: 0 <= j < |loads| && !IsDynamic(loads[j].name) ==>
                    loads[j].name in u.sets && u.sets[loads[j].name].elems == Members(loads[j].elems))
    && (forall n :: n in b.sets && IsDynamic(n) ==>
                    n in u.sets &&
                    u.sets[n] == if clear && Pending(pending, n) then b.sets[n].(elems := {}) else b.sets[n])
    && (staticOnly ==> u.chains == b.chains)
    && (!staticOnly ==> forall c :: c in u.chains && u.chains[c] == Filter(rules, OnChain(c)))
    && (forall n :: !Pending(pending, n) ==> (n in u.sets <==> n in b.sets))
    && (forall n :: !Pending(pending, n) && n in b.sets ==> u.sets[n] == b.sets[n])
  }

  lemma ExactFrom(p: Plan, b: Table, pending: seq<PendingSet>, rules: seq<NftRule>, loads: seq<Load>, u: Table)
    requires Meaning(p, b, pending, rules, loads, u) && WellStaged(b, pending, rules, loads)
    requires (forall n :: Known(p, n) <==> n in b.sets) && forall c :: Kept(p, b, c) == []
    ensures Exact(b, p.staticOnly, p.clear, pending, rules, loads, u)
  {
    hide Filter, IsDynamic, Kept, Known;
    forall j | 0 <= j < |loads| && !IsDynamic(loads[j].name)
      ensures loads[j].name in u.sets && u.sets[loads[j].name].elems == Members(loads[j].elems)
    {
      var i :| 0 <= i < |pending| && pending[i].name == loads[j].name;
      assert {} + Members(loads[j].elems) == Members(loads[j].elems);
    }
    forall n | n in b.sets && IsDynamic(n)
      ensures n in u.sets && u.sets[n] == if p.clear && Pending(pending, n) then b.sets[n].(elems := {}) else b.sets[n]
    {
      if Pending(pending, n) {
        var i :| 0 <= i < |pending| && pending[i].name == n;
        if Loaded(loads, n) {
          var j :| 0 <= j < |loads| && loads[j].name == n;
          assert u.sets[n] == LoadAfter(p, SetAfter(p, b, pending[i]), loads[j]);
        }
      }
    }
    assert forall c :: ChainAfter(p, b, rules, c) == [] + Filter(rules, OnChain(c));
  }

  // ---------------------------------------------------------------- a failed read

  /** When the live table could not be read the document assumes there is none. On a table
      that does exist nothing is flushed: a loaded set ends with its old entries as well,
      so it is exact if and only if it held nothing but streamed entries, and the new rules
      follow the old ones. */
  lemma UnreadTableKeepsEntries(t: Table, clear: bool, pending: seq<PendingSet>, rules: seq<NftRule>,
                                loads: seq<Load>, j: nat)
    requires WellStaged(t, pending, rules, loads) && j < |loads| && loads[j].name in t.sets
    ensures var r := Transaction(Document(PlanFor(Live(false, {}, map[]), false, clear), pending, rules, loads),
                                 Some(t));
            && (r.None? <==>
                exists i :: 0 <= i < |pending| && pending[i].name in t.sets &&
                            t.sets[pending[i].name].schema != pending[i].schema)
            && (r.Some? ==>
                && loads[j].name in r.value.sets
                && r.value.sets[loads[j].name].elems == t.sets[loads[j].name].elems + Members(loads[j].elems)
                && (r.value.sets[loads[j].name].elems == Members(loads[j].elems) <==>
                   t.sets[loads[j].name].elems <= Members(loads[j].elems))
                && forall c :: c in t.chains ==>
                   c in r.value.chains && r.value.chains[c] == t.chains[c] + Filter(rules, OnChain(c)))
  {
    hide Document, Transaction, Filter;
    var p := PlanFor(Live(false, {}, map[]), false, clear);
    DocumentMeans(p, Some(t), pending, rules, loads);
    forall i | 0 <= i < |pending|
      ensures Blocked(p, t, pending[i]) <==>
              pending[i].name in t.sets && t.sets[pending[i].name].schema != pending[i].schema
    {}
    var r := Transaction(Document(p, pending, rules, loads), Some(t));
    if r.Some? {
      var i :| 0 <= i < |pending| && pending[i].name == loads[j].name;
      assert r.value.sets[loads[j].name] == LoadAfter(p, SetAfter(p, t, pending[i]), loads[j]);
      assert !Blocked(p, t, pending[i]);
    }
  }

  // ---------------------------------------------------------------- staged rules

  function OfFamily(v6: bool): string -> bool
  {
    (a: string) => (':' in a) == v6
  }

  function Protos(p: Proto): seq<Proto>
  {
    if p.TcpUdp? then [Tcp, Udp] else [p]
  }

  function RuleFor(v6: bool, action: RuleAction, c: Criteria): Proto -> NftRule
  {
    (p: Proto) =>
      NftRule(if c.output then Output else Prerouting, c.set_, v6, action,
              c.(proto := p, src := Filter(c.src, OfFamily(v6)), dst := Filter(c.dst, OfFamily(v6))))
  }

  /** The rules of one family: none where the addresses given are all of the other family. */
  function FamilyRules(v6: bool, ipv6: bool, action: RuleAction, c: Criteria): seq<NftRule>
  {
    if v6 && !ipv6 then []
    else if (c.src != [] && Filter(c.src, OfFamily(v6)) == [])
        || (c.dst != [] && Filter(c.dst, OfFamily(v6)) == []) then []
    else Map(Protos(c.proto), RuleFor(v6, action, c))
  }

  predicate NeedsFamily(c: Criteria)
  {
    c.set_.Some? || c.specific || c.src != [] || c.dst != []
  }

  /** A set's family decides for its rule; otherwise both families, or one generic rule. */
  function StagedRules(created: map<string, bool>, ipv6: bool, action: RuleAction, c: Criteria): seq<NftRule>
  {
    if c.set_.Some? then FamilyRules(c.set_.value in created && created[c.set_.value], ipv6, action, c)
    else if !NeedsFamily(c) then FamilyRules(false, ipv6, action, c)
    else FamilyRules(false, ipv6, action, c) + FamilyRules(true, ipv6, action, c)
  }

  /** Every staged rule names only its own set and only addresses of its own family. */
  lemma StagedRulesSound(created: map<string, bool>, ipv6: bool, action: RuleAction, c: Criteria, r: NftRule)
    requires r in StagedRules(created, ipv6, action, c)
    ensures r.ref == c.set_ && r.action == action && (r.v6 ==> ipv6)
    ensures forall a :: a in r.criteria.src + r.criteria.dst ==> (':' in a) == r.v6
    ensures c.src != [] ==> r.criteria.src != []
    ensures c.dst != [] ==> r.criteria.dst != []
  {
    hide Protos;
    if r in FamilyRules(false, ipv6, action, c) {
      FamilyRulesSound(false, ipv6, action, c, r);
    } else if c.set_.Some? {
      FamilyRulesSound(c.set_.value in created && created[c.set_.value], ipv6, action, c, r);
    } else {
      FamilyRulesSound(true, ipv6, action, c, r);
    }
  }

  lemma FamilyRulesSound(v6: bool, ipv6: bool, action: RuleAction, c: Criteria, r: NftRule)
    requires r in FamilyRules(v6, ipv6, action, c)
    ensures r.ref == c.set_ && r.action == action && r.v6 == v6 && (v6 ==> ipv6)
    ensures forall a :: a in r.criteria.src + r.criteria.dst ==> (':' in a) == v6
    ensures (c.src != [] ==> r.criteria.src != []) && (c.dst != [] ==> r.criteria.dst != [])
  {
    hide Protos;
    MapMember(Protos(c.proto), RuleFor(v6, action, c), r);
  }

  // ---------------------------------------------------------------- the backend object

  datatype Mode = Normal | StaticSetsOnly | Destructive

  /** Appends to the buffer of a set, which exists from its first loader on. */
  function AddLoad(loads: seq<Load>, n: string, elems: seq<string>): seq<Load>
  {
    if loads == [] then [Load(n, elems)]
    else if loads[0].name == n then [Load(n, loads[0].elems + elems)] + loads[1..]
    else [loads[0]] + AddLoad(loads[1..], n, elems)
  }

  /** Everything streamed into a set so far. */
  function Streamed(loads: seq<Load>, n: string): seq<string>
  {
    if loads == [] then [] else if loads[0].name == n then loads[0].elems else Streamed(loads[1..], n)
  }

  lemma {:induction false} AddLoadKeeps(loads: seq<Load>, n: string, elems: seq<string>, m: string)
    requires DistinctLoads(loads)
    ensures DistinctLoads(AddLoad(loads, n, elems))
    ensures Loaded(AddLoad(loads, n, elems), m) <==> Loaded(loads, m) || m == n
    ensures Streamed(AddLoad(loads, n, elems), m) == if m == n then Streamed(loads, n) + elems else Streamed(loads, m)
  {
    hide DistinctLoads, Loaded;
    var r := AddLoad(loads, n, elems);
    NoneLoaded(m);
    if loads == [] {
      assert r == [Load(n, elems)] + [] && [] + elems == elems;
      LoadedCons(Load(n, elems), [], m);
      LoadedCons(Load(n, elems), [], n);
      NoneLoaded(n);
      DistinctCons(Load(n, elems), []);
    } else {
      var head, rest := loads[0], loads[1..];
      assert loads == [head] + rest;
      DistinctCons(head, rest);
      LoadedCons(head, rest, m);
      if head.name == n {
        var more := Load(n, head.elems + elems);
        assert r == [more] + rest;
        DistinctCons(more, rest);
        LoadedCons(more, rest, m);
      } else {
        var tail := AddLoad(rest, n, elems);
        AddLoadKeeps(rest, n, elems, m);
        AddLoadKeeps(rest, n, elems, head.name);
        assert r == [head] + tail;
        LoadedCons(head, tail, m);
        DistinctCons(head, tail);
      }
    }
  }

  lemma NoneLoaded(m: string)
    ensures DistinctLoads([]) && !Loaded([], m)
  {}

  lemma DistinctCons(l: Load, rest: seq<Load>)
    ensures DistinctLoads([l] + rest) <==> DistinctLoads(rest) && !Loaded(rest, l.name)
  {
    var all := [l] + rest;
    if DistinctLoads(all) {
      forall i, j | 0 <= i < j < |rest| ensures rest[i].name != rest[j].name {
        assert all[i + 1].name != all[j + 1].name;
      }
      forall i | 0 <= i < |rest| ensures rest[i].name != l.name {
        assert all[0].name != all[i + 1].name;
      }
    }
  }

  lemma LoadedCons(l: Load, rest: seq<Load>, m: string)
    ensures Loaded([l] + rest, m) <==> l.name == m || Loaded(rest, m)
  {
    var all := [l] + rest;
    assert all[0] == l;
    if Loaded(rest, m) {
      var i :| 0 <= i < |rest| && rest[i].name == m;
      assert all[i + 1].name == m;
    }
    if Loaded(all, m) && l.name != m {
      var i :| 0 <= i < |all| && all[i].name == m;
      assert rest[i - 1].name == m;
    }
  }

  class Backend {
    var ipv6: bool
    var clearDynamicSets: bool
    var createdSets: map<string, bool>
    var pendingSets: seq<PendingSet>
    var pendingRules: seq<NftRule>
    var pendingLoads: seq<Load>
    /** The live table: changed only by a transaction the kernel accepts. */
    var kernel: Option<Table>

    constructor (ipv6: bool, clearDynamicSets: bool, kernel: Option<Table>)
      ensures pendingSets == [] && pendingRules == [] && pendingLoads == [] && createdSets == map[]
      ensures this.ipv6 == ipv6 && this.clearDynamicSets == clearDynamicSets && this.kernel == kernel
    {
      this.ipv6, this.clearDynamicSets, this.kernel := ipv6, clearDynamicSets, kernel;
      createdSets := map[];
      pendingSets, pendingRules, pendingLoads := [], [], [];
    }

    method CreateIpset(n: string, v6: bool, timeout: nat)
      modifies this`pendingSets, this`createdSets
      ensures pendingSets == if v6 && !ipv6 then old(pendingSets)
              else old(pendingSets) + [PendingSet(n, Schema(v6, timeout))]
      ensures createdSets == if v6 && !ipv6 then old(createdSets) else old(createdSets)[n := v6]
    {
      if v6 && !ipv6 {
        return;
      }
      pendingSets := pendingSets + [PendingSet(n, Schema(v6, timeout))];
      createdSets := createdSets[n := v6];
    }

    method AppendRulesForFamily(v6: bool, action: RuleAction, c: Criteria)
      modifies this`pendingRules
      ensures pendingRules == old(pendingRules) + FamilyRules(v6, ipv6, action, c)
    {
      hide Filter;
      if v6 && !ipv6 { return; }
      var srcs, dsts := Filter(c.src, OfFamily(v6)), Filter(c.dst, OfFamily(v6));
      if (c.src != [] && srcs == []) || (c.dst != [] && dsts == []) { return; }
      ghost var before := pendingRules;
      var protos := Protos(c.proto);
      var i := 0;
      while i < |protos|
        invariant 0 <= i <= |protos| && pendingRules == before + Map(protos, RuleFor(v6, action, c))[..i]
      {
        var narrowed := c.(proto := protos[i], src := srcs, dst := dsts);
        pendingRules := pendingRules + [NftRule(if c.output then Output else Prerouting, c.set_, v6, action, narrowed)];
        i := i + 1;
      }
      assert Map(protos, RuleFor(v6, action, c))[..i] == Map(protos, RuleFor(v6, action, c));
    }

    method CreateRule(action: RuleAction, c: Criteria)
      modifies this`pendingRules
      ensures pendingRules == old(pendingRules) + StagedRules(createdSets, ipv6, action, c)
    {
      hide FamilyRules;
      if c.set_.Some? {
        AppendRulesForFamily(c.set_.value in createdSets && createdSets[c.set_.value], action, c);
      } else if !NeedsFamily(c) {
        AppendRulesForFamily(false, action, c);
      } else {
        AppendRulesForFamily(false, action, c);
        AppendRulesForFamily(true, action, c);
      }
    }

    method BatchLoad(n: string, elems: seq<string>)
      modifies this`pendingLoads
      ensures pendingLoads == AddLoad(old(pendingLoads), n, elems)
    {
      var i := 0;
      ghost var all := pendingLoads;
      while i < |pendingLoads| && pendingLoads[i].name != n
        invariant 0 <= i <= |pendingLoads| && pendingLoads == all
        invariant AddLoad(all, n, elems) == all[..i] + AddLoad(all[i..], n, elems)
      {
        assert all[i..] == [all[i]] + all[i + 1..];
        i := i + 1;
      }
      if i == |pendingLoads| {
        assert all[i..] == [];
        pendingLoads := pendingLoads + [Load(n, elems)];
      } else {
        pendingLoads := pendingLoads[i := Load(n, pendingLoads[i].elems + elems)];
        assert all[i..][1..] == all[i + 1..];
      }
    }

    method AppendSetCommands(p: Plan) returns (cs: seq<Command>)
      ensures cs == FlatMap(pendingSets, SetCmds(p))
    {
      hide FlatMap, IsDynamic;
      cs := [];
      var i := 0;
      FlatMapNone(SetCmds(p));
      while i < |pendingSets|
        invariant 0 <= i <= |pendingSets| && cs == FlatMap(pendingSets[..i], SetCmds(p))
      {
        var ps := pendingSets[i];
        FlatMapStep(pendingSets, i, SetCmds(p));
        i := i + 1;
        var existing := !p.full && ps.name in p.live.schemas;
        if existing && IsDynamic(ps.name) {
          if p.clear {
            cs := cs + [FlushSet(ps.name)];
          }
          continue;
        }
        if existing && p.live.schemas[ps.name] == ps.schema {
          continue;
        }
        if existing {
          cs := cs + [DeleteSet(ps.name)];
        }
        cs := cs + [AddSet(ps.name, ps.schema)];
      }
      assert pendingSets[..i] == pendingSets;
    }

    method AppendLoadCommands(p: Plan) returns (cs: seq<Command>)
      ensures cs == FlatMap(pendingLoads, LoadCmds(p))
    {
      hide FlatMap, IsDynamic;
      cs := [];
      var i := 0;
      FlatMapNone(LoadCmds(p));
      while i < |pendingLoads|
        invariant 0 <= i <= |pendingLoads| && cs == FlatMap(pendingLoads[..i], LoadCmds(p))
      {
        var l := pendingLoads[i];
        FlatMapStep(pendingLoads, i, LoadCmds(p));
        i := i + 1;
        var existing := !p.full && l.name in p.live.schemas;
        if existing && IsDynamic(l.name) {
          continue;
        }
        if existing {
          cs := cs + [FlushSet(l.name)];
        }
        if l.elems != [] {
          cs := cs + [AddElements(l.name, l.elems)];
        }
      }
      assert pendingLoads[..i] == pendingLoads;
    }

    method AppendChainCommands(p: Plan) returns (cs: seq<Command>)
      ensures cs == ChainPart(p, pendingRules)
    {
      cs := [];
      if p.staticOnly {
        return;
      }
      if !p.full && Prerouting in p.live.chains {
        cs := cs + [DeleteChain(Prerouting)];
      }
      if !p.full && Output in p.live.chains {
        cs := cs + [DeleteChain(Output)];
      }
      cs := cs + [AddChain(Prerouting)] + [AddChain(Output)];
      assert cs == ChainCmds(p);
      var i := 0;
      while i < |pendingRules|
        invariant 0 <= i <= |pendingRules| && cs == ChainCmds(p) + Map(pendingRules, RuleCmd())[..i]
      {
        cs := cs + [AddRule(pendingRules[i])];
        i := i + 1;
      }
      assert Map(pendingRules, RuleCmd())[..i] == Map(pendingRules, RuleCmd());
    }

    method BuildApplyDocument(p: Plan) returns (doc: seq<Command>)
      ensures doc == Document(p, pendingSets, pendingRules, pendingLoads)
    {
      hide FlatMap, SetCmds, LoadCmds, ChainPart;
      doc := if p.full then [AddTable] else [];
      var sets := AppendSetCommands(p);
      var chains := AppendChainCommands(p);
      var loads := AppendLoadCommands(p);
      doc := doc + sets + chains + loads;
    }

    /** Reads the table, submits one document, and forgets what was staged only when the
        kernel took it; a refused or unsent document changes nothing. */
    method Apply(mode: Mode, readable: bool, sent: bool) returns (ok: bool)
      modifies this`kernel, this`pendingSets, this`pendingRules, this`pendingLoads
      ensures var live := if readable then Observe(old(kernel)) else Live(false, {}, map[]);
              var p := PlanFor(live, mode.StaticSetsOnly?, mode.Destructive? && clearDynamicSets);
              var r := Transaction(Document(p, old(pendingSets), old(pendingRules), old(pendingLoads)), old(kernel));
              && ok == (sent && r.Some? && !(mode.StaticSetsOnly? && !live.table))
              && (ok ==> kernel == r && pendingSets == [] && pendingRules == [] && pendingLoads == [])
      ensures !ok ==> kernel == old(kernel) && pendingSets == old(pendingSets)
                      && pendingRules == old(pendingRules) && pendingLoads == old(pendingLoads)
    {
      hide Transaction, Document;
      var live := if readable then Observe(kernel) else Live(false, {}, map[]);
      if mode.StaticSetsOnly? && !live.table {
        return false;
      }
      var p := PlanFor(live, mode.StaticSetsOnly?, mode.Destructive? && clearDynamicSets);
      var doc := BuildApplyDocument(p);
      var r := Transaction(doc, kernel);
      if !sent || r.None? {
        return false;
      }
      kernel := r;
      pendingSets, pendingRules, pendingLoads := [], [], [];
      return true;
    }
  }
}
