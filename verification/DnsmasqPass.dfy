/** The whole generating pass, the hash-only pass and the generated file, and what ties
    the three together. */
module DnsmasqPass {
  import opened Common
  import opened Ordering
  import opened DnsmasqRows
  import opened DnsmasqBatches
  import opened DnsmasqConfig
  import opened DnsmasqGen
  import opened ConfigTags
  import ListDomains
  import Rfc1321

  // ---------------------------------------------------------------- lists the rules mention

  lemma AddAllOne(s: seq<string>, ns: seq<string>, i: nat)
    requires i < |ns|
    ensures AddAll(s, ns[..i + 1]) == AddName(AddAll(s, ns[..i]), ns[i])
  {
    assert ns[..i + 1][..i] == ns[..i];
  }

  lemma {:induction false} AddAllAppend(s: seq<string>, a: seq<string>, b: seq<string>)
    ensures AddAll(s, a + b) == AddAll(AddAll(s, a), b)
  {
    if b == [] {
      assert a + b == a;
    } else {
      assert (a + b)[..|a + b| - 1] == a + b[..|b| - 1];
      AddAllAppend(s, a, b[..|b| - 1]);
    }
  }

  method InsertAll(s: seq<string>, ns: seq<string>) returns (r: seq<string>)
    ensures r == AddAll(s, ns)
  {
    hide AddName;
    r := s;
    var i := 0;
    assert ns[..0] == [];
    while i < |ns|
      invariant 0 <= i <= |ns| && r == AddAll(s, ns[..i])
    {
      AddAllOne(s, ns, i);
      r := AddName(r, ns[i]);
      i := i + 1;
    }
    assert ns[..i] == ns;
  }

  method CollectRouteLists(cfg: Config) returns (r: seq<string>)
    ensures r == RouteLists(cfg)
  {
    hide AddAll, FlatMap;
    r := [];
    var i := 0;
    FlatMapNone(RouteNames());
    NoneAdded();
    while i < |cfg.routeRules|
      invariant 0 <= i <= |cfg.routeRules|
      invariant r == AddAll([], FlatMap(cfg.routeRules[..i], RouteNames()))
    {
      var rule := cfg.routeRules[i];
      FlatMapStep(cfg.routeRules, i, RouteNames());
      AddAllAppend([], FlatMap(cfg.routeRules[..i], RouteNames()), RouteNames()(rule));
      i := i + 1;
      if !rule.enabled {
        assert FlatMap(cfg.routeRules[..i - 1], RouteNames()) + [] == FlatMap(cfg.routeRules[..i - 1], RouteNames());
        continue;
      }
      r := InsertAll(r, rule.lists);
    }
    assert cfg.routeRules[..i] == cfg.routeRules;
  }

  lemma NoneAdded()
    ensures AddAll([], []) == []
  {}

  /** The server tag and rebinding choice kept for a list. */
  datatype Choice = Choice(server: string, allowRebind: bool)

  ghost predicate Chosen(chosen: map<string, Choice>, rules: seq<DnsRule>)
  {
    forall l :: (l in chosen <==> FirstDns(rules, l).Some?)
             && (l in chosen ==>
                   chosen[l] == Choice(FirstDns(rules, l).value.server, FirstDns(rules, l).value.allowRebind))
  }

  ghost predicate KeysAre(chosen: map<string, Choice>, names: seq<string>)
  {
    forall l :: l in chosen <==> l in names
  }

  method ChooseFor(rule: DnsRule, chosen: map<string, Choice>, names: seq<string>)
    returns (chosen': map<string, Choice>, names': seq<string>)
    requires KeysAre(chosen, names)
    ensures names' == AddAll(names, rule.lists) && KeysAre(chosen', names')
    ensures forall l :: l in chosen' <==> l in chosen || l in rule.lists
    ensures forall l :: l in chosen' ==>
              chosen'[l] == if l in chosen then chosen[l] else Choice(rule.server, rule.allowRebind)
  {
    hide AddAll;
    chosen', names' := chosen, names;
    var j := 0;
    AddNothing(names);
    while j < |rule.lists|
      invariant 0 <= j <= |rule.lists|
      invariant names' == AddAll(names, rule.lists[..j]) && KeysAre(chosen', names')
      invariant forall l :: l in chosen' <==> l in chosen || l in rule.lists[..j]
      invariant forall l :: l in chosen' ==>
                chosen'[l] == if l in chosen then chosen[l] else Choice(rule.server, rule.allowRebind)
    {
      var l := rule.lists[j];
      AddAllOne(names, rule.lists, j);
      if l !in chosen' {
        InsertMembers(l, names');
        chosen' := chosen'[l := Choice(rule.server, rule.allowRebind)];
        names' := AddName(names', l);
      }
      j := j + 1;
    }
    assert rule.lists[..j] == rule.lists;
  }

  lemma AddNothing(s: seq<string>)
    ensures AddAll(s, []) == s
  {}

  /** For every list, the first enabled DNS rule that mentions it is the one kept. */
  method CollectDnsLists(cfg: Config) returns (chosen: map<string, Choice>, names: seq<string>)
    ensures Chosen(chosen, cfg.dnsRules) && KeysAre(chosen, names) && names == DnsLists(cfg)
  {
    hide AddAll, FlatMap;
    chosen, names := map[], [];
    var i := 0;
    FlatMapNone(DnsNames());
    NoneAdded();
    while i < |cfg.dnsRules|
      invariant 0 <= i <= |cfg.dnsRules|
      invariant Chosen(chosen, cfg.dnsRules[..i]) && KeysAre(chosen, names)
      invariant names == AddAll([], FlatMap(cfg.dnsRules[..i], DnsNames()))
    {
      var rule := cfg.dnsRules[i];
      FlatMapStep(cfg.dnsRules, i, DnsNames());
      AddAllAppend([], FlatMap(cfg.dnsRules[..i], DnsNames()), DnsNames()(rule));
      ghost var before := chosen;
      if rule.enabled {
        chosen, names := ChooseFor(rule, chosen, names);
        ChosenStep(cfg.dnsRules, i, before, chosen);
      } else {
        ChosenSkip(cfg.dnsRules, i, chosen);
        assert FlatMap(cfg.dnsRules[..i], DnsNames()) + [] == FlatMap(cfg.dnsRules[..i], DnsNames());
      }
      i := i + 1;
    }
    assert cfg.dnsRules[..i] == cfg.dnsRules;
  }

  lemma ChosenStep(rules: seq<DnsRule>, i: nat, chosen: map<string, Choice>, chosen': map<string, Choice>)
    requires i < |rules| && rules[i].enabled && Chosen(chosen, rules[..i])
    requires forall l :: l in chosen' <==> l in chosen || l in rules[i].lists
    requires forall l :: l in chosen' ==>
                         chosen'[l] == if l in chosen then chosen[l] else Choice(rules[i].server, rules[i].allowRebind)
    ensures Chosen(chosen', rules[..i + 1])
  {
    hide FirstDns;
    forall l
      ensures l in chosen' <==> FirstDns(rules[..i + 1], l).Some?
      ensures l in chosen' ==>
                chosen'[l] ==
                Choice(FirstDns(rules[..i + 1], l).value.server, FirstDns(rules[..i + 1], l).value.allowRebind)
    {
      FirstDnsStep(rules, i, l);
    }
  }

  lemma ChosenSkip(rules: seq<DnsRule>, i: nat, chosen: map<string, Choice>)
    requires i < |rules| && !rules[i].enabled && Chosen(chosen, rules[..i])
    ensures Chosen(chosen, rules[..i + 1])
  {
    hide FirstDns;
    forall l
      ensures l in chosen <==> FirstDns(rules[..i + 1], l).Some?
      ensures l in chosen ==>
                chosen[l] ==
                Choice(FirstDns(rules[..i + 1], l).value.server, FirstDns(rules[..i + 1], l).value.allowRebind)
    {
      FirstDnsStep(rules, i, l);
    }
  }

  // ---------------------------------------------------------------- the pass, part by part

  method EmitHead(h: Hasher, e: Emitter, cfg: Config)
    requires h.Valid()
    modifies h`records, h.md5, h.md5.buf, e`out
    ensures h.Valid() && h.records == old(h.records) + HeadRecords(cfg)
    ensures e.out == old(e.out) + On(e.emit, HeadLines(cfg, e.st))
  {
    hide Hasher.Valid, Dec;
    h.Feed(Version(cfg.version));
    h.Feed(Ipv6(cfg.ipv6));
    var name := if e.st.resolver.Ipset? then "dnsmasq-ipset" else "dnsmasq-nftset";
    e.Write([Line("# Generated by keen-pbr (" + name + ") - do not edit manually"), Line(""),
             Line("address=/use-application-dns.net/"), Line("")]);
    if cfg.probe.Some? {
      h.Feed(Probe(cfg.probe.value));
      e.Write([Line("rebind-domain-ok=keen.pbr"),
               Line("server=/check.keen.pbr/" + cfg.probe.value.ip + "#" + Dec(cfg.probe.value.port)), Line("")]);
    }
  }

  function StaticsSoFar(es: seq<StaticEntry>): seq<OutLine>
  {
    if es == [] then [] else [Line("# Keenetic static DNS entries")] + Map(Statics(es), StaticLine())
  }

  lemma StaticsNext(es: seq<StaticEntry>, i: nat)
    requires i < |es|
    ensures var kept, e := Statics(es[..i]), es[i];
            Statics(es[..i + 1]) == if StaticKey(e) in StaticKeys(kept) then kept else kept + [e]
  {
    hide StaticKey, StaticKeys;
    assert es[..i + 1][..i] == es[..i];
  }

  lemma StaticsStep(es: seq<StaticEntry>, i: nat)
    requires i < |es|
    ensures var kept, e := Statics(es[..i]), es[i];
            if StaticKey(e) in StaticKeys(kept) then
              Statics(es[..i + 1]) == kept && StaticsSoFar(es[..i + 1]) == StaticsSoFar(es[..i])
            else
              && Statics(es[..i + 1]) == kept + [e]
              && StaticKeys(kept + [e]) == StaticKeys(kept) + {StaticKey(e)}
              && Map(kept + [e], StaticRecord()) == Map(kept, StaticRecord()) + [Static(StaticKey(e))]
              && StaticsSoFar(es[..i + 1]) ==
                 (if i == 0 then [Line("# Keenetic static DNS entries")] else StaticsSoFar(es[..i])) + [StaticLine()(e)]
  {
    hide StaticKey, StaticPattern, StaticKeys, Statics, Map;
    var kept, e := Statics(es[..i]), es[i];
    StaticsNext(es, i);
    MapAppendOne(kept, e, StaticRecord());
    MapAppendOne(kept, e, StaticLine());
    StaticKeysAppend(kept, e);
    if i == 0 { FirstStatic(es); }
  }

  lemma FirstStatic(es: seq<StaticEntry>)
    requires es != []
    ensures Statics(es[..0]) == [] && StaticKeys([]) == {} && Map<StaticEntry, OutLine>([], StaticLine()) == []
  {}

  method EmitStatics(h: Hasher, e: Emitter, cfg: Config)
    requires h.Valid()
    modifies h`records, h.md5, h.md5.buf, e`out
    ensures h.Valid() && h.records == old(h.records) + Map(Statics(cfg.statics), StaticRecord())
    ensures e.out == old(e.out) + On(e.emit, StaticLines(cfg))
  {
    hide Hasher.Valid, StaticKey, StaticKeys, StaticPattern, Statics, StaticsSoFar;
    ghost var records, out := h.records, e.out;
    var es := cfg.statics;
    NoStatics();
    if es == [] { return; }
    var emitted: set<string> := {};
    var wroteHeader := false;
    var i := 0;
    while i < |es|
      invariant 0 <= i <= |es| && h.Valid()
      invariant emitted == StaticKeys(Statics(es[..i])) && wroteHeader == (e.emit && i > 0)
      invariant h.records == records + Map(Statics(es[..i]), StaticRecord())
      invariant e.out == out + On(e.emit, StaticsSoFar(es[..i]))
    {
      var entry := es[i];
      StaticsStep(es, i);
      i := i + 1;
      if StaticKey(entry) in emitted { continue; }
      emitted := emitted + {StaticKey(entry)};
      h.Feed(Static(StaticKey(entry)));
      if e.emit && !wroteHeader {
        e.Write([Line("# Keenetic static DNS entries")]);
        wroteHeader := true;
      }
      e.Write([Line("address=" + StaticPattern(entry.domain) + "/" + entry.address)]);
    }
    assert es[..i] == es;
    StaticsEnd(cfg);
    if wroteHeader {
      e.Write([Line("")]);
    }
  }

  lemma NoStatics()
    ensures Statics([]) == [] && StaticKeys(Statics([])) == {} && StaticsSoFar([]) == []
  {}

  lemma StaticsEnd(cfg: Config)
    requires cfg.statics != []
    ensures StaticLines(cfg) == StaticsSoFar(cfg.statics) + [Line("")]
  {}

  lemma MapAppendOne<T, U>(s: seq<T>, x: T, f: T -> U)
    ensures Map(s + [x], f) == Map(s, f) + [f(x)]
  {}

  method EmitUpstreams(e: Emitter, cfg: Config)
    modifies e`out
    ensures e.out == old(e.out) + On(e.emit, UpstreamLines(cfg))
  {
    if !e.emit || cfg.upstreams == [] { return; }
    ghost var out := e.out;
    e.Write([Line("# Keenetic DNS is used:")]);
    var i := 0;
    while i < |cfg.upstreams|
      invariant 0 <= i <= |cfg.upstreams|
      invariant e.out == out + [Line("# Keenetic DNS is used:")] + Map(cfg.upstreams, UpstreamLine())[..i]
    {
      e.Write([Line("# " + cfg.upstreams[i])]);
      i := i + 1;
    }
    assert Map(cfg.upstreams, UpstreamLine())[..i] == Map(cfg.upstreams, UpstreamLine());
    e.Write([Line("")]);
  }

  method EmitFallback(h: Hasher, e: Emitter, cfg: Config)
    requires h.Valid()
    modifies h`records, h.md5, h.md5.buf, e`out
    ensures h.Valid() && h.records == old(h.records) + FallbackRecords(cfg.fallback)
    ensures e.out == old(e.out) + On(e.emit, FallbackLines(cfg))
  {
    hide Hasher.Valid, ServerAddr;
    ghost var records, out := h.records, e.out;
    var i := 0;
    while i < |cfg.fallback|
      invariant 0 <= i <= |cfg.fallback| && h.Valid()
      invariant h.records == records + FallbackRecords(cfg.fallback)[..i]
      invariant e.out == out + On(e.emit, Map(cfg.fallback, FallbackLine())[..i])
    {
      h.Feed(Fallback(i, cfg.fallback[i]));
      e.Write([Line("server=" + ServerAddr(cfg.fallback[i]))]);
      i := i + 1;
    }
    assert FallbackRecords(cfg.fallback)[..i] == FallbackRecords(cfg.fallback);
    assert Map(cfg.fallback, FallbackLine())[..i] == Map(cfg.fallback, FallbackLine());
    if e.emit && cfg.hasFallback {
      e.Write([Line("")]);
    }
  }

  method EmitList(h: Hasher, e: Emitter, cfg: Config, l: string, ipsetLists: seq<string>, chosen: map<string, Choice>)
    requires h.Valid() && ipsetLists == RouteLists(cfg) && Chosen(chosen, cfg.dnsRules)
    modifies h`records, h.md5, h.md5.buf, e`out, e`batches
    ensures h.Valid() && h.records == old(h.records) + ListRecords(cfg)(l)
    ensures e.out == old(e.out) + On(e.emit, SectionLines(cfg, e.st)(l))
  {
    hide Hasher.Valid, RouteLists, FirstDns, FlatMap, ListBatches, SectionAll, Bares, DomainRecords;
    if l !in cfg.lists {
      return;
    }
    var needsSet := l in ipsetLists;
    var servers: seq<Server> := [];
    if l in chosen && chosen[l].server in cfg.servers {
      servers := cfg.servers[chosen[l].server];
    }
    var rebind := l in chosen && chosen[l].allowRebind;
    StreamList(h, e, cfg, l, needsSet, rebind, servers);
  }

  method EmitLists(h: Hasher, e: Emitter, cfg: Config)
    requires h.Valid()
    modifies h`records, h.md5, h.md5.buf, e`out, e`batches
    ensures h.Valid() && h.records == old(h.records) + FlatMap(AllLists(cfg), ListRecords(cfg))
    ensures e.out == old(e.out) + On(e.emit, FlatMap(AllLists(cfg), SectionLines(cfg, e.st)))
  {
    hide Hasher.Valid, RouteLists, DnsLists, FlatMap, ListRecords, SectionLines, Chosen;
    ghost var records, out := h.records, e.out;
    var ipsetLists := CollectRouteLists(cfg);
    var chosen, dnsLists := CollectDnsLists(cfg);
    var all := InsertAll(ipsetLists, dnsLists);
    assert all == AllLists(cfg);
    FlatMapNone(ListRecords(cfg));
    FlatMapNone(SectionLines(cfg, e.st));
    var i := 0;
    while i < |all|
      invariant 0 <= i <= |all| && h.Valid()
      invariant h.records == records + FlatMap(all[..i], ListRecords(cfg))
      invariant e.out == out + On(e.emit, FlatMap(all[..i], SectionLines(cfg, e.st)))
    {
      FlatMapStep(all, i, ListRecords(cfg));
      FlatMapStep(all, i, SectionLines(cfg, e.st));
      EmitList(h, e, cfg, all[i], ipsetLists, chosen);
      i := i + 1;
    }
    assert all[..i] == all;
  }

  /** One pass: the records fed are those of the configuration whether or not anything is
      written and for either resolver, and what is written is the configuration's output. */
  method GenerateDirectives(h: Hasher, e: Emitter, cfg: Config)
    requires h.Valid()
    modifies h`records, h.md5, h.md5.buf, e`out, e`batches
    ensures h.Valid() && h.records == old(h.records) + Records(cfg)
    ensures e.out == old(e.out) + On(e.emit, Output(cfg, e.st))
  {
    hide Hasher.Valid, HeadRecords, HeadLines, StaticLines, UpstreamLines, FallbackLines, FallbackRecords, FlatMap,
      Statics, AllLists;
    ghost var out := e.out;
    EmitHead(h, e, cfg);
    EmitStatics(h, e, cfg);
    EmitUpstreams(e, cfg);
    EmitFallback(h, e, cfg);
    EmitLists(h, e, cfg);
    Joined(out, e.emit, HeadLines(cfg, e.st), StaticLines(cfg), UpstreamLines(cfg), FallbackLines(cfg),
           FlatMap(AllLists(cfg), SectionLines(cfg, e.st)));
  }

  lemma Joined(out: seq<OutLine>, emit: bool, a: seq<OutLine>, b: seq<OutLine>, c: seq<OutLine>, d: seq<OutLine>,
               f: seq<OutLine>)
    ensures out + On(emit, a) + On(emit, b) + On(emit, c) + On(emit, d) + On(emit, f) ==
            out + On(emit, a + b + c + d + f)
  {}

  /** The hash-only pass. */
  method ComputeConfigHash(cfg: Config) returns (hash: seq<Rfc1321.Byte>)
    ensures hash == Rfc1321.Digest(Payload(Records(cfg)))
  {
    hide Records, Payload, Rfc1321.Digest, Hasher.Valid;
    var h := new Hasher();
    var e := new Emitter(false, Style(Ipset, cfg.ipv6));
    GenerateDirectives(h, e, cfg);
    assert [] + Records(cfg) == Records(cfg);
    hash := h.Hash();
  }

  /** The emitting pass: the hash printed in the config-hash record is the one the
      hash-only pass computes, for either resolver. */
  method Generate(cfg: Config, resolver: Resolver) returns (out: seq<OutLine>, hash: seq<Rfc1321.Byte>)
    ensures hash == Rfc1321.Digest(Payload(Records(cfg)))
    ensures out == Output(cfg, Style(resolver, cfg.ipv6))
  {
    hide Records, Payload, Rfc1321.Digest, Output, Hasher.Valid;
    var h := new Hasher();
    var e := new Emitter(true, Style(resolver, cfg.ipv6));
    GenerateDirectives(h, e, cfg);
    assert [] + Records(cfg) == Records(cfg);
    hash := h.Hash();
    out := e.out;
  }

  // ---------------------------------------------------------------- rows and records agree

  function IsRouteOf(l: string): Record -> bool
  {
    (r: Record) => r.Route? && r.list == l
  }

  function RoutedDomain(): Record -> string
  {
    (r: Record) => if r.Route? then r.domain else ""
  }

  function AsRoute(l: string): string -> Record
  {
    (d: string) => Route(l, d)
  }

  predicate AllPlain(ls: seq<OutLine>)
  {
    forall y :: y in ls ==> y.Line?
  }

  lemma HeadPlain(cfg: Config, st: Style)
    ensures AllPlain(HeadLines(cfg, st)) && AllPlain(FallbackLines(cfg))
  {
    hide Dec;
  }

  lemma KeeneticPlain(cfg: Config)
    ensures AllPlain(StaticLines(cfg)) && AllPlain(UpstreamLines(cfg))
  {
    hide Statics;
  }

  lemma PlainLines(cfg: Config, st: Style, k: Kind)
    ensures Filter(Output(cfg, st), IsRowOf(k)) == Filter(FlatMap(AllLists(cfg), SectionLines(cfg, st)), IsRowOf(k))
  {
    hide Filter, HeadLines, StaticLines, UpstreamLines, FallbackLines, AllLists, FlatMap;
    HeadPlain(cfg, st);
    KeeneticPlain(cfg);
    var head := HeadLines(cfg, st) + StaticLines(cfg) + UpstreamLines(cfg) + FallbackLines(cfg);
    FilterNone(head, IsRowOf(k));
    FilterAppend(head, FlatMap(AllLists(cfg), SectionLines(cfg, st)), IsRowOf(k));
  }

  lemma OtherRecords(cfg: Config, l: string)
    ensures Filter(Records(cfg), IsRouteOf(l)) == Filter(FlatMap(AllLists(cfg), ListRecords(cfg)), IsRouteOf(l))
  {
    hide Filter, Statics, AllLists, FlatMap, ListRecords;
    var head := HeadRecords(cfg) + Map(Statics(cfg.statics), StaticRecord()) + FallbackRecords(cfg.fallback);
    FilterNone(head, IsRouteOf(l));
    FilterAppend(head, FlatMap(AllLists(cfg), ListRecords(cfg)), IsRouteOf(l));
  }

  lemma {:induction false} SectionRowsNamed(st: Style, bs: seq<Batch>, ds: seq<string>, l: string, y: OutLine)
    requires forall b :: b in bs ==> b.kind.list == l
    requires y in SectionRows(st, bs, ds)
    ensures y.Row? && y.kind.list == l
  {
    hide FlatMap, SectionBatches, PushRows;
    var init, d := ds[..|ds| - 1], ds[|ds| - 1];
    if y in SectionRows(st, bs, init) {
      SectionRowsNamed(st, bs, init, l, y);
    } else {
      FlatMapMember(SectionBatches(st, bs, init), Pushing(st, d), y);
      var b :| b in SectionBatches(st, bs, init) && y in Pushing(st, d)(b);
      SectionBatchNamed(st, bs, init, l, b);
      PushRowsNamed(st, b, d, y);
    }
  }

  lemma PushRowsNamed(st: Style, b: Batch, d: string, y: OutLine)
    requires y in PushRows(st, b, d)
    ensures y.Row? && y.kind == b.kind
  {}

  lemma SectionBatchNamed(st: Style, bs: seq<Batch>, ds: seq<string>, l: string, b: Batch)
    requires forall c :: c in bs ==> c.kind.list == l
    requires b in SectionBatches(st, bs, ds)
    ensures b.kind.list == l
  {
    hide SectionBatches;
    var i: nat :| i < |SectionBatches(st, bs, ds)| && SectionBatches(st, bs, ds)[i] == b;
    SectionBatch(st, bs, ds, i);
    assert bs[i] in bs;
  }

  lemma SectionAllNamed(st: Style, bs: seq<Batch>, ds: seq<string>, l: string, y: OutLine)
    requires forall b :: b in bs ==> b.kind.list == l
    requires y in SectionAll(st, bs, ds)
    ensures y.Row? && y.kind.list == l
  {
    hide FlatMap, SectionBatches, SectionRows;
    if y in SectionRows(st, bs, ds) {
      SectionRowsNamed(st, bs, ds, l, y);
    } else {
      FlatMapMember(SectionBatches(st, bs, ds), Flushing(), y);
      var b :| b in SectionBatches(st, bs, ds) && y in Flushing()(b);
      SectionBatchNamed(st, bs, ds, l, b);
    }
  }

  /** A list's section holds no row of another list. */
  lemma SectionNamed(cfg: Config, st: Style, l: string, y: OutLine)
    requires y in SectionLines(cfg, st)(l) && y.Row?
    ensures y.kind.list == l
  {
    hide ListBatches, SectionAll, Bares, Active;
    ListBatchKinds(cfg, l);
    var rows := SectionAll(st, ListBatches(cfg, l), Bares(cfg.lists[l]));
    assert y in rows;
    SectionAllNamed(st, ListBatches(cfg, l), Bares(cfg.lists[l]), l, y);
  }

  lemma RecordNamed(cfg: Config, l: string, r: Record)
    requires r in ListRecords(cfg)(l) && r.Route?
    ensures r.list == l
  {
    hide FlatMap, Bares, NeedsSet, AllowsRebind, ServersFor;
    FlatMapMember(Bares(cfg.lists[l]), DomainRecords(cfg, l), r);
    var d :| d in Bares(cfg.lists[l]) && r in DomainRecords(cfg, l)(d);
  }

  /** The rows of a list's set are those its batch would have written alone. */
  lemma SetRows(cfg: Config, st: Style, l: string)
    requires l in AllLists(cfg) && l in cfg.lists && NeedsSet(cfg, l)
    ensures Filter(Output(cfg, st), IsRowOf(SetRow(l))) ==
            BatchRows(st, Batch(true, SetRow(l), 0, ""), Bares(cfg.lists[l]))
  {
    hide Filter, FlatMap, Output, AllLists, Bares, SectionLines, BatchRows;
    var p, f, all := IsRowOf(SetRow(l)), SectionLines(cfg, st), AllLists(cfg);
    PlainLines(cfg, st, SetRow(l));
    var i: nat :| i < |all| && all[i] == l;
    AllListsAre(cfg);
    forall j, y | 0 <= j < |all| && j != i && y in f(all[j]) ensures !p(y) {
      if y.Row? { SectionNamed(cfg, st, all[j], y); }
      assert all[j] != l;
    }
    FilterPick(all, f, p, i);
    SectionSetRows(cfg, st, l);
  }

  lemma SectionSetRows(cfg: Config, st: Style, l: string)
    requires l in cfg.lists && NeedsSet(cfg, l)
    ensures Filter(SectionLines(cfg, st)(l), IsRowOf(SetRow(l))) ==
            BatchRows(st, Batch(true, SetRow(l), 0, ""), Bares(cfg.lists[l]))
  {
    hide Filter, SectionAll, Bares, NeedsSet, AllowsRebind, ServersFor, ServerBatches, BatchRows;
    var p, ds, bs := IsRowOf(SetRow(l)), Bares(cfg.lists[l]), ListBatches(cfg, l);
    ListBatchKinds(cfg, l);
    BatchesIndependent(st, bs, ds, 0);
    if ds == [] {
      FilterNone<OutLine>([], p);
      NoRows(st, Batch(true, SetRow(l), 0, ""));
    } else {
      var header, rows := [Line("# List: " + l)], SectionAll(st, bs, ds);
      FilterAppend(header + rows, [Line("")], p);
      FilterAppend(header, rows, p);
      FilterNone(header, p);
      FilterNone([Line("")], p);
    }
  }

  lemma NoRows(st: Style, b: Batch)
    requires b.count == 0
    ensures BatchRows(st, b, []) == []
  {}

  lemma RouteRecords(cfg: Config, l: string)
    requires l in AllLists(cfg) && l in cfg.lists && NeedsSet(cfg, l)
    ensures Filter(Records(cfg), IsRouteOf(l)) == Map(Bares(cfg.lists[l]), AsRoute(l))
  {
    hide Filter, FlatMap, Records, AllLists, Bares, ListRecords;
    var p, f, all := IsRouteOf(l), ListRecords(cfg), AllLists(cfg);
    OtherRecords(cfg, l);
    var i: nat :| i < |all| && all[i] == l;
    AllListsAre(cfg);
    forall j, r | 0 <= j < |all| && j != i && r in f(all[j]) ensures !p(r) {
      if r.Route? { RecordNamed(cfg, all[j], r); }
      assert all[j] != l;
    }
    FilterPick(all, f, p, i);
    ListRouteRecords(cfg, l);
  }

  lemma ListRouteRecords(cfg: Config, l: string)
    requires l in cfg.lists && NeedsSet(cfg, l)
    ensures Filter(ListRecords(cfg)(l), IsRouteOf(l)) == Map(Bares(cfg.lists[l]), AsRoute(l))
  {
    hide Filter, FlatMap, Bares, NeedsSet, DomainRecords;
    var ds := Bares(cfg.lists[l]);
    forall i | 0 <= i < |ds| ensures PicksOne(DomainRecords(cfg, l), IsRouteOf(l), AsRoute(l), ds[i]) {
      DomainRouteRecord(cfg, l, ds[i]);
    }
    FilterEach(ds, DomainRecords(cfg, l), IsRouteOf(l), AsRoute(l));
  }

  lemma DomainRouteRecord(cfg: Config, l: string, d: string)
    requires NeedsSet(cfg, l)
    ensures Filter(DomainRecords(cfg, l)(d), IsRouteOf(l)) == [Route(l, d)]
  {
    hide Filter, NeedsSet, AllowsRebind, ServersFor;
    var p, route, rest := IsRouteOf(l), [Route(l, d)],
        (if AllowsRebind(cfg, l) then [Rebind(l, d)] else []) + ServerRecords(l, d, ServersFor(cfg, l));
    assert DomainRecords(cfg, l)(d) == route + rest;
    FilterAppend(route, rest, p);
    FilterAll(route, p);
    FilterNone(rest, p);
  }

  lemma TagIsPlain(l: string)
    requires ValidTag(l)
    ensures SlashFree(l)
  {}

  /** For every routed list with a valid name, the domains read back in order from its set
      rows are exactly the domains of its route records, and every such row has 1 to 50
      domains and at most 1024 characters. */
  lemma RowsAgreeWithRecords(cfg: Config, st: Style, l: string)
    requires l in cfg.lists && NeedsSet(cfg, l) && ValidTag(l)
    requires forall e :: e in cfg.lists[l] && e.Domain? ==> ListDomains.IsDomain(e.text)
    ensures FlatMap(Filter(Output(cfg, st), IsRowOf(SetRow(l))), ReadRow(st)) ==
            Map(Filter(Records(cfg), IsRouteOf(l)), RoutedDomain())
    ensures forall y :: y in Filter(Output(cfg, st), IsRowOf(SetRow(l))) ==> RowOk(st, y)
  {
    hide Filter, FlatMap, Output, Records, AllLists, Bares, BatchRows, RowOk, Fits, ListDomains.IsDomain;
    ListIsGenerated(cfg, l);
    TagIsPlain(l);
    var ds := Bares(cfg.lists[l]);
    BaresPlain(cfg.lists[l]);
    SetRows(cfg, st, l);
    RouteRecords(cfg, l);
    SetRowsSkipNothing(st, l, ds);
    RowsHoldTheDomains(st, SetRow(l), ds);
    assert Map(Map(ds, AsRoute(l)), RoutedDomain()) == ds;
  }

  lemma ListIsGenerated(cfg: Config, l: string)
    requires NeedsSet(cfg, l)
    ensures l in AllLists(cfg)
  {
    hide FlatMap;
    AllListsAre(cfg);
    AddAllIsSet([], FlatMap(cfg.routeRules, RouteNames()));
  }

  lemma BaresPlain(entries: seq<Entry>)
    requires forall e :: e in entries && e.Domain? ==> ListDomains.IsDomain(e.text)
    ensures Plain(Bares(entries)) && forall d :: d in Bares(entries) ==> |d| <= MAX_DOMAIN
  {
    hide FlatMap, ListDomains.IsDomain;
    forall d | d in Bares(entries) ensures SlashFree(d) && |d| <= MAX_DOMAIN {
      FlatMapMember(entries, Bare(), d);
      var e :| e in entries && d in Bare()(e);
      ListDomains.DomainIsPlain(e.text);
      assert d == StripWildcard(e.text);
    }
  }
}
