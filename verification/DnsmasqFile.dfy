/** The hash stands for the file: two configurations that hash the same bytes generate the
    same directives, in the same order. */
module DnsmasqFile {
  import opened Common
  import opened ConfigTags
  import opened DnsmasqRows
  import opened DnsmasqBatches
  import opened DnsmasqConfig
  import opened DnsmasqPass
  import opened DnsmasqText
  import opened DnsmasqMeaning
  import opened DnsmasqHash
  import ListDomains

  // ---------------------------------------------------------------- blocks of records

  predicate OwnedBy(r: Record, l: string)
  {
    (r.Route? || r.Rebind? || r.DomainServer?) && r.list == l
  }

  predicate About(r: Record, d: string)
  {
    (r.Route? || r.Rebind? || r.DomainServer?) && r.domain == d
  }

  function Owned(l: string): Record -> bool { r => OwnedBy(r, l) }

  ghost predicate Owns(f: string -> seq<Record>) { forall l, r :: r in f(l) ==> OwnedBy(r, l) }

  /** The block of the first name is what the records say about that name. */
  lemma FirstBlock(us: seq<string>, f: string -> seq<Record>)
    requires us != [] && Distinct(us) && Owns(f)
    ensures f(us[0]) == Filter(FlatMap(us, f), Owned(us[0]))
    ensures FlatMap(us, f) == f(us[0]) + FlatMap(us[1..], f) && Distinct(us[1..])
  {
    hide Filter;
    var l, tail := us[0], FlatMap(us[1..], f);
    forall r | r in tail ensures !OwnedBy(r, l) { FlatMapMember(us[1..], f, r); }
    FilterAppend(f(l), tail, Owned(l));
    FilterAll(f(l), Owned(l));
    FilterNone(tail, Owned(l));
  }

  /** Texts that depend on each name's block alone are the same when the records are. */
  lemma {:induction false} BlocksTell(us: seq<string>, vs: seq<string>, f: string -> seq<Record>,
                                      g: string -> seq<Record>, x: string -> seq<OutLine>, y: string -> seq<OutLine>)
    requires Distinct(us) && Distinct(vs) && Owns(f) && Owns(g) && FlatMap(us, f) == FlatMap(vs, g)
    requires (forall l :: f(l) == [] ==> x(l) == []) && (forall l :: g(l) == [] ==> y(l) == [])
    requires forall l :: f(l) == g(l) ==> x(l) == y(l)
    ensures FlatMap(us, x) == FlatMap(vs, y)
    decreases |us| + |vs|
  {
    if us != [] { FirstBlock(us, f); }
    if vs != [] { FirstBlock(vs, g); }
    hide Filter, Owns, OwnedBy;
    if us != [] && f(us[0]) == [] {
      BlocksTell(us[1..], vs, f, g, x, y);
    } else if vs != [] && g(vs[0]) == [] {
      BlocksTell(us, vs[1..], f, g, x, y);
    } else if us != [] && vs != [] {
      SameOwner(us[0], vs[0], f, g, FlatMap(us, f));
      var n := |f(us[0])|;
      assert FlatMap(us, f)[n..] == FlatMap(us[1..], f) && FlatMap(vs, g)[n..] == FlatMap(vs[1..], g);
      BlocksTell(us[1..], vs[1..], f, g, x, y);
    }
  }

  lemma SameOwner(l: string, m: string, f: string -> seq<Record>, g: string -> seq<Record>, all: seq<Record>)
    requires Owns(f) && Owns(g) && f(l) != [] && g(m) != [] && f(l) <= all && g(m) <= all
    ensures l == m
  {
    var r := all[0];
    assert f(l)[0] == r && g(m)[0] == r && r in f(l) && r in g(m);
  }

  // ---------------------------------------------------------------- one list

  lemma DomainBlock(cfg: Config, l: string, d: string)
    ensures forall r :: r in DomainRecords(cfg, l)(d) ==> OwnedBy(r, l) && About(r, d)
    ensures DomainRecords(cfg, l)(d) == [] <==> !Active(cfg, l)
    ensures Route(l, d) in DomainRecords(cfg, l)(d) <==> NeedsSet(cfg, l)
    ensures Rebind(l, d) in DomainRecords(cfg, l)(d) <==> AllowsRebind(cfg, l)
  {
    hide NeedsSet, AllowsRebind, ServersFor;
  }

  lemma ServerInBlock(cfg: Config, l: string, d: string, j: nat, s: Server)
    ensures DomainServer(l, d, j, s) in DomainRecords(cfg, l)(d) <==>
            j < |ServersFor(cfg, l)| && ServersFor(cfg, l)[j] == s
  {
    hide NeedsSet, AllowsRebind, ServersFor;
    var servers := ServersFor(cfg, l);
    if j < |servers| && servers[j] == s { assert ServerRecords(l, d, servers)[j] == DomainServer(l, d, j, s); }
  }

  lemma ListBlock(cfg: Config, l: string)
    ensures ListRecords(cfg)(l) == [] <==> l !in cfg.lists || !Active(cfg, l) || Bares(cfg.lists[l]) == []
    ensures forall r :: r in ListRecords(cfg)(l) ==> OwnedBy(r, l)
  {
    hide DomainRecords, Bares, Active, OwnedBy;
    forall d ensures DomainRecords(cfg, l)(d) == [] <==> !Active(cfg, l) { DomainBlock(cfg, l, d); }
    if l in cfg.lists {
      var ds := Bares(cfg.lists[l]);
      if Active(cfg, l) && ds != [] {
        assert DomainRecords(cfg, l)(ds[0]) <= FlatMap(ds, DomainRecords(cfg, l));
      }
      forall r | r in FlatMap(ds, DomainRecords(cfg, l)) ensures OwnedBy(r, l) && !(!Active(cfg, l)) {
        FlatMapMember(ds, DomainRecords(cfg, l), r);
        var d :| d in ds && r in DomainRecords(cfg, l)(d);
        DomainBlock(cfg, l, d);
      }
      if FlatMap(ds, DomainRecords(cfg, l)) != [] {
        assert FlatMap(ds, DomainRecords(cfg, l))[0] in FlatMap(ds, DomainRecords(cfg, l));
      }
    }
  }

  /** The records about a domain of a list are those that one domain adds. */
  lemma BlockOfDomain(cfg: Config, l: string, d: string, r: Record)
    requires l in cfg.lists && d in Bares(cfg.lists[l]) && About(r, d)
    ensures r in ListRecords(cfg)(l) <==> r in DomainRecords(cfg, l)(d)
  {
    hide FlatMap, DomainRecords, Bares, OwnedBy;
    FlatMapMember(Bares(cfg.lists[l]), DomainRecords(cfg, l), r);
    forall e | r in DomainRecords(cfg, l)(e) ensures e == d { DomainBlock(cfg, l, e); }
  }

  lemma SameChoices(a: Config, b: Config, l: string, d: string)
    requires l in a.lists && l in b.lists && d in Bares(a.lists[l]) && d in Bares(b.lists[l])
    requires ListRecords(a)(l) == ListRecords(b)(l)
    ensures NeedsSet(a, l) == NeedsSet(b, l) && AllowsRebind(a, l) == AllowsRebind(b, l)
    ensures ServersFor(a, l) == ServersFor(b, l)
  {
    hide ListRecords, DomainRecords, Bares, NeedsSet, AllowsRebind, ServersFor;
    forall c | c in {a, b}
      ensures NeedsSet(c, l) <==> Route(l, d) in ListRecords(a)(l)
      ensures AllowsRebind(c, l) <==> Rebind(l, d) in ListRecords(a)(l)
    {
      DomainBlock(c, l, d);
      BlockOfDomain(c, l, d, Route(l, d));
      BlockOfDomain(c, l, d, Rebind(l, d));
    }
    ServersWithin(a, b, l, d);
    ServersWithin(b, a, l, d);
  }

  lemma ServerWithin(a: Config, b: Config, l: string, d: string, j: nat)
    requires l in a.lists && l in b.lists && d in Bares(a.lists[l]) && d in Bares(b.lists[l])
    requires ListRecords(a)(l) == ListRecords(b)(l) && j < |ServersFor(a, l)|
    ensures j < |ServersFor(b, l)| && ServersFor(b, l)[j] == ServersFor(a, l)[j]
  {
    hide ListRecords, DomainRecords, Bares, ServersFor;
    var s := ServersFor(a, l)[j];
    ServerInBlock(a, l, d, j, s);
    ServerInBlock(b, l, d, j, s);
    BlockOfDomain(a, l, d, DomainServer(l, d, j, s));
    BlockOfDomain(b, l, d, DomainServer(l, d, j, s));
  }

  lemma ServersWithin(a: Config, b: Config, l: string, d: string)
    requires l in a.lists && l in b.lists && d in Bares(a.lists[l]) && d in Bares(b.lists[l])
    requires ListRecords(a)(l) == ListRecords(b)(l)
    ensures ServersFor(a, l) <= ServersFor(b, l)
  {
    hide ListRecords, Bares, ServersFor;
    var xs, ys := ServersFor(a, l), ServersFor(b, l);
    if xs != [] { ServerWithin(a, b, l, d, |xs| - 1); }
    forall j | 0 <= j < |xs| ensures ys[j] == xs[j] { ServerWithin(a, b, l, d, j); }
  }

  /** A sequence of domains is told by their records. */
  lemma {:induction false} DomainsTell(ds: seq<string>, es: seq<string>, f: string -> seq<Record>,
                                       g: string -> seq<Record>)
    requires forall d :: f(d) == g(d) && f(d) != []
    requires (forall d, r :: r in f(d) ==> About(r, d)) && FlatMap(ds, f) == FlatMap(es, g)
    ensures ds == es
  {
    if ds != [] && es != [] {
      var d, e := ds[0], es[0];
      var r := FlatMap(ds, f)[0];
      assert r == f(d)[0] && r == g(e)[0] && f(e) == g(e);
      assert About(r, d) && About(r, e);
      assert FlatMap(ds, f)[|f(d)|..] == FlatMap(ds[1..], f) && FlatMap(es, g)[|f(d)|..] == FlatMap(es[1..], g);
      DomainsTell(ds[1..], es[1..], f, g);
      assert ds == [d] + ds[1..] && es == [e] + es[1..];
    }
  }

  lemma FirstDomain(cfg: Config, l: string) returns (d: string)
    requires ListRecords(cfg)(l) != []
    ensures l in cfg.lists && d in Bares(cfg.lists[l]) && OwnedBy(ListRecords(cfg)(l)[0], l)
    ensures ListRecords(cfg)(l)[0].domain == d && Active(cfg, l)
  {
    hide DomainRecords, Bares, Active;
    ListBlock(cfg, l);
    d := Bares(cfg.lists[l])[0];
    DomainBlock(cfg, l, d);
    assert ListRecords(cfg)(l)[0] == DomainRecords(cfg, l)(d)[0];
    assert DomainRecords(cfg, l)(d)[0] in DomainRecords(cfg, l)(d);
  }

  /** A list's section of the file depends on the list's records alone. */
  lemma SectionTold(a: Config, b: Config, st: Style, l: string)
    ensures ListRecords(a)(l) == [] ==> SectionLines(a, st)(l) == []
    ensures ListRecords(a)(l) == ListRecords(b)(l) ==> SectionLines(a, st)(l) == SectionLines(b, st)(l)
  {
    hide Bares, NeedsSet, AllowsRebind, ServersFor, SectionAll, DomainRecords;
    ListBlock(a, l);
    ListBlock(b, l);
    if ListRecords(a)(l) == ListRecords(b)(l) != [] {
      var d := FirstDomain(a, l);
      var e := FirstDomain(b, l);
      SameChoices(a, b, l, d);
      forall x ensures DomainRecords(a, l)(x) == DomainRecords(b, l)(x) && DomainRecords(a, l)(x) != []
               ensures forall r :: r in DomainRecords(a, l)(x) ==> About(r, x) {
        DomainBlock(a, l, x);
        SameBlock(a, b, l, x);
      }
      DomainsTell(Bares(a.lists[l]), Bares(b.lists[l]), DomainRecords(a, l), DomainRecords(b, l));
    }
  }

  lemma SameBlock(a: Config, b: Config, l: string, d: string)
    requires NeedsSet(a, l) == NeedsSet(b, l) && AllowsRebind(a, l) == AllowsRebind(b, l)
    requires ServersFor(a, l) == ServersFor(b, l)
    ensures DomainRecords(a, l)(d) == DomainRecords(b, l)(d)
  {
    hide NeedsSet, AllowsRebind, ServersFor;
  }

  // ---------------------------------------------------------------- the parts of the records

  function Class(r: Record): nat
  {
    if r.Version? || r.Ipv6? || r.Probe? then 0 else if r.Static? then 1 else if r.Fallback? then 2 else 3
  }

  function OfClass(c: nat): Record -> bool { r => Class(r) == c }

  ghost predicate AllOfClass(rs: seq<Record>, c: nat) { forall r :: r in rs ==> Class(r) == c }

  lemma PartOf(rs: seq<Record>, k: nat, c: nat)
    requires AllOfClass(rs, k)
    ensures Filter(rs, OfClass(c)) == if k == c then rs else []
  {
    if k == c { FilterAll(rs, OfClass(c)); } else { FilterNone(rs, OfClass(c)); }
  }

  lemma Parts(a: seq<Record>, b: seq<Record>, c: seq<Record>, d: seq<Record>, k: nat)
    requires AllOfClass(a, 0) && AllOfClass(b, 1) && AllOfClass(c, 2) && AllOfClass(d, 3) && k < 4
    ensures Filter(a + b + c + d, OfClass(k)) == if k == 0 then a else if k == 1 then b else if k == 2 then c else d
  {
    hide Filter;
    FilterAppend(a + b + c, d, OfClass(k));
    FilterAppend(a + b, c, OfClass(k));
    FilterAppend(a, b, OfClass(k));
    PartOf(a, 0, k);
    PartOf(b, 1, k);
    PartOf(c, 2, k);
    PartOf(d, 3, k);
  }

  lemma RecordParts(cfg: Config, k: nat)
    requires k < 4
    ensures Filter(Records(cfg), OfClass(k)) ==
            if k == 0 then HeadRecords(cfg) else if k == 1 then Map(Statics(cfg.statics), StaticRecord())
            else if k == 2 then FallbackRecords(cfg.fallback) else FlatMap(AllLists(cfg), ListRecords(cfg))
  {
    hide Filter, FlatMap, AllLists, ListRecords, Statics, StaticKey;
    var lists := FlatMap(AllLists(cfg), ListRecords(cfg));
    forall r | r in lists ensures Class(r) == 3 {
      FlatMapMember(AllLists(cfg), ListRecords(cfg), r);
      var l :| l in AllLists(cfg) && r in ListRecords(cfg)(l);
      ListBlock(cfg, l);
    }
    Parts(HeadRecords(cfg), Map(Statics(cfg.statics), StaticRecord()), FallbackRecords(cfg.fallback), lists, k);
  }

  // ---------------------------------------------------------------- static entries

  lemma {:induction false} StaticsWithin(es: seq<StaticEntry>)
    ensures (forall e :: e in Statics(es) ==> e in es) && (Statics(es) == [] <==> es == [])
  {
    hide StaticKey;
    if es != [] {
      var init := es[..|es| - 1];
      StaticsWithin(init);
      assert es == init + [es[|es| - 1]];
    }
  }

  lemma StrippedIsWord(d: string)
    requires Word(d)
    ensures Word(StripWildcard(d))
  {
    assert forall c :: c in StripWildcard(d) ==> c in d;
  }

  /** An address has no bar, so the last bar of a key ends the domain, whatever that holds. */
  lemma StaticKeyTells(e: StaticEntry, f: StaticEntry)
    requires Word(e.address) && Word(f.address) && StaticKey(e) == StaticKey(f)
    ensures StaticLine()(e) == StaticLine()(f)
  {
    hide StaticPattern;
    SplitsLast(StaticPattern(e.domain), e.address, StaticPattern(f.domain), f.address, '|');
  }

  lemma StaticsTold(a: Config, b: Config)
    requires (forall e :: e in a.statics ==> Word(e.address)) && (forall e :: e in b.statics ==> Word(e.address))
    requires Map(Statics(a.statics), StaticRecord()) == Map(Statics(b.statics), StaticRecord())
    ensures StaticLines(a) == StaticLines(b)
  {
    hide Statics, StaticKey, Word, StaticPattern;
    StaticsWithin(a.statics);
    StaticsWithin(b.statics);
    var xs, ys := Statics(a.statics), Statics(b.statics);
    assert |Map(xs, StaticRecord())| == |xs| && |Map(ys, StaticRecord())| == |ys|;
    forall i | 0 <= i < |xs| ensures StaticLine()(xs[i]) == StaticLine()(ys[i]) {
      assert Map(xs, StaticRecord())[i] == Map(ys, StaticRecord())[i];
      assert xs[i] in xs && ys[i] in ys;
      StaticKeyTells(xs[i], ys[i]);
    }
    assert Map(xs, StaticLine()) == Map(ys, StaticLine());
  }

  lemma FallbackTold(a: Config, b: Config)
    requires FallbackRecords(a.fallback) == FallbackRecords(b.fallback)
    ensures a.fallback == b.fallback
  {
    assert |FallbackRecords(a.fallback)| == |a.fallback| && |FallbackRecords(b.fallback)| == |b.fallback|;
    forall i | 0 <= i < |a.fallback| ensures a.fallback[i] == b.fallback[i] {
      assert FallbackRecords(a.fallback)[i] == FallbackRecords(b.fallback)[i];
    }
  }

  lemma HeadTold(a: Config, b: Config)
    requires HeadRecords(a) == HeadRecords(b)
    ensures a.version == b.version && a.ipv6 == b.ipv6 && a.probe == b.probe
  {
    assert HeadRecords(a)[0] == HeadRecords(b)[0] && HeadRecords(a)[1] == HeadRecords(b)[1];
    assert a.probe.Some? ==> HeadRecords(a)[2] == HeadRecords(b)[2];
  }

  // ---------------------------------------------------------------- the file

  /** What the loaders guarantee: tags, domains and addresses are well formed, and a static
      entry is read off one line. */
  ghost predicate TidyConfig(cfg: Config)
  {
    && TagsValid(cfg) && OneLine(cfg.version) && (cfg.probe.Some? ==> Word(cfg.probe.value.ip))
    && (forall l, e :: l in cfg.lists && e in cfg.lists[l] && e.Domain? ==> ListDomains.IsDomain(e.text))
    && (forall e :: e in cfg.statics ==> OneLine(e.domain) && Word(e.address))
    && (forall s :: s in cfg.fallback ==> Word(s.ip))
    && (forall tag, s :: tag in cfg.servers && s in cfg.servers[tag] ==> Word(s.ip))
  }

  lemma DomainIsWord(d: string)
    requires ListDomains.IsDomain(d)
    ensures Word(d)
  {
    hide ListDomains.IsDomain;
    ListDomains.DomainIsPlain(d);
  }

  lemma ListedIsWord(cfg: Config, l: string, d: string)
    requires TidyConfig(cfg) && l in cfg.lists && d in ListedDomains(cfg.lists[l])
    requires l in AllLists(cfg)
    ensures Word(l) && Word(d)
  {
    hide FlatMap, ListDomains.IsDomain, AllLists, Word, OneLine;
    TagIsWord(l);
    BaresAre(cfg.lists[l]);
    FlatMapMember(cfg.lists[l], Bare(), d);
    var e :| e in cfg.lists[l] && d in Bare()(e);
    DomainIsWord(e.text);
    StrippedIsWord(e.text);
  }

  lemma TagIsWord(l: string)
    requires ValidTag(l)
    ensures Word(l)
  {}

  lemma ServerIsWord(cfg: Config, l: string, j: nat, s: Server)
    requires TidyConfig(cfg) && Resolves(cfg, l, j, s)
    ensures Word(s.ip)
  {
    hide ListDomains.IsDomain, TagsValid, Word, OneLine;
    var i: nat :| DecidedBy(cfg, l, i) && cfg.dnsRules[i].server in cfg.servers
                  && j < |cfg.servers[cfg.dnsRules[i].server]| && cfg.servers[cfg.dnsRules[i].server][j] == s;
  }

  lemma StaticIsOneLine(e: StaticEntry)
    requires OneLine(e.domain) && OneLine(e.address)
    ensures OneLine("/" + Plainly(e.domain) + "|" + e.address)
  {
    assert forall c :: c in Plainly(e.domain) ==> c in e.domain;
  }

  lemma ConfigRecordsTidy(cfg: Config, r: Record)
    requires TidyConfig(cfg) && r in Records(cfg)
    ensures Tidy(r)
  {
    hide Records, ListDomains.IsDomain, ListedDomains, Routed, RebindAllowed, Resolves, AllLists, TagsValid, OneLine,
      Plainly;
    RecordsExactly(cfg, r);
    if r.Static? {
      var e :| e in cfg.statics && r.key == "/" + Plainly(e.domain) + "|" + e.address;
      StaticIsOneLine(e);
    }
    if r.Route? || r.Rebind? || r.DomainServer? {
      MentionedIsGenerated(cfg, r.list);
      ListedIsWord(cfg, r.list, r.domain);
    }
    if r.DomainServer? { ServerIsWord(cfg, r.list, r.index, r.server); }
  }

  /** A line that dnsmasq acts on: neither blank nor a comment. */
  predicate IsDirective(y: OutLine)
  {
    y.Row? || (y.text != "" && y.text[0] != '#')
  }

  function Directives(): OutLine -> bool { y => IsDirective(y) }

  lemma CommentsDropped(cfg: Config)
    ensures Filter(UpstreamLines(cfg), Directives()) == []
    ensures Filter(FallbackLines(cfg), Directives()) == Filter(Map(cfg.fallback, FallbackLine()), Directives())
  {
    hide Filter, Map;
    forall y | y in UpstreamLines(cfg) ensures !IsDirective(y) {
      MapMember(cfg.upstreams, UpstreamLine(), y);
    }
    FilterNone(UpstreamLines(cfg), Directives());
    var blank := if cfg.hasFallback then [Line("")] else [];
    FilterAppend(Map(cfg.fallback, FallbackLine()), blank, Directives());
    FilterNone(blank, Directives());
  }

  lemma DirectivesOf(cfg: Config, st: Style)
    ensures Filter(Output(cfg, st), Directives()) ==
            Filter(HeadLines(cfg, st), Directives()) + Filter(StaticLines(cfg), Directives())
            + Filter(Map(cfg.fallback, FallbackLine()), Directives())
            + Filter(FlatMap(AllLists(cfg), SectionLines(cfg, st)), Directives())
  {
    hide Filter, Map, FlatMap, AllLists, SectionLines, HeadLines, StaticLines, UpstreamLines, FallbackLines;
    var h, s, u, f := HeadLines(cfg, st), StaticLines(cfg), UpstreamLines(cfg), FallbackLines(cfg);
    FilterAppend(h + s + u + f, FlatMap(AllLists(cfg), SectionLines(cfg, st)), Directives());
    FilterAppend(h + s + u, f, Directives());
    FilterAppend(h + s, u, Directives());
    FilterAppend(h, s, Directives());
    CommentsDropped(cfg);
  }

  /** Configurations that feed the hash the same bytes generate the same directives. */
  lemma SameBytesSameFile(a: Config, b: Config, st: Style)
    requires TidyConfig(a) && TidyConfig(b) && Payload(Records(a)) == Payload(Records(b))
    ensures Filter(Output(a, st), Directives()) == Filter(Output(b, st), Directives())
    ensures a.version == b.version && a.ipv6 == b.ipv6
  {
    SameBytesSameRecords(a, b);
    SameRecordsSameLines(a, b, st);
    hide *;
    DirectivesOf(a, st);
    DirectivesOf(b, st);
  }

  lemma SameBytesSameRecords(a: Config, b: Config)
    requires TidyConfig(a) && TidyConfig(b) && Payload(Records(a)) == Payload(Records(b))
    ensures Records(a) == Records(b)
  {
    hide *;
    forall r | r in Records(a) ensures Tidy(r) { ConfigRecordsTidy(a, r); }
    forall r | r in Records(b) ensures Tidy(r) { ConfigRecordsTidy(b, r); }
    PayloadTells(Records(a), Records(b));
  }

  lemma SameRecordsSameLines(a: Config, b: Config, st: Style)
    requires TidyConfig(a) && TidyConfig(b) && Records(a) == Records(b)
    ensures a.version == b.version && a.ipv6 == b.ipv6 && HeadLines(a, st) == HeadLines(b, st)
    ensures StaticLines(a) == StaticLines(b) && a.fallback == b.fallback
    ensures FlatMap(AllLists(a), SectionLines(a, st)) == FlatMap(AllLists(b), SectionLines(b, st))
  {
    hide Records, Filter, FlatMap, AllLists, ListRecords, SectionLines, Statics, StaticRecord, StaticLines,
      FallbackRecords, HeadRecords, Map, Word, TagsValid, ListDomains.IsDomain, Dec;
    forall k: nat | k < 4 ensures Filter(Records(a), OfClass(k)) == Filter(Records(b), OfClass(k)) {}
    RecordParts(a, 0);
    RecordParts(b, 0);
    HeadTold(a, b);
    RecordParts(a, 1);
    RecordParts(b, 1);
    StaticsTold(a, b);
    RecordParts(a, 2);
    RecordParts(b, 2);
    FallbackTold(a, b);
    RecordParts(a, 3);
    RecordParts(b, 3);
    SectionsTold(a, b, st);
  }

  lemma SectionsTold(a: Config, b: Config, st: Style)
    requires FlatMap(AllLists(a), ListRecords(a)) == FlatMap(AllLists(b), ListRecords(b))
    ensures FlatMap(AllLists(a), SectionLines(a, st)) == FlatMap(AllLists(b), SectionLines(b, st))
  {
    hide FlatMap, AllLists, ListRecords, SectionLines, OwnedBy;
    AllListsAre(a);
    AllListsAre(b);
    forall l
      ensures ListRecords(a)(l) == ListRecords(b)(l) ==> SectionLines(a, st)(l) == SectionLines(b, st)(l)
      ensures ListRecords(a)(l) == [] ==> SectionLines(a, st)(l) == []
      ensures ListRecords(b)(l) == [] ==> SectionLines(b, st)(l) == []
    {
      SectionTold(a, b, st, l);
      SectionTold(b, a, st, l);
    }
    forall l, r ensures r in ListRecords(a)(l) || r in ListRecords(b)(l) ==> OwnedBy(r, l) {
      ListBlock(a, l);
      ListBlock(b, l);
    }
    BlocksTell(AllLists(a), AllLists(b), ListRecords(a), ListRecords(b), SectionLines(a, st), SectionLines(b, st));
  }
}
