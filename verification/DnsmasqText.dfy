/** The generated dnsmasq file as plain text: a reader that sees only the lines finds a
    list's set directives by their text and reads the routed domains back from them. */
module DnsmasqText {
  import opened Common
  import opened ConfigTags
  import opened DnsmasqRows
  import opened DnsmasqBatches
  import opened DnsmasqConfig
  import opened DnsmasqPass
  import ListDomains
  import Netfilter

  function TextOf(st: Style): OutLine -> string
  {
    (y: OutLine) => if y.Row? then Text(st, y.kind, y.path) else y.text
  }

  function LastField(t: string): string { Fields(t)[|Fields(t)| - 1] }

  /** The sets that the firewall matches for list `l`, as a directive names them: addresses
      of each family go to the dynamic set of that family. */
  function SetNames(st: Style, l: string): string
  {
    var four, six := Netfilter.Render(Netfilter.Dynamic(false, l)), Netfilter.Render(Netfilter.Dynamic(true, l));
    if st.resolver.Ipset? then four + (if st.ipv6 then "," + six else "")
    else "4#inet#KeenPbrTable#" + four + (if st.ipv6 then ",6#inet#KeenPbrTable#" + six else "")
  }

  /** A directive that puts domains into the sets of list `l`: the directive's name in front,
      the sets' names behind the last slash. */
  function IsSetText(st: Style, l: string): string -> bool
  {
    t => (if st.resolver.Ipset? then "ipset=" else "nftset=") <= t && LastField(t) == SetNames(st, l)
  }

  /** The generator writes the names of the sets the firewall matches. */
  lemma NamesTheFirewallsSets(st: Style, l: string)
    ensures Target(st, SetRow(l)) == SetNames(st, l)
    ensures Netfilter.Render(Netfilter.Dynamic(false, l)) == "kpbr4d_" + l
    ensures Netfilter.Render(Netfilter.Dynamic(true, l)) == "kpbr6d_" + l
  {}

  // ---------------------------------------------------------------- telling lines apart

  /** First letters of comments, `address=`, `rebind-domain-ok=` and `server=`. */
  predicate OtherStart(t: string) { t == "" || t[0] in {'#', 'a', 'r', 's'} }

  lemma OtherIsNoSetText(st: Style, l: string, t: string)
    requires OtherStart(t)
    ensures !IsSetText(st, l)(t)
  {
    var p := Prefix(st, SetRow(l));
    assert p != "" && p[0] in {'i', 'n'};
  }

  lemma TargetsDiffer(st: Style, a: string, b: string)
    ensures Target(st, SetRow(a)) == Target(st, SetRow(b)) ==> a == b
  {
    var x, y := Target(st, SetRow(a)), Target(st, SetRow(b));
    var n := if st.resolver.Ipset? then 7 else 27;
    if x == y {
      TargetLength(st, a);
      TargetLength(st, b);
      assert x[n..n + |a|] == a && y[n..n + |b|] == b;
    }
  }

  lemma TargetLength(st: Style, l: string)
    ensures |Target(st, SetRow(l))| ==
            if st.resolver.Ipset? then (if st.ipv6 then 2 * |l| + 15 else |l| + 7)
            else (if st.ipv6 then 2 * |l| + 55 else |l| + 27)
  {}

  lemma SlashFreeAppend(a: string, b: string)
    requires SlashFree(a) && SlashFree(b)
    ensures SlashFree(a + b)
  {}

  lemma TargetSlashFree(st: Style, l: string)
    requires SlashFree(l)
    ensures SlashFree(Target(st, SetRow(l)))
  {
    SlashFreeAppend("kpbr4d_", l);
    SlashFreeAppend("kpbr6d_", l);
    if st.resolver.Ipset? {
      SlashFreeAppend(",", Set6(l));
      SlashFreeAppend(Set4(l), if st.ipv6 then "," + Set6(l) else "");
    } else {
      SlashFreeAppend("4#inet#KeenPbrTable#", Set4(l));
      SlashFreeAppend(",6#inet#KeenPbrTable#", Set6(l));
      SlashFreeAppend("4#inet#KeenPbrTable#" + Set4(l), if st.ipv6 then ",6#inet#KeenPbrTable#" + Set6(l) else "");
    }
  }

  lemma RowText(st: Style, l: string, k: Kind, path: string)
    requires k.SetRow? ==> SlashFree(k.list)
    ensures IsSetText(st, l)(Text(st, k, path)) <==> k == SetRow(l)
  {
    hide Fields, SlashFree, SetNames;
    var t := Text(st, k, path);
    NamesTheFirewallsSets(st, l);
    if k.SetRow? {
      TargetSlashFree(st, k.list);
      FieldsSlash(Prefix(st, k) + path, Target(st, k));
      TargetsDiffer(st, k.list, l);
    } else {
      assert t[0] == Prefix(st, k)[0];
      OtherIsNoSetText(st, l, t);
    }
  }

  predicate OtherLine(y: OutLine) { y.Line? && OtherStart(y.text) }

  lemma StartsOther(prefix: string, rest: string)
    requires prefix != "" && prefix[0] in {'#', 'a', 'r', 's'}
    ensures OtherLine(Line(prefix + rest))
  {
    assert (prefix + rest)[0] == prefix[0];
  }

  ghost predicate AllOther(lines: seq<OutLine>) { forall i :: 0 <= i < |lines| ==> OtherLine(lines[i]) }

  lemma HeadOther(cfg: Config, st: Style)
    ensures AllOther(HeadLines(cfg, st))
  {
    hide Dec, OtherStart;
    var name := (if st.resolver.Ipset? then "dnsmasq-ipset" else "dnsmasq-nftset") + ") - do not edit manually";
    var title := "# Generated by keen-pbr (";
    assert title + (if st.resolver.Ipset? then "dnsmasq-ipset" else "dnsmasq-nftset") + ") - do not edit manually" ==
           title + name;
    StartsOther(title, name);
    StartsOther("address=/use-application-dns.net/", "");
    assert "address=/use-application-dns.net/" + "" == "address=/use-application-dns.net/";
    NothingIsOther();
    if cfg.probe.Some? {
      StartsOther("rebind-domain-ok=keen.pbr", "");
      assert "rebind-domain-ok=keen.pbr" + "" == "rebind-domain-ok=keen.pbr";
      var server, ip, port := "server=/check.keen.pbr/", cfg.probe.value.ip, Dec(cfg.probe.value.port);
      assert server + ip + "#" + port == server + (ip + "#" + port);
      StartsOther(server, ip + "#" + port);
    }
  }

  lemma NothingIsOther()
    ensures OtherLine(Line(""))
  {}

  lemma EachOther<T>(prefix: string, s: seq<T>, f: T -> OutLine, rest: T -> string)
    requires prefix != "" && prefix[0] in {'#', 'a', 'r', 's'}
    requires forall i :: 0 <= i < |s| ==> f(s[i]) == Line(prefix + rest(s[i]))
    ensures AllOther(Map(s, f))
  {
    hide OtherStart;
    forall i | 0 <= i < |s| ensures OtherLine(Map(s, f)[i]) { StartsOther(prefix, rest(s[i])); }
  }

  lemma StaticOther(cfg: Config)
    ensures AllOther(StaticLines(cfg))
  {
    hide Statics, StaticPattern, OtherStart;
    var rest := (e: StaticEntry) => StaticPattern(e.domain) + "/" + e.address;
    forall i | 0 <= i < |Statics(cfg.statics)|
      ensures StaticLine()(Statics(cfg.statics)[i]) == Line("address=" + rest(Statics(cfg.statics)[i]))
    {
      var e := Statics(cfg.statics)[i];
      assert "address=" + StaticPattern(e.domain) + "/" + e.address == "address=" + rest(e);
    }
    EachOther("address=", Statics(cfg.statics), StaticLine(), rest);
    StartsOther("# Keenetic static DNS entries", "");
    assert "# Keenetic static DNS entries" + "" == "# Keenetic static DNS entries";
    NothingIsOther();
  }

  lemma UpstreamOther(cfg: Config)
    ensures AllOther(UpstreamLines(cfg))
  {
    hide OtherStart;
    EachOther("# ", cfg.upstreams, UpstreamLine(), (u: string) => u);
    StartsOther("# Keenetic DNS is used:", "");
    assert "# Keenetic DNS is used:" + "" == "# Keenetic DNS is used:";
    NothingIsOther();
  }

  lemma FallbackOther(cfg: Config)
    ensures AllOther(FallbackLines(cfg))
  {
    hide OtherStart, ServerAddr;
    EachOther("server=", cfg.fallback, FallbackLine(), (s: Server) => ServerAddr(s));
    NothingIsOther();
  }

  lemma SectionLine(cfg: Config, st: Style, l: string, y: OutLine)
    requires y in SectionLines(cfg, st)(l)
    ensures OtherLine(y) || (y.Row? && y.kind.list == l)
  {
    hide ListBatches, SectionAll, Bares, Active, OtherStart;
    NothingIsOther();
    StartsOther("# List: ", l);
    if y.Row? {
      SectionNamed(cfg, st, l, y);
    } else {
      ListBatchKinds(cfg, l);
      if y in SectionAll(st, ListBatches(cfg, l), Bares(cfg.lists[l])) {
        SectionAllNamed(st, ListBatches(cfg, l), Bares(cfg.lists[l]), l, y);
      }
    }
  }

  /** Every list named in the configuration passed the tag check. */
  ghost predicate TagsValid(cfg: Config) { forall l :: l in AllLists(cfg) ==> ValidTag(l) }

  /** Text and structure agree on which lines belong to a list's sets. */
  lemma TextTellsRows(cfg: Config, st: Style, l: string, y: OutLine)
    requires y in Output(cfg, st) && TagsValid(cfg)
    ensures IsSetText(st, l)(TextOf(st)(y)) <==> IsRowOf(SetRow(l))(y)
  {
    hide HeadLines, StaticLines, UpstreamLines, FallbackLines, AllLists, FlatMap, SectionLines, Text, IsSetText,
      ValidTag, OtherStart;
    HeadOther(cfg, st);
    StaticOther(cfg);
    UpstreamOther(cfg);
    FallbackOther(cfg);
    if OtherLine(y) {
      OtherIsNoSetText(st, l, y.text);
    } else {
      FlatMapMember(AllLists(cfg), SectionLines(cfg, st), y);
      var m :| m in AllLists(cfg) && y in SectionLines(cfg, st)(m);
      SectionLine(cfg, st, m, y);
      TagIsPlain(m);
      RowText(st, l, y.kind, y.path);
    }
  }

  // ---------------------------------------------------------------- reading the text

  lemma {:induction false} FilterMap<T(!new), U(!new)>(s: seq<T>, f: T -> U, keep: U -> bool, keepFirst: T -> bool)
    requires forall x :: x in s ==> keep(f(x)) == keepFirst(x)
    ensures Filter(Map(s, f), keep) == Map(Filter(s, keepFirst), f)
  {
    if s == [] {
      assert Map(s, f) == [];
    } else {
      hide Filter, Map;
      var x, rest := s[0], s[1..];
      assert s == [x] + rest;
      MapCons(x, rest, f);
      FilterMap(rest, f, keep, keepFirst);
      FilterCons(f(x), Map(rest, f), keep);
      FilterCons(x, rest, keepFirst);
      var kept := Filter(rest, keepFirst);
      assert [] + kept == kept && [] + Map(kept, f) == Map(kept, f);
      MapCons(x, kept, f);
    }
  }

  function DomainsIn(): string -> seq<string> { t => RowDomains(t) }

  lemma {:induction false} FlatMapText(st: Style, rows: seq<OutLine>)
    requires forall y :: y in rows ==> y.Row?
    ensures FlatMap(Map(rows, TextOf(st)), DomainsIn()) == FlatMap(rows, ReadRow(st))
  {
    hide RowDomains, Text;
    if rows != [] {
      assert Map(rows, TextOf(st))[1..] == Map(rows[1..], TextOf(st));
      FlatMapText(st, rows[1..]);
    }
  }

  /** For every routed list: a reader of the generated text finds, in order, exactly the
      domains of the list's route records in the directives for the list's sets, and each
      of those directives has at most 1024 characters. */
  lemma TextAgreesWithRecords(cfg: Config, st: Style, l: string)
    requires l in cfg.lists && NeedsSet(cfg, l) && TagsValid(cfg)
    requires forall e :: e in cfg.lists[l] && e.Domain? ==> ListDomains.IsDomain(e.text)
    ensures var texts := Filter(Map(Output(cfg, st), TextOf(st)), IsSetText(st, l));
            && FlatMap(texts, DomainsIn()) == Map(Filter(Records(cfg), IsRouteOf(l)), RoutedDomain())
            && forall t :: t in texts ==> |t| <= MAX_ROW
  {
    hide Filter, FlatMap, Output, Records, AllLists, IsSetText, ValidTag, ListDomains.IsDomain, Text, RowDomains;
    ListIsGenerated(cfg, l);
    RowsAgreeWithRecords(cfg, st, l);
    var out, rows := Output(cfg, st), Filter(Output(cfg, st), IsRowOf(SetRow(l)));
    forall y | y in out ensures IsSetText(st, l)(TextOf(st)(y)) == IsRowOf(SetRow(l))(y) {
      TextTellsRows(cfg, st, l, y);
    }
    FilterMap(out, TextOf(st), IsSetText(st, l), IsRowOf(SetRow(l)));
    FlatMapText(st, rows);
    forall t | t in Map(rows, TextOf(st)) ensures |t| <= MAX_ROW {
      MapMember(rows, TextOf(st), t);
    }
  }
}
