/** The generated text as dnsmasq reads it: which domain is sent to which server and which
    may resolve to private addresses, exactly, in terms of the configuration. */
module DnsmasqDirectives {
  import opened Common
  import opened ConfigTags
  import opened DnsmasqRows
  import opened DnsmasqBatches
  import opened DnsmasqConfig
  import opened DnsmasqPass
  import opened DnsmasqText
  import opened DnsmasqMeaning
  import opened DnsmasqHash
  import ListDomains

  /** A directive `server=/.../d/.../a` sends `d` to server `a`. */
  predicate Sends(t: string, d: string, a: string)
  {
    "server=" <= t && |Fields(t)| >= 2 && LastField(t) == a && d in RowDomains(t)
  }

  /** A directive `rebind-domain-ok=/.../d/.../` lets `d` resolve to private addresses. */
  predicate Permits(t: string, d: string)
  {
    "rebind-domain-ok=" <= t && |Fields(t)| >= 2 && d in RowDomains(t)
  }

  /** What the loader has checked: tags, domains, and addresses that hold no slash. */
  ghost predicate Clean(cfg: Config)
  {
    && TagsValid(cfg)
    && (forall l, e :: l in cfg.lists && e in cfg.lists[l] && e.Domain? ==> ListDomains.IsDomain(e.text))
    && (forall tag, s :: tag in cfg.servers && s in cfg.servers[tag] ==> SlashFree(s.ip))
    && (forall s :: s in cfg.fallback ==> SlashFree(s.ip)) && (cfg.probe.Some? ==> SlashFree(cfg.probe.value.ip))
  }

  // ---------------------------------------------------------------- rows

  lemma AddrIsPlain(s: Server)
    requires SlashFree(s.ip)
    ensures SlashFree(ServerAddr(s))
  {
    DecReadsBack(s.port);
  }

  lemma RowSends(st: Style, k: Kind, path: string, d: string, a: string)
    requires PlainTarget(k)
    ensures Sends(Text(st, k, path), d, a) <==>
            k.ServerRow? && k.addr == a && d in RowDomains(Text(st, k, path))
    ensures Permits(Text(st, k, path), d) <==> k.RebindRow? && d in RowDomains(Text(st, k, path))
  {
    hide Fields, RowDomains;
    var t := Text(st, k, path);
    assert t[0] == Prefix(st, k)[0];
    assert k.SetRow? ==> t[0] in {'i', 'n'};
    if !k.SetRow? {
      FieldsSlash(Prefix(st, k) + path, Target(st, k));
      assert Prefix(st, k) <= t;
    }
  }

  lemma {:induction false} SectionRowsKind(st: Style, bs: seq<Batch>, ds: seq<string>, y: OutLine)
    requires y in SectionRows(st, bs, ds)
    ensures y.Row? && exists b :: b in bs && b.kind == y.kind
  {
    hide FlatMap, SectionBatches, PushRows;
    var init, d := ds[..|ds| - 1], ds[|ds| - 1];
    if y in SectionRows(st, bs, init) {
      SectionRowsKind(st, bs, init, y);
    } else {
      FlatMapMember(SectionBatches(st, bs, init), Pushing(st, d), y);
      var b :| b in SectionBatches(st, bs, init) && y in Pushing(st, d)(b);
      BatchKind(st, bs, init, b);
      PushRowsNamed(st, b, d, y);
    }
  }

  lemma BatchKind(st: Style, bs: seq<Batch>, ds: seq<string>, b: Batch)
    requires b in SectionBatches(st, bs, ds)
    ensures exists c :: c in bs && c.kind == b.kind
  {
    hide SectionBatches;
    var i: nat :| i < |SectionBatches(st, bs, ds)| && SectionBatches(st, bs, ds)[i] == b;
    SectionBatch(st, bs, ds, i);
    assert bs[i] in bs;
  }

  lemma SectionAllKind(st: Style, bs: seq<Batch>, ds: seq<string>, y: OutLine)
    requires y in SectionAll(st, bs, ds)
    ensures y.Row? && exists b :: b in bs && b.kind == y.kind
  {
    hide FlatMap, SectionBatches, SectionRows;
    if y in SectionRows(st, bs, ds) {
      SectionRowsKind(st, bs, ds, y);
    } else {
      FlatMapMember(SectionBatches(st, bs, ds), Flushing(), y);
      var b :| b in SectionBatches(st, bs, ds) && y in Flushing()(b);
      BatchKind(st, bs, ds, b);
    }
  }

  lemma {:induction false} DisabledSilent(st: Style, b: Batch, ds: seq<string>)
    requires !b.enabled
    ensures RunBatch(st, b, ds) == b && RunRows(st, b, ds) == []
  {
    if ds != [] { DisabledSilent(st, b, ds[..|ds| - 1]); }
  }

  /** The domains in a batch's rows of a section. */
  lemma SectionHolds(st: Style, bs: seq<Batch>, ds: seq<string>, i: nat, d: string)
    requires i < |bs| && DistinctKinds(bs) && bs[i] == Batch(bs[i].enabled, bs[i].kind, 0, "")
    requires PlainTarget(bs[i].kind) && Plain(ds)
    ensures (exists y :: y in SectionAll(st, bs, ds) && y.Row? && y.kind == bs[i].kind && d in ReadRow(st)(y)) <==>
            bs[i].enabled && d in ds && |Text(st, bs[i].kind, "/" + d)| <= 1024
  {
    hide FlatMap, SectionAll, RunRows, RunBatch, Filter, ReadRow, Text;
    var b, all := bs[i], SectionAll(st, bs, ds);
    BatchesIndependent(st, bs, ds, i);
    assert forall y :: y in Filter(all, IsRowOf(b.kind)) <==> y in all && IsRowOf(b.kind)(y);
    if b.enabled {
      RowsHoldTheDomains(st, b.kind, ds);
      FlatMapMember(BatchRows(st, b, ds), ReadRow(st), d);
      LengthsAgree(st, b.kind, "/" + d);
      assert d in Filter(ds, Fits(st, b.kind)) <==> d in ds && Fits(st, b.kind)(d);
    } else {
      DisabledSilent(st, b, ds);
      assert BatchRows(st, b, ds) == [];
    }
  }

  lemma ListBatchesPlain(cfg: Config, l: string)
    requires Clean(cfg) && l in AllLists(cfg)
    ensures forall b :: b in ListBatches(cfg, l) ==> PlainTarget(b.kind) && b == Batch(b.enabled, b.kind, 0, "")
  {
    hide AllLists, ServerAddr, ListDomains.IsDomain, FirstDns, ValidTag;
    TagIsPlain(l);
    var servers := ServersFor(cfg, l);
    forall s | s in servers ensures SlashFree(ServerAddr(s)) { AddrIsPlain(s); }
  }

  lemma SectionReads(cfg: Config, st: Style, l: string, y: OutLine, d: string, a: string)
    requires Clean(cfg) && l in AllLists(cfg) && l in cfg.lists && y in SectionLines(cfg, st)(l)
    ensures Sends(TextOf(st)(y), d, a) <==> y.Row? && y.kind.ServerRow? && y.kind.addr == a && d in ReadRow(st)(y)
    ensures Permits(TextOf(st)(y), d) <==> y.Row? && y.kind.RebindRow? && d in ReadRow(st)(y)
  {
    hide AllLists, SectionAll, Bares, Sends, Permits, Text, ListBatches, PlainTarget, RowDomains, SectionLines, Clean;
    var bs, ds := ListBatches(cfg, l), Bares(cfg.lists[l]);
    SectionShape(cfg, st, l);
    if y.Row? {
      SectionAllKind(st, bs, ds, y);
      ListBatchesPlain(cfg, l);
      RowSends(st, y.kind, y.path, d, a);
    } else {
      PlainLineDirectsNothing(y.text, d, a);
    }
  }

  /** The domains in the rows of one kind of one list's section. */
  lemma SectionOfKind(cfg: Config, st: Style, l: string, i: nat, d: string)
    requires Clean(cfg) && l in AllLists(cfg) && l in cfg.lists && i < |ListBatches(cfg, l)|
    requires i >= 1
    ensures (exists y :: y in SectionLines(cfg, st)(l) && y.Row? && y.kind == ListBatches(cfg, l)[i].kind
                         && d in ReadRow(st)(y)) <==>
            ListBatches(cfg, l)[i].enabled && d in Bares(cfg.lists[l])
            && |Text(st, ListBatches(cfg, l)[i].kind, "/" + d)| <= 1024
  {
    hide AllLists, SectionAll, Bares, Text, PlainTarget, SectionLines, ListDomains.IsDomain, ReadRow, DistinctKinds,
      NeedsSet, AllowsRebind, ServersFor, ServerAddr, TagsValid;
    var bs, ds := ListBatches(cfg, l), Bares(cfg.lists[l]);
    ListBatchKinds(cfg, l);
    ListBatchesPlain(cfg, l);
    BaresPlain(cfg.lists[l]);
    SectionShape(cfg, st, l);
    assert bs[i] in bs;
    SectionHolds(st, bs, ds, i, d);
  }

  /** What one list's section sends to servers. */
  lemma SectionSends(cfg: Config, st: Style, l: string, d: string, a: string)
    requires Clean(cfg) && l in AllLists(cfg) && l in cfg.lists
    ensures (exists y :: y in SectionLines(cfg, st)(l) && Sends(TextOf(st)(y), d, a)) <==>
            exists j :: 0 <= j < |ServersFor(cfg, l)| && ServerAddr(ServersFor(cfg, l)[j]) == a
                        && d in Bares(cfg.lists[l]) && |"server=/" + d + "/" + a| <= 1024
  {
    hide AllLists, SectionAll, Bares, Sends, ServerAddr, AllowsRebind, NeedsSet, ServersFor, Clean, SectionLines,
      ReadRow;
    var bs, servers := ListBatches(cfg, l), ServersFor(cfg, l);
    if y :| y in SectionLines(cfg, st)(l) && Sends(TextOf(st)(y), d, a) {
      SectionReads(cfg, st, l, y, d, a);
      RowOfBatch(cfg, st, l, y);
      var j := y.kind.index;
      SectionOfKind(cfg, st, l, 2 + j, d);
    }
    if j :| 0 <= j < |servers| && ServerAddr(servers[j]) == a && d in Bares(cfg.lists[l])
            && |"server=/" + d + "/" + a| <= 1024 {
      SectionOfKind(cfg, st, l, 2 + j, d);
      var y :| y in SectionLines(cfg, st)(l) && y.Row? && y.kind == bs[2 + j].kind && d in ReadRow(st)(y);
      SectionReads(cfg, st, l, y, d, a);
    }
  }

  /** Which domains one list's section lets resolve to private addresses. */
  lemma SectionPermits(cfg: Config, st: Style, l: string, d: string)
    requires Clean(cfg) && l in AllLists(cfg) && l in cfg.lists
    ensures (exists y :: y in SectionLines(cfg, st)(l) && Permits(TextOf(st)(y), d)) <==>
            AllowsRebind(cfg, l) && d in Bares(cfg.lists[l]) && |"rebind-domain-ok=/" + d + "/"| <= 1024
  {
    hide AllLists, SectionAll, Bares, Permits, ServerAddr, AllowsRebind, NeedsSet, ServersFor, Clean, SectionLines,
      ReadRow;
    SectionOfKind(cfg, st, l, 1, d);
    forall y | y in SectionLines(cfg, st)(l)
      ensures Permits(TextOf(st)(y), d) <==> y.Row? && y.kind == RebindRow(l) && d in ReadRow(st)(y)
    {
      SectionReads(cfg, st, l, y, d, "");
      if y.Row? { RowOfBatch(cfg, st, l, y); }
    }
  }

  lemma RowOfBatch(cfg: Config, st: Style, l: string, y: OutLine)
    requires l in cfg.lists && y in SectionLines(cfg, st)(l) && y.Row?
    ensures y.kind.RebindRow? ==> y.kind == RebindRow(l)
    ensures y.kind.ServerRow? ==> y.kind.index < |ServersFor(cfg, l)|
                                  && y.kind == ListBatches(cfg, l)[2 + y.kind.index].kind
  {
    hide SectionAll, Bares, ServerAddr, AllowsRebind, NeedsSet, ServersFor, SectionLines;
    SectionShape(cfg, st, l);
    SectionAllKind(st, ListBatches(cfg, l), Bares(cfg.lists[l]), y);
  }

  lemma SectionShape(cfg: Config, st: Style, l: string)
    requires l in cfg.lists
    ensures forall y :: y in SectionLines(cfg, st)(l) && y.Row? ==>
              y in SectionAll(st, ListBatches(cfg, l), Bares(cfg.lists[l]))
    ensures forall y :: y in SectionLines(cfg, st)(l) && y.Line? ==> y.text == "" || y.text[0] == '#'
    ensures (NeedsSet(cfg, l) || AllowsRebind(cfg, l) || ServersFor(cfg, l) != []) && Bares(cfg.lists[l]) != [] ==>
              forall y :: y in SectionAll(st, ListBatches(cfg, l), Bares(cfg.lists[l])) ==>
                     y in SectionLines(cfg, st)(l)
  {
    hide SectionAll, ListBatches, Bares, NeedsSet, AllowsRebind, ServersFor;
    forall y | y in SectionAll(st, ListBatches(cfg, l), Bares(cfg.lists[l])) ensures y.Row? {
      SectionAllKind(st, ListBatches(cfg, l), Bares(cfg.lists[l]), y);
    }
    assert ("# List: " + l)[0] == '#';
  }

  lemma PlainLineDirectsNothing(t: string, d: string, a: string)
    requires t == "" || t[0] == '#' || t[0] == 'a'
    ensures !Sends(t, d, a) && !Permits(t, d)
  {}

  // ---------------------------------------------------------------- the lines around the lists

  lemma PlainLines(cfg: Config, y: OutLine)
    requires y in StaticLines(cfg) || y in UpstreamLines(cfg)
    ensures y.Line? && (y.text == "" || y.text[0] == '#' || y.text[0] == 'a')
  {
    hide Statics, StaticPattern;
    MapMember(Statics(cfg.statics), StaticLine(), y);
    MapMember(cfg.upstreams, UpstreamLine(), y);
    if e :| e in Statics(cfg.statics) && y == StaticLine()(e) { assert y.text[0] == 'a'; }
    if u :| u in cfg.upstreams && y == UpstreamLine()(u) { assert y.text[0] == '#'; }
  }

  lemma FallbackDirectsNothing(cfg: Config, y: OutLine, d: string, a: string)
    requires Clean(cfg) && y in FallbackLines(cfg)
    ensures y.Line? && !Sends(y.text, d, a) && !Permits(y.text, d)
  {
    hide ServerAddr, TagsValid, RowDomains;
    MapMember(cfg.fallback, FallbackLine(), y);
    if s :| s in cfg.fallback && y == FallbackLine()(s) {
      AddrIsPlain(s);
      FieldsWord(y.text);
      assert y.text[0] == 's';
    }
  }

  lemma ProbeDirects(at: string, d: string, a: string)
    requires SlashFree(at)
    ensures Sends("server=/check.keen.pbr/" + at, d, a) <==> d == "check.keen.pbr" && a == at
    ensures !Permits("server=/check.keen.pbr/" + at, d)
  {
    hide Fields;
    assert "server=/check.keen.pbr/" + at == "server=/check.keen.pbr" + "/" + at;
    FieldsSlash("server=/check.keen.pbr", at);
    assert "server=/check.keen.pbr" == "server=" + "/" + "check.keen.pbr";
    FieldsSlash("server=", "check.keen.pbr");
    FieldsWord("server=");
    assert ("server=/check.keen.pbr/" + at)[0] == 's';
  }

  lemma RebindHeadDirectsNothing(d: string, a: string)
    ensures !Sends("rebind-domain-ok=keen.pbr", d, a) && !Permits("rebind-domain-ok=keen.pbr", d)
  {
    FieldsWord("rebind-domain-ok=keen.pbr");
  }

  lemma HeadDirects(cfg: Config, st: Style, y: OutLine, d: string, a: string)
    requires Clean(cfg) && y in HeadLines(cfg, st)
    ensures y.Line? && !Permits(y.text, d)
    ensures Sends(y.text, d, a) ==>
              cfg.probe.Some? && d == "check.keen.pbr" && a == cfg.probe.value.ip + "#" + Dec(cfg.probe.value.port)
  {
    hide TagsValid, Sends, Permits, Dec;
    if y.text == "" || y.text[0] == '#' || y.text[0] == 'a' {
      PlainLineDirectsNothing(y.text, d, a);
    } else if y.text == "rebind-domain-ok=keen.pbr" {
      RebindHeadDirectsNothing(d, a);
    } else {
      var s := cfg.probe.value;
      var at := s.ip + "#" + Dec(s.port);
      DecReadsBack(s.port);
      assert y.text == "server=/check.keen.pbr/" + at;
      ProbeDirects(at, d, a);
    }
  }

  lemma ProbeIsWritten(cfg: Config, st: Style) returns (y: OutLine)
    requires Clean(cfg) && cfg.probe.Some?
    ensures y in HeadLines(cfg, st) && y.Line?
    ensures Sends(y.text, "check.keen.pbr", cfg.probe.value.ip + "#" + Dec(cfg.probe.value.port))
  {
    hide TagsValid, Sends, Permits, Dec;
    var s := cfg.probe.value;
    var at := s.ip + "#" + Dec(s.port);
    DecReadsBack(s.port);
    ProbeDirects(at, "check.keen.pbr", at);
    y := Line("server=/check.keen.pbr/" + s.ip + "#" + Dec(s.port));
    assert y.text == "server=/check.keen.pbr/" + at;
    assert HeadLines(cfg, st)[5] == y;
  }

  // ---------------------------------------------------------------- the whole text

  lemma OutsideLists(cfg: Config, st: Style, y: OutLine, d: string, a: string)
    requires Clean(cfg) && y in Output(cfg, st) && y !in FlatMap(AllLists(cfg), SectionLines(cfg, st))
    ensures !Permits(TextOf(st)(y), d)
    ensures Sends(TextOf(st)(y), d, a) ==>
              cfg.probe.Some? && d == "check.keen.pbr" && a == cfg.probe.value.ip + "#" + Dec(cfg.probe.value.port)
  {
    hide HeadLines, StaticLines, UpstreamLines, FallbackLines, FlatMap, AllLists, SectionLines, Sends, Permits, Clean,
      Dec;
    if y in HeadLines(cfg, st) {
      HeadDirects(cfg, st, y, d, a);
    } else if y in FallbackLines(cfg) {
      FallbackDirectsNothing(cfg, y, d, a);
    } else {
      PlainLines(cfg, y);
      PlainLineDirectsNothing(y.text, d, a);
    }
  }

  /** The list's j-th server gets the domain: it is in the list, the rule that decides for
      the list names the server, and the directive for it alone is not too long. */
  ghost predicate SentBy(cfg: Config, l: string, j: nat, s: Server, d: string, a: string)
  {
    && l in cfg.lists && d in ListedDomains(cfg.lists[l]) && Resolves(cfg, l, j, s)
    && a == (if s.port == 53 then s.ip else s.ip + "#" + Dec(s.port))
    && |"server=/" + d + "/" + a| <= 1024
  }

  /** The text sends a domain to a server exactly when the first enabled DNS rule for a list
      that holds the domain names that server, or for the probe name to the probe server. */
  lemma ServersExactly(cfg: Config, st: Style, d: string, a: string)
    requires Clean(cfg)
    ensures (exists y :: y in Output(cfg, st) && Sends(TextOf(st)(y), d, a)) <==>
            || (cfg.probe.Some? && d == "check.keen.pbr" && a == cfg.probe.value.ip + "#" + Dec(cfg.probe.value.port))
            || exists l, j, s :: SentBy(cfg, l, j, s, d, a)
  {
    hide HeadLines, StaticLines, UpstreamLines, FallbackLines, FlatMap, AllLists, SectionLines, Sends, Clean, Dec,
      Resolves, ListedDomains, Bares, ServersFor;
    var tail := FlatMap(AllLists(cfg), SectionLines(cfg, st));
    if y :| y in Output(cfg, st) && Sends(TextOf(st)(y), d, a) {
      if y in tail {
        FlatMapMember(AllLists(cfg), SectionLines(cfg, st), y);
        var l :| l in AllLists(cfg) && y in SectionLines(cfg, st)(l);
        SectionNeedsList(cfg, st, l, y);
        SectionSends(cfg, st, l, d, a);
        var j :| 0 <= j < |ServersFor(cfg, l)| && ServerAddr(ServersFor(cfg, l)[j]) == a;
        DnsChoiceIs(cfg, l, j, ServersFor(cfg, l)[j]);
        BaresAre(cfg.lists[l]);
        assert SentBy(cfg, l, j, ServersFor(cfg, l)[j], d, a);
      } else {
        OutsideLists(cfg, st, y, d, a);
      }
    }
    if cfg.probe.Some? && d == "check.keen.pbr" && a == cfg.probe.value.ip + "#" + Dec(cfg.probe.value.port) {
      var y := ProbeIsWritten(cfg, st);
      assert y in Output(cfg, st) && Sends(TextOf(st)(y), d, a);
    }
    if l, j, s :| SentBy(cfg, l, j, s, d, a) {
      DnsChoiceIs(cfg, l, j, s);
      MentionedIsGenerated(cfg, l);
      BaresAre(cfg.lists[l]);
      SectionSends(cfg, st, l, d, a);
      var y :| y in SectionLines(cfg, st)(l) && Sends(TextOf(st)(y), d, a);
      FlatMapMember(AllLists(cfg), SectionLines(cfg, st), y);
    }
  }

  lemma SectionNeedsList(cfg: Config, st: Style, l: string, y: OutLine)
    requires y in SectionLines(cfg, st)(l)
    ensures l in cfg.lists
  {}

  /** The text lets a domain resolve to private addresses exactly when the first enabled
      DNS rule for a list that holds the domain allows it. */
  lemma RebindExactly(cfg: Config, st: Style, d: string)
    requires Clean(cfg)
    ensures (exists y :: y in Output(cfg, st) && Permits(TextOf(st)(y), d)) <==>
            exists l :: l in cfg.lists && d in ListedDomains(cfg.lists[l]) && RebindAllowed(cfg, l)
                        && |"rebind-domain-ok=/" + d + "/"| <= 1024
  {
    hide HeadLines, StaticLines, UpstreamLines, FallbackLines, FlatMap, AllLists, SectionLines, Permits, Clean,
      RebindAllowed, ListedDomains, Bares, AllowsRebind;
    var tail := FlatMap(AllLists(cfg), SectionLines(cfg, st));
    if y :| y in Output(cfg, st) && Permits(TextOf(st)(y), d) {
      if y in tail {
        FlatMapMember(AllLists(cfg), SectionLines(cfg, st), y);
        var l :| l in AllLists(cfg) && y in SectionLines(cfg, st)(l);
        SectionNeedsList(cfg, st, l, y);
        SectionPermits(cfg, st, l, d);
        DnsChoiceIs(cfg, l, 0, Server("", 0));
        BaresAre(cfg.lists[l]);
      } else {
        OutsideLists(cfg, st, y, d, "");
      }
    }
    if l :| l in cfg.lists && d in ListedDomains(cfg.lists[l]) && RebindAllowed(cfg, l)
            && |"rebind-domain-ok=/" + d + "/"| <= 1024 {
      DnsChoiceIs(cfg, l, 0, Server("", 0));
      MentionedIsGenerated(cfg, l);
      BaresAre(cfg.lists[l]);
      SectionPermits(cfg, st, l, d);
      var y :| y in SectionLines(cfg, st)(l) && Permits(TextOf(st)(y), d);
      FlatMapMember(AllLists(cfg), SectionLines(cfg, st), y);
    }
  }
}
