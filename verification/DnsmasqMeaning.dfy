/** What the generated dnsmasq configuration and its hash stand for, stated on the rules,
    lists and servers of the configuration. */
module DnsmasqMeaning {
  import opened Common
  import opened Ordering
  import opened DnsmasqRows
  import opened DnsmasqBatches
  import opened DnsmasqConfig
  import opened DnsmasqPass

  // ---------------------------------------------------------------- what the rules say

  /** Some enabled route rule mentions the list. */
  ghost predicate Routed(cfg: Config, l: string)
  {
    exists r :: r in cfg.routeRules && r.enabled && l in r.lists
  }

  /** The i-th DNS rule is the first enabled one that mentions the list. */
  ghost predicate DecidedBy(cfg: Config, l: string, i: nat)
  {
    && i < |cfg.dnsRules| && cfg.dnsRules[i].enabled && l in cfg.dnsRules[i].lists
    && forall j :: 0 <= j < i ==> !(cfg.dnsRules[j].enabled && l in cfg.dnsRules[j].lists)
  }

  ghost predicate RebindAllowed(cfg: Config, l: string)
  {
    exists i: nat :: DecidedBy(cfg, l, i) && cfg.dnsRules[i].allowRebind
  }

  /** The j-th server that the list's domains are sent to. */
  ghost predicate Resolves(cfg: Config, l: string, j: nat, s: Server)
  {
    exists i: nat :: && DecidedBy(cfg, l, i) && cfg.dnsRules[i].server in cfg.servers
                && j < |cfg.servers[cfg.dnsRules[i].server]| && cfg.servers[cfg.dnsRules[i].server][j] == s
  }

  /** A domain without its leading wildcard label. */
  function Plainly(text: string): string
  {
    if "*." <= text && |text| > 2 then text[2..] else text
  }

  /** The domains a list holds, in order; empty ones and those over 255 characters are left out. */
  function ListedDomains(entries: seq<Entry>): seq<string>
  {
    if entries == [] then []
    else
      var e := entries[0];
      (if e.Domain? && Plainly(e.text) != "" && |Plainly(e.text)| <= 255 then [Plainly(e.text)] else [])
      + ListedDomains(entries[1..])
  }

  lemma StripsPlainly(text: string)
    ensures StripWildcard(text) == Plainly(text)
  {
    if |text| >= 2 { assert text[..2] == [text[0], text[1]]; }
  }

  lemma {:induction false} BaresAre(entries: seq<Entry>)
    ensures Bares(entries) == ListedDomains(entries)
  {
    hide StripWildcard, Plainly;
    if entries != [] {
      StripsPlainly(entries[0].text);
      BaresAre(entries[1..]);
    }
  }

  lemma RoutedIs(cfg: Config, l: string)
    ensures NeedsSet(cfg, l) <==> Routed(cfg, l)
  {
    hide FlatMap;
    AddAllIsSet([], FlatMap(cfg.routeRules, RouteNames()));
    FlatMapMember(cfg.routeRules, RouteNames(), l);
    if r :| r in cfg.routeRules && r.enabled && l in r.lists {
      assert l in RouteNames()(r);
    }
  }

  lemma {:induction false} FirstDnsAt(rules: seq<DnsRule>, l: string, i: nat)
    requires i < |rules| && rules[i].enabled && l in rules[i].lists
    requires forall j :: 0 <= j < i ==> !(rules[j].enabled && l in rules[j].lists)
    ensures FirstDns(rules, l) == Some(rules[i])
    decreases i
  {
    if i > 0 {
      assert !(rules[0].enabled && l in rules[0].lists);
      FirstDnsAt(rules[1..], l, i - 1);
    }
  }

  lemma {:induction false} FirstDnsFrom(rules: seq<DnsRule>, l: string) returns (i: nat)
    requires FirstDns(rules, l).Some?
    ensures i < |rules| && rules[i].enabled && l in rules[i].lists && FirstDns(rules, l) == Some(rules[i])
    ensures forall j :: 0 <= j < i ==> !(rules[j].enabled && l in rules[j].lists)
  {
    if rules[0].enabled && l in rules[0].lists {
      i := 0;
    } else {
      var k := FirstDnsFrom(rules[1..], l);
      i := k + 1;
    }
  }

  /** The generator's choice for a list is that of the rule that decides for it. */
  lemma DnsChoiceIs(cfg: Config, l: string, j: nat, s: Server)
    ensures AllowsRebind(cfg, l) <==> RebindAllowed(cfg, l)
    ensures j < |ServersFor(cfg, l)| && ServersFor(cfg, l)[j] == s <==> Resolves(cfg, l, j, s)
  {
    hide FirstDns;
    if FirstDns(cfg.dnsRules, l).Some? {
      var i := FirstDnsFrom(cfg.dnsRules, l);
      assert DecidedBy(cfg, l, i);
    }
    forall i: nat | DecidedBy(cfg, l, i) ensures FirstDns(cfg.dnsRules, l) == Some(cfg.dnsRules[i]) {
      FirstDnsAt(cfg.dnsRules, l, i);
    }
  }

  lemma MentionedIsGenerated(cfg: Config, l: string)
    ensures Routed(cfg, l) || RebindAllowed(cfg, l) || (exists j: nat, s :: Resolves(cfg, l, j, s)) ==>
            l in AllLists(cfg)
  {
    hide FlatMap, AllLists;
    AllListsAre(cfg);
    FlatMapMember(cfg.routeRules, RouteNames(), l);
    FlatMapMember(cfg.dnsRules, DnsNames(), l);
    if r :| r in cfg.routeRules && r.enabled && l in r.lists {
      assert l in RouteNames()(r);
    }
    forall i: nat | DecidedBy(cfg, l, i) ensures l in AllLists(cfg) {
      assert cfg.dnsRules[i] in cfg.dnsRules && l in DnsNames()(cfg.dnsRules[i]);
    }
  }

  // ---------------------------------------------------------------- the hash records

  lemma DomainRecordIs(cfg: Config, l: string, d: string, r: Record)
    ensures r in DomainRecords(cfg, l)(d) <==>
            || (r == Route(l, d) && Routed(cfg, l))
            || (r == Rebind(l, d) && RebindAllowed(cfg, l))
            || (r.DomainServer? && r.list == l && r.domain == d && Resolves(cfg, l, r.index, r.server))
  {
    hide NeedsSet, AllowsRebind, ServersFor, Routed, RebindAllowed, Resolves;
    RoutedIs(cfg, l);
    DnsChoiceIs(cfg, l, 0, Server("", 0));
    var servers := ServersFor(cfg, l);
    if r.DomainServer? { DnsChoiceIs(cfg, l, r.index, r.server); }
    if r in ServerRecords(l, d, servers) {
      var j :| 0 <= j < |servers| && ServerRecords(l, d, servers)[j] == r;
    }
    if r.DomainServer? && r.list == l && r.domain == d && r.index < |servers| && servers[r.index] == r.server {
      assert ServerRecords(l, d, servers)[r.index] == r;
    }
  }

  lemma ListRecordIs(cfg: Config, r: Record)
    ensures r in FlatMap(AllLists(cfg), ListRecords(cfg)) <==>
            && (r.Route? || r.Rebind? || r.DomainServer?) && r.list in AllLists(cfg) && r.list in cfg.lists
            && r.domain in ListedDomains(cfg.lists[r.list]) && r in DomainRecords(cfg, r.list)(r.domain)
  {
    hide FlatMap, AllLists, DomainRecords, Bares;
    FlatMapMember(AllLists(cfg), ListRecords(cfg), r);
    forall l | l in cfg.lists
      ensures r in ListRecords(cfg)(l) <==>
              && (r.Route? || r.Rebind? || r.DomainServer?) && r.list == l
              && r.domain in ListedDomains(cfg.lists[l]) && r in DomainRecords(cfg, l)(r.domain)
    {
      BaresAre(cfg.lists[l]);
      FlatMapMember(Bares(cfg.lists[l]), DomainRecords(cfg, l), r);
      forall d ensures r in DomainRecords(cfg, l)(d) ==>
                       (r.Route? || r.Rebind? || r.DomainServer?) && r.list == l && r.domain == d {
        DomainRecordIs(cfg, l, d, r);
      }
    }
  }

  /** Exactly which facts the configuration hash covers: the version, the address families, the
      probe server, every static entry, every fallback server with its position, and for
      every domain of every list its routing, its rebind permission and each of its
      servers with its position. */
  lemma RecordsExactly(cfg: Config, r: Record)
    ensures r in Records(cfg) <==>
            match r
            case Version(v) => v == cfg.version
            case Ipv6(on) => on == cfg.ipv6
            case Probe(s) => cfg.probe == Some(s)
            case Static(key) => exists e :: e in cfg.statics && key == "/" + Plainly(e.domain) + "|" + e.address
            case Fallback(i, s) => i < |cfg.fallback| && cfg.fallback[i] == s
            case Route(l, d) => l in cfg.lists && d in ListedDomains(cfg.lists[l]) && Routed(cfg, l)
            case Rebind(l, d) => l in cfg.lists && d in ListedDomains(cfg.lists[l]) && RebindAllowed(cfg, l)
            case DomainServer(l, d, j, s) =>
              l in cfg.lists && d in ListedDomains(cfg.lists[l]) && Resolves(cfg, l, j, s)
  {
    hide FlatMap, AllLists, ListRecords, Statics, StaticKey, DomainRecords, ListedDomains, Routed, RebindAllowed,
      Resolves;
    ListRecordIs(cfg, r);
    StaticRecordIs(cfg, r);
    FallbackRecordIs(cfg, r);
    if r.Route? || r.Rebind? || r.DomainServer? {
      DomainRecordIs(cfg, r.list, r.domain, r);
      MentionedIsGenerated(cfg, r.list);
    }
  }

  lemma StaticRecordIs(cfg: Config, r: Record)
    ensures r in Map(Statics(cfg.statics), StaticRecord()) <==>
            r.Static? && exists e :: e in cfg.statics && r.key == "/" + Plainly(e.domain) + "|" + e.address
  {
    hide Statics, StaticKey, Plainly;
    StaticsUnique(cfg.statics);
    MapMember(Statics(cfg.statics), StaticRecord(), r);
    forall e ensures StaticKey(e) == "/" + Plainly(e.domain) + "|" + e.address { StaticKeyIs(e); }
    if r.Static? {
      assert r.key in StaticKeys(cfg.statics) <==> exists e :: e in cfg.statics && r.key == StaticKey(e);
      assert r.key in StaticKeys(Statics(cfg.statics)) <==>
             exists e :: e in Statics(cfg.statics) && r.key == StaticKey(e);
      assert r in Map(Statics(cfg.statics), StaticRecord()) <==>
             exists e :: e in Statics(cfg.statics) && r == StaticRecord()(e);
      if e :| e in Statics(cfg.statics) && r.key == StaticKey(e) { assert r == StaticRecord()(e); }
    }
  }

  lemma StaticKeyIs(e: StaticEntry)
    ensures StaticKey(e) == "/" + Plainly(e.domain) + "|" + e.address
  {
    StripsPlainly(e.domain);
  }

  lemma FallbackRecordIs(cfg: Config, r: Record)
    ensures r in FallbackRecords(cfg.fallback) <==>
            r.Fallback? && r.index < |cfg.fallback| && cfg.fallback[r.index] == r.server
  {
    if r.Fallback? && r.index < |cfg.fallback| && cfg.fallback[r.index] == r.server {
      assert FallbackRecords(cfg.fallback)[r.index] == r;
    }
  }
}
