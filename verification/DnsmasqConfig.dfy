/** What the dnsmasq generator is given, and the hash records and output lines one pass
    over it stands for. Neither the records nor their order mention the resolver type or
    whether anything is written. */
module DnsmasqConfig {
  import opened Common
  import opened Ordering
  import opened DnsmasqRows
  import opened DnsmasqBatches
  import Rfc1321

  datatype Server = Server(ip: string, port: nat)

  datatype StaticEntry = StaticEntry(domain: string, address: string)

  datatype RouteRule = RouteRule(enabled: bool, lists: seq<string>)

  datatype DnsRule = DnsRule(enabled: bool, lists: seq<string>, server: string, allowRebind: bool)

  datatype Entry = Domain(text: string) | Address(text: string)

  datatype Config = Config(
    version: string, ipv6: bool, probe: Option<Server>, statics: seq<StaticEntry>, upstreams: seq<string>,
    fallback: seq<Server>, hasFallback: bool, routeRules: seq<RouteRule>, dnsRules: seq<DnsRule>,
    servers: map<string, seq<Server>>, lists: map<string, seq<Entry>>)

  // ---------------------------------------------------------------- names

  /** Inserting into a `std::set<std::string>` kept as its ordered elements. */
  function AddName(s: seq<string>, n: string): seq<string>
  {
    if n in s then s else Insert(n, s, StringLe)
  }

  function AddAll(s: seq<string>, ns: seq<string>): seq<string>
  {
    if ns == [] then s else AddName(AddAll(s, ns[..|ns| - 1]), ns[|ns| - 1])
  }

  ghost predicate Distinct(s: seq<string>)
  {
    forall i, j :: 0 <= i < j < |s| ==> s[i] != s[j]
  }

  lemma InsertMembers(n: string, s: seq<string>)
    ensures forall x :: x in Insert(n, s, StringLe) <==> x == n || x in s
  {
    SameMembers(Insert(n, s, StringLe), [n] + s);
  }

  lemma {:induction false} InsertDistinct(n: string, s: seq<string>)
    requires Distinct(s) && n !in s
    ensures Distinct(Insert(n, s, StringLe))
  {
    if s != [] && !StringLe(n, s[0]) {
      InsertDistinct(n, s[1..]);
      InsertMembers(n, s[1..]);
      var t := Insert(n, s[1..], StringLe);
      forall i | 0 <= i < |t| ensures t[i] != s[0] {
        assert t[i] in t;
      }
    }
  }

  /** A set keeps its names sorted and once each, and holds what was inserted. */
  lemma {:induction false} AddAllIsSet(s: seq<string>, ns: seq<string>)
    requires Sorted(s, StringLe) && Distinct(s)
    ensures Sorted(AddAll(s, ns), StringLe) && Distinct(AddAll(s, ns))
    ensures forall x :: x in AddAll(s, ns) <==> x in s || x in ns
  {
    if ns != [] {
      var init, n := ns[..|ns| - 1], ns[|ns| - 1];
      assert ns == init + [n];
      AddAllIsSet(s, init);
      var t := AddAll(s, init);
      if n !in t {
        StringLeIsTotalOrder();
        InsertSorted(n, t, StringLe);
        InsertDistinct(n, t);
        InsertMembers(n, t);
      }
    }
  }

  function RouteNames(): RouteRule -> seq<string>
  {
    (r: RouteRule) => if r.enabled then r.lists else []
  }

  function DnsNames(): DnsRule -> seq<string>
  {
    (r: DnsRule) => if r.enabled then r.lists else []
  }

  function RouteLists(cfg: Config): seq<string>
  {
    AddAll([], FlatMap(cfg.routeRules, RouteNames()))
  }

  function DnsLists(cfg: Config): seq<string>
  {
    AddAll([], FlatMap(cfg.dnsRules, DnsNames()))
  }

  /** Every list a rule mentions, in the order they are generated. */
  function AllLists(cfg: Config): seq<string>
  {
    AddAll(RouteLists(cfg), DnsLists(cfg))
  }

  /** Each mentioned list is generated once, in name order. */
  lemma AllListsAre(cfg: Config)
    ensures Sorted(AllLists(cfg), StringLe) && Distinct(AllLists(cfg))
    ensures forall l :: l in AllLists(cfg) <==>
                        l in FlatMap(cfg.routeRules, RouteNames()) || l in FlatMap(cfg.dnsRules, DnsNames())
  {
    hide FlatMap;
    AddAllIsSet([], FlatMap(cfg.routeRules, RouteNames()));
    AddAllIsSet([], FlatMap(cfg.dnsRules, DnsNames()));
    AddAllIsSet(RouteLists(cfg), DnsLists(cfg));
  }

  /** The first enabled DNS rule that mentions a list decides for it. */
  function FirstDns(rules: seq<DnsRule>, l: string): Option<DnsRule>
  {
    if rules == [] then None
    else if rules[0].enabled && l in rules[0].lists then Some(rules[0])
    else FirstDns(rules[1..], l)
  }

  lemma {:induction false} FirstDnsStep(rules: seq<DnsRule>, i: nat, l: string)
    requires i < |rules|
    ensures FirstDns(rules[..i + 1], l) ==
            if FirstDns(rules[..i], l).Some? then FirstDns(rules[..i], l)
            else if rules[i].enabled && l in rules[i].lists then Some(rules[i]) else None
  {
    if i == 0 {
      assert rules[..1][1..] == [] && rules[..1][0] == rules[0];
    } else {
      assert rules[..i + 1][1..] == rules[1..][..i] && rules[..i][1..] == rules[1..][..i - 1];
      FirstDnsStep(rules[1..], i - 1, l);
    }
  }

  predicate NeedsSet(cfg: Config, l: string)
  {
    l in RouteLists(cfg)
  }

  predicate AllowsRebind(cfg: Config, l: string)
  {
    FirstDns(cfg.dnsRules, l).Some? && FirstDns(cfg.dnsRules, l).value.allowRebind
  }

  function ServersFor(cfg: Config, l: string): seq<Server>
  {
    var r := FirstDns(cfg.dnsRules, l);
    if r.Some? && r.value.server in cfg.servers then cfg.servers[r.value.server] else []
  }

  // ---------------------------------------------------------------- domains

  function StripWildcard(d: string): string
  {
    if |d| > 2 && d[0] == '*' && d[1] == '.' then d[2..] else d
  }

  /** The domain an entry contributes, if any. */
  function Bare(): Entry -> seq<string>
  {
    (e: Entry) =>
      if e.Domain? && 0 < |StripWildcard(e.text)| <= MAX_DOMAIN then [StripWildcard(e.text)] else []
  }

  function Bares(entries: seq<Entry>): seq<string>
  {
    FlatMap(entries, Bare())
  }

  // ---------------------------------------------------------------- records

  datatype Record =
    | Version(version: string) | Ipv6(on: bool) | Probe(at: Server)
    | Static(key: string) | Fallback(index: nat, server: Server)
    | Route(list: string, domain: string) | Rebind(list: string, domain: string)
    | DomainServer(list: string, domain: string, index: nat, server: Server)

  function Dec(n: nat): string
  {
    if n < 10 then [('0' as int + n) as char] else Dec(n / 10) + Dec(n % 10)
  }

  function RecordText(r: Record): string
  {
    match r
    case Version(v) => "version|" + v
    case Ipv6(on) => "ipv6-enabled|" + (if on then "1" else "0")
    case Probe(s) => "probe-server|" + s.ip + "|" + Dec(s.port)
    case Static(key) => "keenetic-static|" + key
    case Fallback(i, s) => "fallback-server|" + Dec(i) + "|" + s.ip + "|" + Dec(s.port)
    case Route(l, d) => "domain-route|" + l + "|" + d
    case Rebind(l, d) => "domain-rebind|" + l + "|" + d
    case DomainServer(l, d, i, s) => "domain-server|" + l + "|" + d + "|" + Dec(i) + "|" + s.ip + "|" + Dec(s.port)
  }

  function StaticPattern(domain: string): string
  {
    "/" + StripWildcard(domain)
  }

  function StaticKey(e: StaticEntry): string
  {
    StaticPattern(e.domain) + "|" + e.address
  }

  /** Static entries without those whose key came earlier. */
  function Statics(es: seq<StaticEntry>): seq<StaticEntry>
  {
    if es == [] then []
    else
      var kept, e := Statics(es[..|es| - 1]), es[|es| - 1];
      if StaticKey(e) in StaticKeys(kept) then kept else kept + [e]
  }

  function StaticKeys(es: seq<StaticEntry>): set<string>
  {
    set e | e in es :: StaticKey(e)
  }

  lemma StaticKeysAppend(es: seq<StaticEntry>, e: StaticEntry)
    ensures StaticKeys(es + [e]) == StaticKeys(es) + {StaticKey(e)}
  {
    hide StaticKey;
  }

  /** Every key is written once, at its first entry. */
  lemma {:induction false} StaticsUnique(es: seq<StaticEntry>)
    ensures StaticKeys(Statics(es)) == StaticKeys(es)
    ensures forall i, j :: 0 <= i < j < |Statics(es)| ==> StaticKey(Statics(es)[i]) != StaticKey(Statics(es)[j])
  {
    hide StaticKey;
    if es != [] {
      var init, e := es[..|es| - 1], es[|es| - 1];
      StaticsUnique(init);
      assert es == init + [e];
      StaticKeysAppend(init, e);
      var kept := Statics(init);
      if StaticKey(e) !in StaticKeys(kept) {
        StaticKeysAppend(kept, e);
        forall i | 0 <= i < |kept| ensures StaticKey(kept[i]) != StaticKey(e) {
          assert kept[i] in kept;
        }
      }
    }
  }

  function StaticRecord(): StaticEntry -> Record
  {
    (e: StaticEntry) => Static(StaticKey(e))
  }

  function FallbackRecords(servers: seq<Server>): seq<Record>
  {
    seq(|servers|, i requires 0 <= i < |servers| => Fallback(i, servers[i]))
  }

  function ServerRecords(l: string, d: string, servers: seq<Server>): seq<Record>
  {
    seq(|servers|, i requires 0 <= i < |servers| => DomainServer(l, d, i, servers[i]))
  }

  function DomainRecords(cfg: Config, l: string): string -> seq<Record>
  {
    (d: string) =>
      (if NeedsSet(cfg, l) then [Route(l, d)] else []) +
      (if AllowsRebind(cfg, l) then [Rebind(l, d)] else []) +
      ServerRecords(l, d, ServersFor(cfg, l))
  }

  function ListRecords(cfg: Config): string -> seq<Record>
  {
    (l: string) => if l in cfg.lists then FlatMap(Bares(cfg.lists[l]), DomainRecords(cfg, l)) else []
  }

  function HeadRecords(cfg: Config): seq<Record>
  {
    [Version(cfg.version), Ipv6(cfg.ipv6)] + (if cfg.probe.Some? then [Probe(cfg.probe.value)] else [])
  }

  /** The canonical records of a configuration and its list contents. */
  function Records(cfg: Config): seq<Record>
  {
    HeadRecords(cfg) + Map(Statics(cfg.statics), StaticRecord()) + FallbackRecords(cfg.fallback)
    + FlatMap(AllLists(cfg), ListRecords(cfg))
  }

  /** The bytes a record adds to the hash: its text and a newline. */
  function RecordBytes(): Record -> seq<Rfc1321.Byte>
  {
    (r: Record) => TextBytes(RecordText(r)) + [10]
  }

  function TextBytes(s: string): seq<Rfc1321.Byte>
  {
    seq(|s|, i requires 0 <= i < |s| => ((s[i] as int) % 256) as Rfc1321.Byte)
  }

  function Payload(rs: seq<Record>): seq<Rfc1321.Byte>
  {
    FlatMap(rs, RecordBytes())
  }

  // ---------------------------------------------------------------- output lines

  function ServerAddr(s: Server): string
  {
    if s.port != 53 then s.ip + "#" + Dec(s.port) else s.ip
  }

  function ServerBatches(l: string, servers: seq<Server>): seq<Batch>
  {
    seq(|servers|, i requires 0 <= i < |servers| => Batch(true, ServerRow(l, i, ServerAddr(servers[i])), 0, ""))
  }

  function ListBatches(cfg: Config, l: string): seq<Batch>
  {
    [Batch(NeedsSet(cfg, l), SetRow(l), 0, ""), Batch(AllowsRebind(cfg, l), RebindRow(l), 0, "")]
    + ServerBatches(l, ServersFor(cfg, l))
  }

  lemma ListBatchKinds(cfg: Config, l: string)
    ensures DistinctKinds(ListBatches(cfg, l))
    ensures forall b :: b in ListBatches(cfg, l) ==> b.kind.list == l
  {}

  predicate Active(cfg: Config, l: string)
  {
    NeedsSet(cfg, l) || AllowsRebind(cfg, l) || ServersFor(cfg, l) != []
  }

  function SectionLines(cfg: Config, st: Style): string -> seq<OutLine>
  {
    (l: string) =>
      if l !in cfg.lists || !Active(cfg, l) || Bares(cfg.lists[l]) == [] then []
      else [Line("# List: " + l)] + SectionAll(st, ListBatches(cfg, l), Bares(cfg.lists[l])) + [Line("")]
  }

  function StaticLine(): StaticEntry -> OutLine
  {
    (e: StaticEntry) => Line("address=" + StaticPattern(e.domain) + "/" + e.address)
  }

  function FallbackLine(): Server -> OutLine
  {
    (s: Server) => Line("server=" + ServerAddr(s))
  }

  function UpstreamLine(): string -> OutLine
  {
    (u: string) => Line("# " + u)
  }

  function HeadLines(cfg: Config, st: Style): seq<OutLine>
  {
    [Line("# Generated by keen-pbr (" + (if st.resolver.Ipset? then "dnsmasq-ipset" else "dnsmasq-nftset")
          + ") - do not edit manually"), Line(""), Line("address=/use-application-dns.net/"), Line("")]
    + (if cfg.probe.Some? then
         [Line("rebind-domain-ok=keen.pbr"),
          Line("server=/check.keen.pbr/" + cfg.probe.value.ip + "#" + Dec(cfg.probe.value.port)), Line("")]
       else [])
  }

  function StaticLines(cfg: Config): seq<OutLine>
  {
    if cfg.statics == [] then []
    else [Line("# Keenetic static DNS entries")] + Map(Statics(cfg.statics), StaticLine()) + [Line("")]
  }

  function UpstreamLines(cfg: Config): seq<OutLine>
  {
    if cfg.upstreams == [] then []
    else [Line("# Keenetic DNS is used:")] + Map(cfg.upstreams, UpstreamLine()) + [Line("")]
  }

  function FallbackLines(cfg: Config): seq<OutLine>
  {
    Map(cfg.fallback, FallbackLine()) + (if cfg.hasFallback then [Line("")] else [])
  }

  /** The generated file up to the hash record. */
  function Output(cfg: Config, st: Style): seq<OutLine>
  {
    HeadLines(cfg, st) + StaticLines(cfg) + UpstreamLines(cfg) + FallbackLines(cfg)
    + FlatMap(AllLists(cfg), SectionLines(cfg, st))
  }
}
