/** Batched dnsmasq directives: the text of a row, the batching of domains into rows,
    and reading the domains back from the rows' text. */
module DnsmasqRows {
  import opened Common

  const BATCH_SIZE: nat := 50
  const MAX_ROW: nat := 1024
  const MAX_DOMAIN: nat := 255

  datatype Resolver = Ipset | Nftset

  datatype Style = Style(resolver: Resolver, ipv6: bool)

  /** Which batch of which list a row comes from. */
  datatype Kind = SetRow(list: string) | RebindRow(list: string) | ServerRow(list: string, index: nat, addr: string)

  datatype OutLine = Row(kind: Kind, path: string) | Line(text: string)

  // ---------------------------------------------------------------- text of a row

  function Set4(list: string): string { "kpbr4d_" + list }
  function Set6(list: string): string { "kpbr6d_" + list }

  function Prefix(st: Style, k: Kind): string
  {
    match k
    case SetRow(_) => if st.resolver.Ipset? then "ipset=" else "nftset="
    case RebindRow(_) => "rebind-domain-ok="
    case ServerRow(_, _, _) => "server="
  }

  /** What follows the domains, after its leading slash. */
  function Target(st: Style, k: Kind): string
  {
    match k
    case SetRow(l) =>
      if st.resolver.Ipset? then Set4(l) + (if st.ipv6 then "," + Set6(l) else "")
      else "4#inet#KeenPbrTable#" + Set4(l) + (if st.ipv6 then ",6#inet#KeenPbrTable#" + Set6(l) else "")
    case RebindRow(_) => ""
    case ServerRow(_, _, addr) => addr
  }

  function Text(st: Style, k: Kind, path: string): string
  {
    Prefix(st, k) + path + "/" + Target(st, k)
  }

  /** The lengths the batching code adds up before a row exists. */
  function PrefixLen(st: Style, k: Kind): nat
  {
    match k
    case SetRow(_) => if st.resolver.Ipset? then 6 else 7
    case RebindRow(_) => 17
    case ServerRow(_, _, _) => 7
  }

  function SuffixLen(st: Style, k: Kind): nat
  {
    match k
    case SetRow(l) =>
      if st.resolver.Ipset? then
        if st.ipv6 then 1 + |Set4(l)| + 1 + |Set6(l)| else 1 + |Set4(l)|
      else
        if st.ipv6 then 21 + |Set4(l)| + 21 + |Set6(l)| else 21 + |Set4(l)|
    case RebindRow(_) => 1
    case ServerRow(_, _, addr) => 1 + |addr|
  }

  /** The predicted length is the length of the emitted text. */
  lemma LengthsAgree(st: Style, k: Kind, path: string)
    ensures |Text(st, k, path)| == PrefixLen(st, k) + |path| + SuffixLen(st, k)
  {}

  // ---------------------------------------------------------------- batching

  datatype Batch = Batch(enabled: bool, kind: Kind, count: nat, path: string)

  function FlushRows(b: Batch): seq<OutLine>
  {
    if b.enabled && b.count != 0 then [Row(b.kind, b.path)] else []
  }

  function Flushed(b: Batch): Batch
  {
    if b.enabled && b.count != 0 then b.(path := "", count := 0) else b
  }

  predicate TooLong(st: Style, k: Kind, path: string)
  {
    PrefixLen(st, k) + |path| + SuffixLen(st, k) > MAX_ROW
  }

  function PushRows(st: Style, b: Batch, d: string): seq<OutLine>
  {
    if b.enabled && (b.count >= BATCH_SIZE || TooLong(st, b.kind, b.path + "/" + d)) then FlushRows(b) else []
  }

  function Pushed(st: Style, b: Batch, d: string): Batch
  {
    if !b.enabled then b
    else if b.count >= BATCH_SIZE || TooLong(st, b.kind, b.path + "/" + d) then
      if TooLong(st, b.kind, "/" + d) then Flushed(b)
      else Flushed(b).(path := "/" + d, count := Flushed(b).count + 1)
    else b.(path := b.path + "/" + d, count := b.count + 1)
  }

  // ---------------------------------------------------------------- reading rows back

  /** The fields of a text between its slashes. */
  function Fields(s: string): (f: seq<string>)
    ensures f != []
  {
    if s == "" then [""]
    else
      var f, c := Fields(s[..|s| - 1]), s[|s| - 1];
      if c == '/' then f + [""] else f[..|f| - 1] + [f[|f| - 1] + [c]]
  }

  predicate SlashFree(s: string)
  {
    '/' !in s
  }

  lemma {:induction false} FieldsPlain(s: string, d: string)
    requires SlashFree(d)
    ensures Fields(s + d) == var f := Fields(s); f[..|f| - 1] + [f[|f| - 1] + d]
  {
    if d == "" {
      assert s + d == s;
      var f := Fields(s);
      assert f[|f| - 1] + d == f[|f| - 1];
    } else {
      var init, c := d[..|d| - 1], d[|d| - 1];
      assert s + d == (s + init) + [c] && (s + d)[..|s + d| - 1] == s + init;
      FieldsPlain(s, init);
      var f := Fields(s);
      assert f[|f| - 1] + d == f[|f| - 1] + init + [c];
    }
  }

  lemma FieldsSlash(s: string, d: string)
    requires SlashFree(d)
    ensures Fields(s + "/" + d) == Fields(s) + [d]
  {
    var t := s + "/";
    assert t[..|t| - 1] == s && t[|t| - 1] == '/';
    FieldsPlain(t, d);
    assert "" + d == d;
  }

  lemma FieldsWord(d: string)
    requires SlashFree(d)
    ensures Fields(d) == [d]
  {
    FieldsPlain("", d);
    assert "" + d == d;
  }

  /** Domains of a batch path: all its fields after the first slash. */
  function PathDomains(path: string): seq<string>
  {
    Fields(path)[1..]
  }

  /** Domains a reader finds in a directive: the fields between prefix and target. */
  function RowDomains(text: string): seq<string>
  {
    var f := Fields(text);
    if |f| < 2 then [] else f[1..|f| - 1]
  }

  lemma {:induction false} FieldsPrefix(p: string, path: string)
    requires SlashFree(p) && Fields(path)[0] == ""
    ensures Fields(p + path) == [p] + Fields(path)[1..]
    decreases |path|
  {
    if path == "" {
      assert p + path == p;
      FieldsWord(p);
    } else {
      var init, c := path[..|path| - 1], path[|path| - 1];
      assert (p + path)[..|p + path| - 1] == p + init;
      FieldsPrefix(p, init);
    }
  }

  predicate PlainTarget(k: Kind)
  {
    match k
    case SetRow(l) => SlashFree(l)
    case RebindRow(_) => true
    case ServerRow(_, _, addr) => SlashFree(addr)
  }

  /** Reading a row's text gives the domains of the path it was made from. */
  lemma RowReadsPath(st: Style, k: Kind, path: string)
    requires PlainTarget(k) && Fields(path)[0] == ""
    ensures RowDomains(Text(st, k, path)) == PathDomains(path)
  {
    hide Fields;
    FieldsPrefix(Prefix(st, k), path);
    FieldsSlash(Prefix(st, k) + path, Target(st, k));
    assert Text(st, k, path) == Prefix(st, k) + path + "/" + Target(st, k);
  }
}
