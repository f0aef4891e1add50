/** What the configuration hash stands for: the hashed bytes determine the records, and
    the records determine every directive of the generated file. */
module DnsmasqHash {
  import opened Common
  import opened ConfigTags
  import opened DnsmasqRows
  import opened DnsmasqBatches
  import opened DnsmasqConfig
  import opened DnsmasqPass
  import opened DnsmasqText
  import opened DnsmasqMeaning
  import ListDomains
  import Rfc1321

  // ---------------------------------------------------------------- numbers

  /** The number a text of decimal digits stands for. */
  function ValueOf(s: string): int
  {
    if s == "" then 0 else 10 * ValueOf(s[..|s| - 1]) + (s[|s| - 1] as int - '0' as int)
  }

  /** Decimal text reads back as the number, and is free of separators. */
  lemma {:induction false} DecReadsBack(n: nat)
    ensures Dec(n) != "" && (forall c :: c in Dec(n) ==> '0' <= c <= '9') && ValueOf(Dec(n)) == n
  {
    if n < 10 {
      var c := ('0' as int + n) as char;
      assert Dec(n) == [c] && [c][..0] == "";
      assert ValueOf("") == 0;
    } else {
      DecReadsBack(n / 10);
      var c := ('0' as int + n % 10) as char;
      assert Dec(n) == Dec(n / 10) + [c];
      assert Dec(n)[..|Dec(n)| - 1] == Dec(n / 10);
    }
  }

  // ---------------------------------------------------------------- separators

  /** One-byte characters, none of them a newline. */
  predicate OneLine(s: string)
  {
    forall c :: c in s ==> c != '\n' && c as int < 256
  }

  /** A field: one line without the bar that separates fields. */
  predicate Word(s: string)
  {
    OneLine(s) && '|' !in s
  }

  /** The texts of a record that a reader could not tell from its separators are excluded:
      only the last field may hold bars. */
  predicate Tidy(r: Record)
  {
    match r
    case Version(v) => OneLine(v)
    case Ipv6(_) => true
    case Probe(s) => Word(s.ip)
    case Static(key) => OneLine(key)
    case Fallback(_, s) => Word(s.ip)
    case Route(l, d) => Word(l) && OneLine(d)
    case Rebind(l, d) => Word(l) && OneLine(d)
    case DomainServer(l, d, _, s) => Word(l) && Word(d) && Word(s.ip)
  }

  lemma FirstSeparator<T>(x: seq<T>, r: seq<T>, sep: T)
    requires sep !in x
    ensures var t := x + [sep] + r;
            t[|x|] == sep && t[..|x|] == x && t[|x| + 1..] == r && forall k :: 0 <= k < |x| ==> t[k] != sep
  {}

  lemma SplitsOnce<T>(x: seq<T>, r: seq<T>, y: seq<T>, q: seq<T>, sep: T)
    requires sep !in x && sep !in y && x + [sep] + r == y + [sep] + q
    ensures x == y && r == q
  {
    FirstSeparator(x, r, sep);
    FirstSeparator(y, q, sep);
    assert |x| == |y|;
  }

  lemma LastSeparator<T>(x: seq<T>, r: seq<T>, sep: T)
    requires sep !in r
    ensures var t := x + [sep] + r;
            t[|x|] == sep && t[..|x|] == x && t[|x| + 1..] == r && forall k :: |x| < k < |t| ==> t[k] != sep
  {}

  lemma SplitsLast<T>(x: seq<T>, r: seq<T>, y: seq<T>, q: seq<T>, sep: T)
    requires sep !in r && sep !in q && x + [sep] + r == y + [sep] + q
    ensures x == y && r == q
  {
    LastSeparator(x, r, sep);
    LastSeparator(y, q, sep);
    assert |x| == |y|;
  }

  lemma BarSplits(x: string, r: string, y: string, q: string)
    requires Word(x) && Word(y) && x + "|" + r == y + "|" + q
    ensures x == y && r == q
  {
    SplitsOnce(x, r, y, q, '|');
  }

  lemma DecIsWord(n: nat)
    ensures Word(Dec(n))
  {
    DecReadsBack(n);
  }

  lemma DecTells(m: nat, n: nat)
    requires Dec(m) == Dec(n)
    ensures m == n
  {
    DecReadsBack(m);
    DecReadsBack(n);
  }

  // ---------------------------------------------------------------- one record

  function Tag(r: Record): string
  {
    match r
    case Version(_) => "version"
    case Ipv6(_) => "ipv6-enabled"
    case Probe(_) => "probe-server"
    case Static(_) => "keenetic-static"
    case Fallback(_, _) => "fallback-server"
    case Route(_, _) => "domain-route"
    case Rebind(_, _) => "domain-rebind"
    case DomainServer(_, _, _, _) => "domain-server"
  }

  function ServerText(s: Server): string { s.ip + "|" + Dec(s.port) }

  function Rest(r: Record): string
  {
    match r
    case Version(v) => v
    case Ipv6(on) => if on then "1" else "0"
    case Probe(s) => ServerText(s)
    case Static(key) => key
    case Fallback(i, s) => Dec(i) + "|" + ServerText(s)
    case Route(l, d) => l + "|" + d
    case Rebind(l, d) => l + "|" + d
    case DomainServer(l, d, i, s) => l + "|" + (d + "|" + (Dec(i) + "|" + ServerText(s)))
  }

  lemma TagIsWord(r: Record)
    ensures Word(Tag(r))
  {
    assert forall c :: c in Tag(r) ==> 'a' <= c <= 'z' || c == '-' || c == '6';
  }

  lemma Barred(head: string, tag: string, mid: string, rest: string)
    requires head == tag + "|"
    ensures head + mid + "|" + rest == tag + "|" + (mid + "|" + rest)
  {}

  lemma TextIsTagged(r: Record)
    ensures RecordText(r) == Tag(r) + "|" + Rest(r) && Word(Tag(r))
  {
    hide Dec, Word;
    TagIsWord(r);
    match r
    case Version(v) => assert "version|" == "version" + "|";
    case Ipv6(on) => assert "ipv6-enabled|" == "ipv6-enabled" + "|";
    case Static(key) => assert "keenetic-static|" == "keenetic-static" + "|";
    case Probe(s) => Barred("probe-server|", "probe-server", s.ip, Dec(s.port));
    case Route(l, d) => Barred("domain-route|", "domain-route", l, d);
    case Rebind(l, d) => Barred("domain-rebind|", "domain-rebind", l, d);
    case Fallback(i, s) => FallbackText(i, s);
    case DomainServer(l, d, i, s) => DomainServerText(l, d, i, s);
  }

  lemma FallbackText(i: nat, s: Server)
    ensures RecordText(Fallback(i, s)) == "fallback-server" + "|" + Rest(Fallback(i, s))
  {
    hide Dec;
    var n, rest := Dec(i), ServerText(s);
    assert RecordText(Fallback(i, s)) == "fallback-server|" + n + "|" + rest;
    Barred("fallback-server|", "fallback-server", n, rest);
  }

  lemma DomainServerText(l: string, d: string, i: nat, s: Server)
    ensures RecordText(DomainServer(l, d, i, s)) == "domain-server" + "|" + Rest(DomainServer(l, d, i, s))
  {
    hide Dec;
    var n := Dec(i) + "|" + ServerText(s);
    assert RecordText(DomainServer(l, d, i, s)) == "domain-server|" + l + "|" + (d + "|" + n);
    Barred("domain-server|", "domain-server", l, d + "|" + n);
  }

  lemma ServerTextTells(s: Server, t: Server)
    requires Word(s.ip) && Word(t.ip) && ServerText(s) == ServerText(t)
    ensures s == t
  {
    BarSplits(s.ip, Dec(s.port), t.ip, Dec(t.port));
    DecTells(s.port, t.port);
  }

  lemma TagTells(r: Record, q: Record)
    requires Tag(r) == Tag(q)
    ensures r.Version? == q.Version? && r.Ipv6? == q.Ipv6? && r.Probe? == q.Probe? && r.Static? == q.Static?
    ensures r.Fallback? == q.Fallback? && r.Route? == q.Route? && r.Rebind? == q.Rebind?
    ensures r.DomainServer? == q.DomainServer?
  {
    var t := Tag(r);
    assert |t| == 12 ==> t[0] in {'i', 'p', 'd'};
    assert |t| == 13 ==> t[7] in {'r', 's'};
    assert |t| == 15 ==> t[0] in {'k', 'f'};
  }

  /** Two different records never have the same text. */
  lemma RecordTextTells(r: Record, q: Record)
    requires Tidy(r) && Tidy(q) && RecordText(r) == RecordText(q)
    ensures r == q
  {
    hide RecordText, Tag, Dec, ServerText, Word;
    TextIsTagged(r);
    TextIsTagged(q);
    BarSplits(Tag(r), Rest(r), Tag(q), Rest(q));
    TagTells(r, q);
    match r
    case Version(v) =>
    case Ipv6(on) => assert "1"[0] != "0"[0];
    case Probe(s) => ServerTextTells(s, q.at);
    case Static(key) =>
    case Fallback(i, s) =>
      DecIsWord(i);
      DecIsWord(q.index);
      BarSplits(Dec(i), ServerText(s), Dec(q.index), ServerText(q.server));
      DecTells(i, q.index);
      ServerTextTells(s, q.server);
    case Route(l, d) => BarSplits(l, d, q.list, q.domain);
    case Rebind(l, d) => BarSplits(l, d, q.list, q.domain);
    case DomainServer(l, d, i, s) =>
      var tail, tail2 := Dec(i) + "|" + ServerText(s), Dec(q.index) + "|" + ServerText(q.server);
      BarSplits(l, d + "|" + tail, q.list, q.domain + "|" + tail2);
      BarSplits(d, tail, q.domain, tail2);
      DecIsWord(i);
      DecIsWord(q.index);
      BarSplits(Dec(i), ServerText(s), Dec(q.index), ServerText(q.server));
      DecTells(i, q.index);
      ServerTextTells(s, q.server);
  }

  // ---------------------------------------------------------------- all records

  lemma JoinedIsOneLine(s: string, t: string)
    requires OneLine(s) && OneLine(t)
    ensures OneLine(s + "|" + t)
  {}

  lemma ServerIsOneLine(s: Server)
    requires OneLine(s.ip)
    ensures OneLine(ServerText(s))
  {
    hide OneLine, Dec;
    DecIsWord(s.port);
    JoinedIsOneLine(s.ip, Dec(s.port));
  }

  lemma RecordIsOneLine(r: Record)
    requires Tidy(r)
    ensures OneLine(RecordText(r))
  {
    hide RecordText, Dec, OneLine, ServerText, Tag;
    TextIsTagged(r);
    match r {
      case Ipv6(on) => BitIsOneLine(on);
      case Probe(s) => ServerIsOneLine(s);
      case Fallback(i, s) => IndexedIsOneLine(i, s);
      case Route(l, d) => JoinedIsOneLine(l, d);
      case Rebind(l, d) => JoinedIsOneLine(l, d);
      case DomainServer(l, d, i, s) =>
        IndexedIsOneLine(i, s);
        JoinedIsOneLine(d, Dec(i) + "|" + ServerText(s));
        JoinedIsOneLine(l, d + "|" + (Dec(i) + "|" + ServerText(s)));
      case _ =>
    }
    JoinedIsOneLine(Tag(r), Rest(r));
  }

  lemma BitIsOneLine(on: bool)
    ensures OneLine(if on then "1" else "0")
  {}

  lemma IndexedIsOneLine(i: nat, s: Server)
    requires OneLine(s.ip)
    ensures OneLine(Dec(i) + "|" + ServerText(s))
  {
    hide OneLine, Dec, ServerText;
    DecIsWord(i);
    ServerIsOneLine(s);
    JoinedIsOneLine(Dec(i), ServerText(s));
  }

  lemma ByteOf(s: string, i: nat)
    requires OneLine(s) && i < |s|
    ensures |TextBytes(s)| == |s| && TextBytes(s)[i] as int == s[i] as int && TextBytes(s)[i] != 10
  {
    assert s[i] in s;
  }

  lemma BytesTell(s: string, t: string)
    requires OneLine(s) && OneLine(t) && TextBytes(s) == TextBytes(t)
    ensures s == t
  {
    assert |s| == |TextBytes(s)| == |TextBytes(t)| == |t|;
    hide TextBytes, OneLine;
    forall i | 0 <= i < |s| ensures s[i] == t[i] {
      ByteOf(s, i);
      ByteOf(t, i);
    }
  }

  lemma NoNewlineByte(s: string)
    requires OneLine(s)
    ensures 10 !in TextBytes(s)
  {
    assert |TextBytes(s)| == |s|;
    hide TextBytes, OneLine;
    forall i | 0 <= i < |s| ensures TextBytes(s)[i] != 10 { ByteOf(s, i); }
  }

  lemma PayloadEmpty(rs: seq<Record>)
    ensures Payload(rs) == [] <==> rs == []
  {
    hide RecordText, TextBytes;
    if rs != [] { assert Payload(rs)[|TextBytes(RecordText(rs[0]))|] == 10; }
  }

  /** The hashed bytes determine the sequence of records. */
  lemma {:induction false} PayloadTells(rs: seq<Record>, qs: seq<Record>)
    requires (forall r :: r in rs ==> Tidy(r)) && (forall q :: q in qs ==> Tidy(q))
    requires Payload(rs) == Payload(qs)
    ensures rs == qs
  {
    hide RecordText, TextBytes, Tidy;
    PayloadEmpty(rs);
    PayloadEmpty(qs);
    if rs != [] {
      var r, q := rs[0], qs[0];
      var x, y := TextBytes(RecordText(r)), TextBytes(RecordText(q));
      RecordIsOneLine(r);
      RecordIsOneLine(q);
      NoNewlineByte(RecordText(r));
      NoNewlineByte(RecordText(q));
      SplitsOnce(x, Payload(rs[1..]), y, Payload(qs[1..]), 10);
      BytesTell(RecordText(r), RecordText(q));
      RecordTextTells(r, q);
      PayloadTells(rs[1..], qs[1..]);
      assert rs == [r] + rs[1..] && qs == [q] + qs[1..];
    }
  }
}
