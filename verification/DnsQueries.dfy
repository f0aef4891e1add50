/** Queries and responses written out byte by byte, apart from the parser and the builder
    (sections 4.1 of RFC 1035, 6.1.2 of RFC 6891 and 6 of RFC 7871), and what the probe
    server makes of them. */
module DnsQueries {
  import opened Common
  import opened DnsWire
  import opened DnsProbe

  // ---------------------------------------------------------------- writing a query

  /** Two bytes, high-order first. */
  function Two(v: nat): seq<Byte>
    requires v < U16
  {
    [v / 256, v % 256]
  }

  datatype EdnsOption = EdnsOption(code: nat, data: seq<Byte>)

  predicate ValidOption(o: EdnsOption) { o.code < U16 && |o.data| < U16 }

  function OptionBytes(o: EdnsOption): seq<Byte>
    requires ValidOption(o)
  {
    Two(o.code) + Two(|o.data|) + o.data
  }

  function OptionsBytes(os: seq<EdnsOption>): seq<Byte>
    requires forall o :: o in os ==> ValidOption(o)
  {
    if os == [] then [] else OptionBytes(os[0]) + OptionsBytes(os[1..])
  }

  /** A record: an OPT record with its options, or one of another type with its data. */
  datatype Rr =
    | Opt(labels: seq<seq<Byte>>, ending: Ending, fixed: seq<Byte>, options: seq<EdnsOption>)
    | Other(labels: seq<seq<Byte>>, ending: Ending, kind: nat, fixed: seq<Byte>, data: seq<Byte>)

  /** Class and TTL are the six fixed bytes; an OPT record has type 41. */
  predicate ValidRr(r: Rr)
  {
    && ValidLabels(r.labels) && |r.labels| <= 128 && ValidEnding(r.ending) && |r.fixed| == 6
    && match r
       case Opt(_, _, _, options) => (forall o :: o in options ==> ValidOption(o)) && |OptionsBytes(options)| < U16
       case Other(_, _, kind, _, data) => kind < U16 && kind != 41 && |data| < U16
  }

  function RrData(r: Rr): seq<Byte>
    requires ValidRr(r)
  {
    if r.Opt? then OptionsBytes(r.options) else r.data
  }

  function RrBytes(r: Rr): seq<Byte>
    requires ValidRr(r)
  {
    Body(r.labels) + EndingBytes(r.ending)
    + (Two(if r.Opt? then 41 else r.kind) + r.fixed + Two(|RrData(r)|) + RrData(r))
  }

  predicate ValidRrs(rs: seq<Rr>) { forall r :: r in rs ==> ValidRr(r) }

  function RrsBytes(rs: seq<Rr>): seq<Byte>
    requires ValidRrs(rs)
  {
    if rs == [] then [] else RrBytes(rs[0]) + RrsBytes(rs[1..])
  }

  /** A query: its header fields, question and three record sections. */
  datatype Query = Query(
    id: nat, flags: nat, labels: seq<seq<Byte>>, kind: nat, class_: nat,
    answers: seq<Rr>, authority: seq<Rr>, additional: seq<Rr>)

  predicate ValidQuery(q: Query)
  {
    && q.id < U16 && q.flags < U16 && ValidLabels(q.labels) && q.kind < U16 && q.class_ < U16
    && ValidRrs(q.answers) && ValidRrs(q.authority) && ValidRrs(q.additional)
    && |q.answers| + |q.authority| < U16 && |q.additional| < U16
  }

  function HeaderBytes(q: Query): (h: seq<Byte>)
    requires ValidQuery(q)
    ensures |h| == 12
  {
    Two(q.id) + Two(q.flags) + Two(1) + Two(|q.answers|) + Two(|q.authority|) + Two(|q.additional|)
  }

  function QuestionBytes(q: Query): seq<Byte>
    requires ValidQuery(q)
  {
    Body(q.labels) + [0] + Two(q.kind) + Two(q.class_)
  }

  function QueryBytes(q: Query): seq<Byte>
    requires ValidQuery(q)
  {
    HeaderBytes(q) + QuestionBytes(q) + (RrsBytes(q.answers + q.authority) + RrsBytes(q.additional))
  }

  // ---------------------------------------------------------------- the client subnet of a query

  /** Option code 8, family 1 or 2, prefix and address length within the family's bounds. */
  predicate IsSubnet(o: EdnsOption)
  {
    && o.code == 8 && |o.data| >= 4 && o.data[0] == 0
    && ((o.data[1] == 1 && o.data[2] <= 32 && |o.data| <= 8) || (o.data[1] == 2 && o.data[2] <= 128 && |o.data| <= 20))
  }

  /** Family, source prefix, and the address filled up with zero bytes. */
  function SubnetOf(o: EdnsOption): Ecs
    requires IsSubnet(o)
  {
    Ecs(o.data[1] == 2, o.data[2],
        seq(if o.data[1] == 2 then 16 else 4, j requires j >= 0 => if 4 + j < |o.data| then o.data[4 + j] else 0))
  }

  function FirstSubnet(os: seq<EdnsOption>): Option<Ecs>
  {
    if os == [] then None else if IsSubnet(os[0]) then Some(SubnetOf(os[0])) else FirstSubnet(os[1..])
  }

  /** The first subnet of the first OPT record that has one. */
  function QuerySubnet(rs: seq<Rr>): Option<Ecs>
  {
    if rs == [] then None
    else if rs[0].Opt? && FirstSubnet(rs[0].options).Some? then FirstSubnet(rs[0].options)
    else QuerySubnet(rs[1..])
  }

  lemma OptionRead(o: EdnsOption)
    requires ValidOption(o)
    ensures (if o.code == 8 then EcsOf(o.data) else None) == if IsSubnet(o) then Some(SubnetOf(o)) else None
  {
    if o.code == 8 && |o.data| >= 4 {
      assert U16At(o.data, 0) == 256 * o.data[0] as nat + o.data[1];
      if IsSubnet(o) {
        var n := if o.data[1] == 2 then 16 else 4;
        assert Padded(o.data[4..], n) == SubnetOf(o).addr;
      }
    }
  }

  // ---------------------------------------------------------------- reading it back

  lemma TwoReads(p: seq<Byte>, pos: nat, v: nat)
    requires v < U16 && At(p, pos, Two(v))
    ensures pos + 2 <= |p| && U16At(p, pos) == v
  {
    assert p[pos..pos + 2] == [p[pos], p[pos + 1]];
  }

  lemma OptionAt(p: seq<Byte>, pos: nat, o: EdnsOption, rest: seq<Byte>)
    requires ValidOption(o) && At(p, pos, OptionBytes(o) + rest)
    ensures pos + 4 + |o.data| <= |p| && U16At(p, pos) == o.code && U16At(p, pos + 2) == |o.data|
    ensures p[pos + 4..pos + 4 + |o.data|] == o.data && At(p, pos + 4 + |o.data|, rest)
  {
    hide At, Two;
    var a, b := Two(o.code), Two(|o.data|);
    TwoLength(o.code);
    TwoLength(|o.data|);
    assert OptionBytes(o) + rest == a + (b + (o.data + rest));
    AtSplit(p, pos, a, b + (o.data + rest));
    AtSplit(p, pos + 2, b, o.data + rest);
    AtSplit(p, pos + 4, o.data, rest);
    TwoReads(p, pos, o.code);
    TwoReads(p, pos + 2, |o.data|);
    AtSlice(p, pos + 4, o.data);
  }

  lemma TwoLength(v: nat)
    requires v < U16
    ensures |Two(v)| == 2
  {}

  lemma AtBounds(p: seq<Byte>, pos: nat, w: seq<Byte>)
    requires At(p, pos, w)
    ensures pos + |w| <= |p|
  {}

  /** Options are read in order up to the first usable subnet. */
  lemma {:induction false} OptionsRead(p: seq<Byte>, pos: nat, os: seq<EdnsOption>)
    requires (forall o :: o in os ==> ValidOption(o)) && At(p, pos, OptionsBytes(os))
    ensures pos + |OptionsBytes(os)| <= |p|
    ensures OptionsEcs(p, pos, pos + |OptionsBytes(os)|) == FirstSubnet(os)
    decreases |os|
  {
    hide At, EcsOf, IsSubnet, SubnetOf, OptionBytes, ValidOption;
    AtBounds(p, pos, OptionsBytes(os));
    if os != [] {
      var o, rest := os[0], os[1..];
      assert o in os;
      OptionAt(p, pos, o, OptionsBytes(rest));
      OptionLength(o);
      OptionRead(o);
      OptionsRead(p, pos + 4 + |o.data|, rest);
    }
  }

  lemma OptionLength(o: EdnsOption)
    requires ValidOption(o)
    ensures |OptionBytes(o)| == 4 + |o.data|
  {}

  /** Where the parts of a record stand. */
  lemma RrAt(p: seq<Byte>, pos: nat, r: Rr, rest: seq<Byte>) returns (q: nat)
    requires ValidRr(r) && At(p, pos, RrBytes(r) + rest)
    ensures NameEnd(p, pos, 0) == Some(q) && q + 10 + |RrData(r)| <= |p|
    ensures U16At(p, q) == (if r.Opt? then 41 else r.kind) && U16At(p, q + 8) == |RrData(r)|
    ensures At(p, q + 10, RrData(r)) && At(p, q + 10 + |RrData(r)|, rest)
    ensures q + 10 + |RrData(r)| == pos + |RrBytes(r)|
  {
    hide At, Two, NameEnd, RrData, Body, EndingBytes;
    var name, kind := Body(r.labels) + EndingBytes(r.ending), if r.Opt? then 41 else r.kind;
    var data := RrData(r);
    DataFits(r);
    TwoLength(kind);
    TwoLength(|data|);
    var tail := Two(kind) + (r.fixed + (Two(|data|) + (data + rest)));
    assert RrBytes(r) + rest == name + tail;
    AtSplit(p, pos, name, tail);
    NameEndComplete(p, pos, 0, r.labels, r.ending);
    q := pos + |name|;
    AtSplit(p, q, Two(kind), r.fixed + (Two(|data|) + (data + rest)));
    AtSplit(p, q + 2, r.fixed, Two(|data|) + (data + rest));
    AtSplit(p, q + 8, Two(|data|), data + rest);
    AtSplit(p, q + 10, data, rest);
    TwoReads(p, q, kind);
    TwoReads(p, q + 8, |data|);
    AtBounds(p, q + 10, data);
  }

  lemma DataFits(r: Rr)
    requires ValidRr(r)
    ensures |RrData(r)| < U16
  {}

  /** Records are skipped exactly. */
  lemma {:induction false} RrsSkipped(p: seq<Byte>, pos: nat, rs: seq<Rr>, rest: seq<Byte>)
    requires ValidRrs(rs) && At(p, pos, RrsBytes(rs) + rest)
    ensures RecordsEnd(p, pos, |rs|) == Some(pos + |RrsBytes(rs)|) && At(p, pos + |RrsBytes(rs)|, rest)
    decreases |rs|
  {
    hide At, NameEnd, RrBytes, RrData, ValidRr;
    if rs == [] {
      assert [] + rest == rest;
    } else {
      var r, more := rs[0], RrsBytes(rs[1..]);
      assert r in rs;
      assert RrsBytes(rs) + rest == RrBytes(r) + (more + rest);
      var q := RrAt(p, pos, r, more + rest);
      assert RecordEnd(p, pos) == Some(pos + |RrBytes(r)|);
      RrsSkipped(p, pos + |RrBytes(r)|, rs[1..], rest);
    }
  }

  /** The additional section yields the query's subnet. */
  lemma {:induction false} AdditionalRead(p: seq<Byte>, pos: nat, rs: seq<Rr>)
    requires ValidRrs(rs) && At(p, pos, RrsBytes(rs))
    ensures AdditionalEcs(p, pos, |rs|) == Some(QuerySubnet(rs))
    decreases |rs|
  {
    hide At, NameEnd, RrBytes, OptionsEcs, FirstSubnet;
    if rs != [] {
      var r, more := rs[0], RrsBytes(rs[1..]);
      assert r in rs;
      var q := RrAt(p, pos, r, more);
      if r.Opt? { OptionsRead(p, q + 10, r.options); }
      AdditionalRead(p, q + 10 + |RrData(r)|, rs[1..]);
    }
  }

  lemma HeaderReadsBack(q: Query, rest: seq<Byte>)
    requires ValidQuery(q)
    ensures var p := HeaderBytes(q) + rest;
            && U16At(p, 0) == q.id && U16At(p, 2) == q.flags && U16At(p, 4) == 1
            && U16At(p, 6) == |q.answers| && U16At(p, 8) == |q.authority| && U16At(p, 10) == |q.additional|
  {
    hide ValidRrs, ValidLabels;
    var h := HeaderBytes(q);
    assert forall i :: 0 <= i < 12 ==> (h + rest)[i] == h[i];
    assert h[0] == q.id / 256 && h[1] == q.id % 256 && h[2] == q.flags / 256 && h[3] == q.flags % 256;
    assert h[4] == 0 && h[5] == 1 && h[6] == |q.answers| / 256 && h[7] == |q.answers| % 256;
    assert h[8] == |q.authority| / 256 && h[9] == |q.authority| % 256;
    assert h[10] == |q.additional| / 256 && h[11] == |q.additional| % 256;
  }

  lemma AtTail(a: seq<Byte>, b: seq<Byte>)
    ensures At(a + b, |a|, b)
  {
    assert (a + b)[|a|..|a| + |b|] == b;
  }

  /** Every query written out is parsed back: its id and flags, its name, its question bytes,
      and as client subnet the first usable option of code 8 among its OPT records. Options
      of any other code, and records of any other type, contribute nothing. */
  lemma QueryReadsBack(q: Query)
    requires ValidQuery(q)
    ensures Parse(QueryBytes(q)) ==
            Some(Question(q.id, q.flags, Dotted(q.labels), QuestionBytes(q), QuerySubnet(q.additional)))
  {
    hide At, Dotted, ReadLabels, RecordsEnd, AdditionalEcs, QuerySubnet, Two, U16At, RrsBytes, HeaderBytes, Body,
      ValidRrs;
    BothValid(q.answers, q.authority);
    var p, records := QueryBytes(q), RrsBytes(q.answers + q.authority);
    var more, question := RrsBytes(q.additional), QuestionBytes(q);
    TwoLength(q.kind);
    TwoLength(q.class_);
    var name, type_ := Body(q.labels) + [0], Two(q.kind) + Two(q.class_);
    assert question == name + type_;
    assert p == HeaderBytes(q) + (question + (records + more));
    HeaderReadsBack(q, question + (records + more));
    AtTail(HeaderBytes(q), question + (records + more));
    AtSplit(p, 12, question, records + more);
    AtSplit(p, 12, name, type_);
    ReadLabelsComplete(p, 12, q.labels);
    AtSlice(p, 12, question);
    RrsSkipped(p, 12 + |question|, q.answers + q.authority, more);
    AdditionalRead(p, 12 + |question| + |records|, q.additional);
  }

  lemma BothValid(a: seq<Rr>, b: seq<Rr>)
    requires ValidRrs(a) && ValidRrs(b)
    ensures ValidRrs(a + b)
  {}

  // ---------------------------------------------------------------- the name as text

  /** The pieces of a text between its dots. */
  function Pieces(s: seq<Byte>): (r: seq<seq<Byte>>)
    ensures r != []
  {
    if s == [] then [[]]
    else
      var before, c := Pieces(s[..|s| - 1]), s[|s| - 1];
      if c == 46 then before + [[]] else before[..|before| - 1] + [before[|before| - 1] + [c]]
  }

  lemma PiecesStep(s: seq<Byte>, c: Byte)
    requires c != 46
    ensures Pieces(s + [c]) == var f := Pieces(s); f[..|f| - 1] + [f[|f| - 1] + [c]]
  {
    assert (s + [c])[..|s + [c]| - 1] == s;
  }

  lemma {:induction false} PiecesPlain(s: seq<Byte>, l: seq<Byte>)
    requires 46 !in l
    ensures Pieces(s + l) == var f := Pieces(s); f[..|f| - 1] + [f[|f| - 1] + l]
    decreases |l|
  {
    hide Pieces;
    var f := Pieces(s);
    if l == [] {
      assert s + l == s && f[|f| - 1] + l == f[|f| - 1];
      assert f == f[..|f| - 1] + [f[|f| - 1]];
    } else {
      var c, rest := l[0], l[1..];
      assert l == [c] + rest && s + l == (s + [c]) + rest;
      PiecesStep(s, c);
      PiecesPlain(s + [c], rest);
      assert f[|f| - 1] + [c] + rest == f[|f| - 1] + l;
    }
  }

  lemma {:induction false} JoinedPieces(ls: seq<seq<Byte>>)
    requires ls != [] && forall l :: l in ls ==> 46 !in l
    ensures Pieces(Joined(ls)) == ls
    decreases |ls|
  {
    var n := |ls| - 1;
    assert ls[n] in ls;
    if n == 0 {
      PiecesPlain([], ls[0]);
      assert [] + ls[0] == ls[0] && ls == [ls[0]];
    } else {
      var init := ls[..n];
      JoinedPieces(init);
      var dotted := Joined(init) + [46];
      assert dotted[..|dotted| - 1] == Joined(init) && Pieces(dotted) == init + [[]];
      PiecesPlain(dotted, ls[n]);
      assert [] + ls[n] == ls[n] && ls == init + [ls[n]];
    }
  }

  /** The reported name is the labels with dots between them; the root is a single dot. */
  lemma NameReadsBack(ls: seq<seq<Byte>>)
    requires ValidLabels(ls) && forall l :: l in ls ==> 46 !in l
    ensures if ls == [] then Dotted(ls) == [46] else Pieces(Dotted(ls)) == ls
  {
    if ls != [] {
      JoinedPieces(ls);
      assert Pieces([]) == [[]] && |ls[0]| >= 1;
    }
  }

  // ---------------------------------------------------------------- the response

  /** The response, byte by byte: the query's id, the response bit and the query's
      recursion-desired bit alone, one question and one answer, the question as it came, and
      an answer that points to the question's name, of type A and class IN, with a TTL of
      zero and the four address bytes. */
  lemma ResponseBytes(q: Question, addr: seq<Byte>)
    requires q.id < U16 && |addr| == 4
    ensures Response(q, addr) ==
            [q.id / 256, q.id % 256, 128 + q.flags / 256 % 2, 0, 0, 1, 0, 1, 0, 0, 0, 0] + q.wire
            + [192, 12, 0, 1, 0, 1, 0, 0, 0, 0, 0, 4] + addr
  {
    var f := ResponseFlags(q.flags);
    assert f / 256 == 128 + q.flags / 256 % 2 && f % 256 == 0;
    assert Header(q.id, q.flags) ==
           [q.id / 256, q.id % 256, 128 + q.flags / 256 % 2, 0, 0, 1, 0, 1, 0, 0, 0, 0];
    assert Answer(addr) == [192, 12, 0, 1, 0, 1, 0, 0, 0, 0, 0, 4] + addr;
    assert Response(q, addr) ==
           [q.id / 256, q.id % 256, 128 + q.flags / 256 % 2, 0, 0, 1, 0, 1, 0, 0, 0, 0] + q.wire
           + [192, 12, 0, 1, 0, 1, 0, 0, 0, 0, 0, 4] + addr;
  }
}
