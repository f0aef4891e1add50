/** The DNS test server's query parser and response builder, step by step, and the round
    trip between them. */
module DnsProbe {
  import opened Common
  import opened DnsWire

  // ---------------------------------------------------------------- parser

  method ReadNameLength(p: seq<Byte>, pos: nat) returns (r: Option<nat>)
    ensures r.None? <==> NameEnd(p, pos, 0).None?
    ensures r.Some? ==> NameEnd(p, pos, 0) == Some(pos + r.value)
  {
    var cursor, jumps := pos, 0;
    while true
      invariant pos <= cursor && jumps <= MAX_JUMPS && NameEnd(p, pos, 0) == NameEnd(p, cursor, jumps)
      decreases |p| - cursor
    {
      if cursor >= |p| { return None; }
      var len := p[cursor];
      if len == 0 { return Some(cursor - pos + 1); }
      if len >= 192 {
        if cursor + 1 >= |p| { return None; }
        return Some(cursor - pos + 2);
      }
      if len >= 64 { return None; }
      if jumps + 1 > MAX_JUMPS { return None; }
      cursor := cursor + 1 + len;
      jumps := jumps + 1;
    }
  }

  method CopyPadded(data: seq<Byte>, n: nat) returns (addr: seq<Byte>)
    requires 4 <= |data| <= 4 + n
    ensures addr == Padded(data[4..], n)
  {
    var a := new Byte[n](_ => 0);
    var i := 0;
    while i < |data| - 4
      invariant 0 <= i <= |data| - 4
      invariant forall j :: 0 <= j < i ==> a[j] == data[4 + j]
      invariant forall j :: i <= j < n ==> a[j] == 0
    {
      a[i] := data[4 + i];
      i := i + 1;
    }
    addr := a[..];
  }

  method ParseEcsOption(data: seq<Byte>) returns (r: Option<Ecs>)
    ensures r == EcsOf(data)
  {
    if |data| < 4 { return None; }
    var family, prefix := U16At(data, 0), data[2];
    if family == 1 {
      if prefix > 32 || |data| - 4 > 4 { return None; }
      var addr := CopyPadded(data, 4);
      return Some(Ecs(false, prefix, addr));
    }
    if family == 2 {
      if prefix > 128 || |data| - 4 > 16 { return None; }
      var addr := CopyPadded(data, 16);
      return Some(Ecs(true, prefix, addr));
    }
    return None;
  }

  method ParseOptions(p: seq<Byte>, start: nat, end: nat) returns (r: Option<Ecs>)
    requires end <= |p|
    ensures r == OptionsEcs(p, start, end)
  {
    hide EcsOf;
    var pos := start;
    while pos + 4 <= end
      invariant OptionsEcs(p, start, end) == OptionsEcs(p, pos, end)
      decreases end - pos
    {
      var code, len := U16At(p, pos), U16At(p, pos + 2);
      if pos + 4 + len > end { break; }
      if code == 8 {
        var ecs := ParseEcsOption(p[pos + 4..pos + 4 + len]);
        if ecs.Some? { return ecs; }
      }
      pos := pos + 4 + len;
    }
    return None;
  }

  method ParseEdnsClientSubnet(p: seq<Byte>, start: nat, arcount: nat) returns (r: Option<Option<Ecs>>)
    ensures r == AdditionalEcs(p, start, arcount)
  {
    hide OptionsEcs, NameEnd;
    var pos: nat, i: nat := start, 0;
    while i < arcount
      invariant 0 <= i <= arcount && AdditionalEcs(p, start, arcount) == AdditionalEcs(p, pos, arcount - i)
    {
      var nameLen := ReadNameLength(p, pos);
      if nameLen.None? { return None; }
      pos := pos + nameLen.value;
      if pos + 10 > |p| { return None; }
      var kind, rdlen := U16At(p, pos), U16At(p, pos + 8);
      pos := pos + 10;
      if pos + rdlen > |p| { return None; }
      if kind == 41 {
        var ecs := ParseOptions(p, pos, pos + rdlen);
        if ecs.Some? { return Some(ecs); }
      }
      pos := pos + rdlen;
      i := i + 1;
    }
    return Some(None);
  }

  method NormalizeDnsName(ls: seq<seq<Byte>>) returns (name: seq<Byte>)
    ensures name == Dotted(ls)
  {
    name := [];
    var i := 0;
    while i < |ls|
      invariant 0 <= i <= |ls| && name == Joined(ls[..i])
    {
      assert ls[..i + 1][..i] == ls[..i];
      if i > 0 { name := name + [46]; }
      name := name + ls[i];
      i := i + 1;
    }
    assert ls[..i] == ls;
    if name == [] { name := [46]; }
  }

  /** The name read so far and what is still to be read from `pos`. */
  function Resumed(p: seq<Byte>, pos: nat, labels: seq<seq<Byte>>): Option<Name>
  {
    match ReadLabels(p, pos)
    case None => None
    case Some(n) => Some(Name(labels + n.labels, n.end))
  }

  lemma ResumedStart(p: seq<Byte>, pos: nat)
    ensures Resumed(p, pos, []) == ReadLabels(p, pos)
  {
    hide ReadLabels;
    if ReadLabels(p, pos).Some? {
      assert [] + ReadLabels(p, pos).value.labels == ReadLabels(p, pos).value.labels;
    }
  }

  lemma ResumedStops(p: seq<Byte>, pos: nat, labels: seq<seq<Byte>>)
    ensures pos >= |p| ==> Resumed(p, pos, labels) == None
    ensures pos < |p| && p[pos] == 0 ==> Resumed(p, pos, labels) == Some(Name(labels, pos + 1))
    ensures pos < |p| && (p[pos] >= 64 || pos + 1 + p[pos] > |p|) ==> Resumed(p, pos, labels) == None
  {
    assert labels + [] == labels;
  }

  lemma ResumedStep(p: seq<Byte>, pos: nat, labels: seq<seq<Byte>>)
    requires pos < |p| && 0 < p[pos] < 64 && pos + 1 + p[pos] <= |p|
    ensures Resumed(p, pos, labels) == Resumed(p, pos + 1 + p[pos], labels + [p[pos + 1..pos + 1 + p[pos]]])
  {
    var l := p[pos + 1..pos + 1 + p[pos]];
    var rest := ReadLabels(p, pos + 1 + p[pos]);
    if rest.Some? {
      assert labels + ([l] + rest.value.labels) == labels + [l] + rest.value.labels;
    }
  }

  /** The question's labels, the bytes they take and where they end. */
  method ParseName(p: seq<Byte>) returns (r: Option<Name>, wire: seq<Byte>)
    requires 12 <= |p|
    ensures r == ReadLabels(p, 12)
    ensures r.Some? ==> wire == p[12..r.value.end]
  {
    hide ReadLabels, Resumed;
    var labels: seq<seq<Byte>>, pos := [], 12;
    wire := [];
    ResumedStart(p, 12);
    while true
      invariant 12 <= pos <= |p| && wire == p[12..pos]
      invariant ReadLabels(p, 12) == Resumed(p, pos, labels)
      decreases |p| - pos
    {
      ResumedStops(p, pos, labels);
      if pos >= |p| { return None, wire; }
      var len := p[pos];
      pos := pos + 1;
      wire := wire + [len];
      if len == 0 {
        return Some(Name(labels, pos)), wire;
      }
      if len >= 64 { return None, wire; }
      if pos + len > |p| { return None, wire; }
      ResumedStep(p, pos - 1, labels);
      labels := labels + [p[pos..pos + len]];
      wire := wire + p[pos..pos + len];
      pos := pos + len;
    }
  }

  /** Skips the answer and authority records. The counter is 16 bits wide and wraps; every
      round takes at least 11 bytes, so the loop ends, with an error when the records run out. */
  method SkipRecords(p: seq<Byte>, start: nat, total: nat) returns (r: Option<nat>)
    requires start <= |p|
    ensures r == if total >= U16 then None else RecordsEnd(p, start, total)
  {
    hide NameEnd;
    var pos: nat, i: nat := start, 0;
    while i < total
      invariant 0 <= i < U16 && pos <= |p|
      invariant total < U16 ==> i <= total && RecordsEnd(p, start, total) == RecordsEnd(p, pos, total - i)
      decreases |p| - pos
    {
      ghost var before := pos;
      var nameLen := ReadNameLength(p, pos);
      if nameLen.None? { return None; }
      pos := pos + nameLen.value;
      if pos + 10 > |p| { return None; }
      var rdlen := U16At(p, pos + 8);
      pos := pos + 10;
      if pos + rdlen > |p| { return None; }
      pos := pos + rdlen;
      assert RecordEnd(p, before) == Some(pos);
      i := (i + 1) % U16;
    }
    return Some(pos);
  }

  /** Every byte string is parsed or refused, with every read in bounds. */
  method ParseQuery(p: seq<Byte>) returns (r: Option<Question>)
    ensures r == Parse(p)
  {
    hide ReadLabels, RecordsEnd, AdditionalEcs, Dotted;
    if |p| < 12 { return None; }
    if U16At(p, 4) != 1 { return None; }
    var ancount, nscount, arcount := U16At(p, 6), U16At(p, 8), U16At(p, 10);
    var name, wire := ParseName(p);
    if name.None? { return None; }
    var pos := name.value.end;
    if pos + 4 > |p| { return None; }
    wire := wire + p[pos..pos + 4];
    assert wire == p[12..pos + 4];
    var text := NormalizeDnsName(name.value.labels);
    pos := pos + 4;
    var after := SkipRecords(p, pos, ancount + nscount);
    if after.None? { return None; }
    var ecs := ParseEdnsClientSubnet(p, after.value, arcount);
    if ecs.None? { return None; }
    return Some(Question(U16At(p, 0), U16At(p, 2), text, wire, ecs.value));
  }

  /** The wrapping counter refuses nothing that fits: so many records need 720896 bytes. */
  lemma CounterRefusesNothingShort(p: seq<Byte>, pos: nat, total: nat)
    requires |p| < 11 * U16 && pos <= |p| && total >= U16
    ensures RecordsEnd(p, pos, total).None?
  {}

  // ---------------------------------------------------------------- response

  /** The response bit and the query's recursion-desired bit, nothing else. */
  function ResponseFlags(flags: nat): (f: nat)
    ensures f < U16
  {
    0x8000 + flags / 256 % 2 * 256
  }

  function Header(id: nat, flags: nat): seq<Byte>
    requires id < U16
  {
    Be16(id) + Be16(ResponseFlags(flags)) + Be16(1) + Be16(1) + Be16(0) + Be16(0)
  }

  function Answer(addr: seq<Byte>): seq<Byte>
  {
    Be16(0xC00C) + Be16(1) + Be16(1) + [0, 0, 0, 0] + Be16(4) + addr
  }

  function Response(q: Question, addr: seq<Byte>): seq<Byte>
    requires q.id < U16
  {
    Header(q.id, q.flags) + q.wire + Answer(addr)
  }

  method BuildResponse(q: Question, addr: seq<Byte>) returns (out: seq<Byte>)
    requires q.id < U16 && |addr| == 4
    ensures out == Response(q, addr)
  {
    hide Be16, ResponseFlags;
    out := [];
    out := out + Be16(q.id);
    out := out + Be16(ResponseFlags(q.flags));
    out := out + Be16(1);
    out := out + Be16(1);
    out := out + Be16(0);
    out := out + Be16(0);
    assert out == Header(q.id, q.flags);
    out := out + q.wire;
    ghost var head := out;
    out := out + Be16(0xC00C);
    out := out + Be16(1);
    out := out + Be16(1);
    out := out + [0, 0, 0, 0];
    out := out + Be16(4);
    out := out + addr;
    assert out == head + Answer(addr);
  }

  lemma HeaderReads(q: Question, addr: seq<Byte>)
    requires q.id < U16
    ensures var r := Response(q, addr);
            && |r| >= 12 && |Header(q.id, q.flags)| == 12
            && U16At(r, 0) == q.id && U16At(r, 2) == ResponseFlags(q.flags)
            && U16At(r, 4) == 1 && U16At(r, 6) == 1 && U16At(r, 8) == 0 && U16At(r, 10) == 0
  {
    var h := Header(q.id, q.flags);
    assert |h| == 12;
    assert forall i :: 0 <= i < 12 ==> Response(q, addr)[i] == h[i];
  }

  lemma AnswerIs(r: seq<Byte>, pos: nat, addr: seq<Byte>)
    requires |addr| == 4 && pos + 16 == |r| && r[pos..] == Answer(addr)
    ensures RecordsEnd(r, pos, 1) == Some(|r|)
  {
    var a := Answer(addr);
    assert a[0] == 192 && a[1] == 12 && a[10] == 0 && a[11] == 4;
    assert r[pos] == r[pos..][0] && r[pos + 10] == r[pos..][10] && r[pos + 11] == r[pos..][11];
    assert NameEnd(r, pos, 0) == Some(pos + 2);
    assert U16At(r, pos + 10) == 4;
    assert RecordEnd(r, pos) == Some(|r|);
    assert RecordsEnd(r, |r|, 0) == Some(|r|);
  }

  lemma SliceOfSlice(p: seq<Byte>, a: nat, b: nat, c: nat)
    requires a <= b <= c <= |p|
    ensures var s := p[a..c]; s[..b - a] == p[a..b] && s == s[..b - a] + s[b - a..]
  {}

  /** A query that parses gets a response that parses back to the same id, name and question
      bytes, with the response flags and no client subnet, at most 16 bytes longer. */
  lemma ResponseParsesBack(p: seq<Byte>, addr: seq<Byte>)
    requires Parse(p).Some? && |addr| == 4
    ensures var q := Parse(p).value;
            && q.id < U16
            && Parse(Response(q, addr)) == Some(Question(q.id, ResponseFlags(q.flags), q.name, q.wire, None))
            && |Response(q, addr)| == |q.wire| + 28 <= |p| + 16
  {
    hide Dotted, ResponseFlags, Header, NameEnd, RecordEnd, At;
    var q := Parse(p).value;
    var n := ReadLabels(p, 12).value;
    var r, e := Response(q, addr), n.end;
    HeaderReads(q, addr);
    AnswerLength(addr);
    assert q.wire == p[12..e + 4];
    SliceOfSlice(p, 12, e, e + 4);
    assert r == Header(q.id, q.flags) + (q.wire + Answer(addr));
    assert r[12..e + 4] == q.wire;
    assert r[12..e] == p[12..e];
    AtSlice(r, 12, p[12..e]);
    ReadLabelsLocal(p, r, 12);
    assert r[e + 4..] == Answer(addr);
    AnswerIs(r, e + 4, addr);
  }

  lemma AnswerLength(addr: seq<Byte>)
    ensures |Answer(addr)| == 12 + |addr|
  {}

  /** Over TCP the 16-bit frame length is exact, the packet being bounded by the buffer. */
  lemma FrameLengthExact(p: seq<Byte>, addr: seq<Byte>)
    requires Parse(p).Some? && |addr| == 4 && |p| + 2 <= 16384
    ensures Parse(p).value.id < U16 && |Response(Parse(p).value, addr)| < U16
  {
    hide Parse, Response;
    ResponseParsesBack(p, addr);
  }
}
