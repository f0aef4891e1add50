/** DNS messages on the wire (sections 4.1 of RFC 1035, 6.1.2 of RFC 6891 and 6 of
    RFC 7871): how names and records are laid out, and what the probe server reads. */
module DnsWire {
  import opened Common

  type Byte = x: nat | x < 256

  function U16At(p: seq<Byte>, o: nat): (v: nat)
    requires o + 1 < |p|
    ensures v < U16
  {
    256 * (p[o] as nat) + p[o + 1]
  }

  function Be16(v: nat): seq<Byte>
    requires v < U16
  {
    [v / 256, v % 256]
  }

  // ---------------------------------------------------------------- names

  predicate ValidLabels(ls: seq<seq<Byte>>)
  {
    forall i :: 0 <= i < |ls| ==> 1 <= |ls[i]| <= 63
  }

  /** The labels of a name, each behind its length. */
  function Body(ls: seq<seq<Byte>>): seq<Byte>
    requires ValidLabels(ls)
  {
    if ls == [] then [] else [|ls[0]|] + ls[0] + Body(ls[1..])
  }

  /** A question name: its labels and the position after its end. A length with either of
      its two high bits set is 64 or more. */
  datatype Name = Name(labels: seq<seq<Byte>>, end: nat)

  function ReadLabels(p: seq<Byte>, pos: nat): (r: Option<Name>)
    ensures r.Some? ==> pos < r.value.end <= |p| && ValidLabels(r.value.labels)
    decreases |p| - pos
  {
    if pos >= |p| then None
    else if p[pos] == 0 then Some(Name([], pos + 1))
    else if p[pos] >= 64 || pos + 1 + p[pos] > |p| then None
    else
      match ReadLabels(p, pos + 1 + p[pos])
      case None => None
      case Some(rest) => Some(Name([p[pos + 1..pos + 1 + p[pos]]] + rest.labels, rest.end))
  }

  /** The bytes `w` stand in `p` at `pos`. */
  predicate At(p: seq<Byte>, pos: nat, w: seq<Byte>)
  {
    pos + |w| <= |p| && p[pos..pos + |w|] == w
  }

  lemma AtSplit(p: seq<Byte>, pos: nat, a: seq<Byte>, b: seq<Byte>)
    ensures At(p, pos, a + b) <==> At(p, pos, a) && At(p, pos + |a|, b)
  {
    if pos + |a| + |b| <= |p| {
      var w := p[pos..pos + |a + b|];
      assert w[..|a|] == p[pos..pos + |a|] && w[|a|..] == p[pos + |a|..pos + |a| + |b|];
      assert (a + b)[..|a|] == a && (a + b)[|a|..] == b;
      assert w == w[..|a|] + w[|a|..];
    }
  }

  lemma AtOne(p: seq<Byte>, pos: nat, c: Byte)
    ensures At(p, pos, [c]) <==> pos < |p| && p[pos] == c
  {
    if pos < |p| { assert p[pos..pos + 1] == [p[pos]]; }
  }

  lemma AtSlice(p: seq<Byte>, pos: nat, w: seq<Byte>)
    ensures At(p, pos, w) <==> pos + |w| <= |p| && p[pos..pos + |w|] == w
  {}

  /** A first label, the rest of the labels and what follows, in place. */
  lemma AtLabel(p: seq<Byte>, pos: nat, ls: seq<seq<Byte>>, tail: seq<Byte>)
    requires ValidLabels(ls) && ls != []
    ensures At(p, pos, Body(ls) + tail) <==>
            pos < |p| && p[pos] == |ls[0]| && At(p, pos + 1, ls[0]) && At(p, pos + 1 + |ls[0]|, Body(ls[1..]) + tail)
  {
    hide At;
    var l, rest := ls[0], Body(ls[1..]) + tail;
    assert Body(ls) + tail == [|l|] + (l + rest);
    AtSplit(p, pos, [|l|], l + rest);
    AtSplit(p, pos + 1, l, rest);
    AtOne(p, pos, |l|);
  }

  /** What was read is the encoding of the labels it returned. */
  lemma {:induction false} ReadLabelsSound(p: seq<Byte>, pos: nat)
    requires ReadLabels(p, pos).Some?
    ensures var n := ReadLabels(p, pos).value; At(p, pos, Body(n.labels) + [0]) && n.end == pos + |Body(n.labels)| + 1
    decreases |p| - pos
  {
    hide At;
    var n := ReadLabels(p, pos).value;
    if p[pos] == 0 {
      AtOne(p, pos, 0);
      assert [] + [0] == [0];
    } else {
      var mid := pos + 1 + p[pos];
      ReadLabelsSound(p, mid);
      assert n.labels[1..] == ReadLabels(p, mid).value.labels;
      AtSlice(p, pos + 1, n.labels[0]);
      AtLabel(p, pos, n.labels, [0]);
    }
  }

  /** Every encoding of valid labels is read back as those labels. */
  lemma {:induction false} ReadLabelsComplete(p: seq<Byte>, pos: nat, ls: seq<seq<Byte>>)
    requires ValidLabels(ls) && At(p, pos, Body(ls) + [0])
    ensures ReadLabels(p, pos) == Some(Name(ls, pos + |Body(ls)| + 1))
    decreases |ls|
  {
    hide At;
    if ls == [] {
      assert [] + [0] == [0];
      AtOne(p, pos, 0);
    } else {
      AtLabel(p, pos, ls, [0]);
      AtSlice(p, pos + 1, ls[0]);
      ReadLabelsComplete(p, pos + 1 + |ls[0]|, ls[1..]);
      assert [ls[0]] + ls[1..] == ls;
    }
  }

  /** Reading a name looks at nothing past its end. */
  lemma ReadLabelsLocal(p: seq<Byte>, q: seq<Byte>, pos: nat)
    requires ReadLabels(p, pos).Some?
    requires At(q, pos, p[pos..ReadLabels(p, pos).value.end])
    ensures ReadLabels(q, pos) == ReadLabels(p, pos)
  {
    hide At, Body;
    var n := ReadLabels(p, pos).value;
    ReadLabelsSound(p, pos);
    AtSlice(p, pos, Body(n.labels) + [0]);
    ReadLabelsComplete(q, pos, n.labels);
  }

  /** How a record's name ends: with the root or with a compression pointer. */
  datatype Ending = Root | Pointer(hi: Byte, lo: Byte)

  predicate ValidEnding(e: Ending)
  {
    e.Root? || e.hi >= 192
  }

  function EndingBytes(e: Ending): seq<Byte>
  {
    match e case Root => [0] case Pointer(hi, lo) => [hi, lo]
  }

  const MAX_JUMPS: nat := 128

  /** Position after a record's name, at most 128 labels long. */
  function NameEnd(p: seq<Byte>, cursor: nat, jumps: nat): (r: Option<nat>)
    requires jumps <= MAX_JUMPS
    ensures r.Some? ==> cursor < r.value <= |p|
    decreases |p| - cursor
  {
    if cursor >= |p| then None
    else if p[cursor] == 0 then Some(cursor + 1)
    else if p[cursor] >= 192 then if cursor + 1 >= |p| then None else Some(cursor + 2)
    else if p[cursor] >= 64 || jumps + 1 > MAX_JUMPS then None
    else NameEnd(p, cursor + 1 + p[cursor], jumps + 1)
  }

  lemma EndingAt(p: seq<Byte>, pos: nat, e: Ending)
    ensures At(p, pos, [] + EndingBytes(e)) <==>
            match e
            case Root => pos < |p| && p[pos] == 0
            case Pointer(hi, lo) => pos + 1 < |p| && p[pos] == hi && p[pos + 1] == lo
  {
    hide At;
    assert [] + EndingBytes(e) == EndingBytes(e);
    match e
    case Root => AtOne(p, pos, 0);
    case Pointer(hi, lo) =>
      assert [hi, lo] == [hi] + [lo];
      AtSplit(p, pos, [hi], [lo]);
      AtOne(p, pos, hi);
      AtOne(p, pos + 1, lo);
  }

  /** What was measured is at most 128 labels and a proper ending. */
  lemma {:induction false} NameEndSound(p: seq<Byte>, cursor: nat, jumps: nat) returns (ls: seq<seq<Byte>>, e: Ending)
    requires jumps <= MAX_JUMPS && NameEnd(p, cursor, jumps).Some?
    ensures ValidLabels(ls) && jumps + |ls| <= MAX_JUMPS && ValidEnding(e)
    ensures At(p, cursor, Body(ls) + EndingBytes(e))
    ensures NameEnd(p, cursor, jumps).value == cursor + |Body(ls)| + |EndingBytes(e)|
    decreases |p| - cursor
  {
    hide At;
    if p[cursor] == 0 {
      ls, e := [], Root;
      EndingAt(p, cursor, e);
    } else if p[cursor] >= 192 {
      ls, e := [], Pointer(p[cursor], p[cursor + 1]);
      EndingAt(p, cursor, e);
    } else {
      var mid := cursor + 1 + p[cursor];
      var rest;
      rest, e := NameEndSound(p, mid, jumps + 1);
      ls := [p[cursor + 1..mid]] + rest;
      assert ls[1..] == rest;
      AtSlice(p, cursor + 1, ls[0]);
      AtLabel(p, cursor, ls, EndingBytes(e));
    }
  }

  /** Every name of at most 128 labels with a proper ending is measured exactly. */
  lemma {:induction false} NameEndComplete(p: seq<Byte>, cursor: nat, jumps: nat, ls: seq<seq<Byte>>, e: Ending)
    requires ValidLabels(ls) && jumps + |ls| <= MAX_JUMPS && ValidEnding(e)
    requires At(p, cursor, Body(ls) + EndingBytes(e))
    ensures NameEnd(p, cursor, jumps) == Some(cursor + |Body(ls)| + |EndingBytes(e)|)
    decreases |ls|
  {
    hide At;
    if ls == [] {
      EndingAt(p, cursor, e);
    } else {
      AtLabel(p, cursor, ls, EndingBytes(e));
      NameEndComplete(p, cursor + 1 + |ls[0]|, jumps + 1, ls[1..], e);
    }
  }

  // ---------------------------------------------------------------- records

  /** Position after one resource record. */
  function RecordEnd(p: seq<Byte>, pos: nat): (r: Option<nat>)
    ensures r.Some? ==> pos + 11 <= r.value <= |p|
  {
    match NameEnd(p, pos, 0)
    case None => None
    case Some(q) =>
      if q + 10 > |p| then None
      else if q + 10 + U16At(p, q + 8) > |p| then None
      else Some(q + 10 + U16At(p, q + 8))
  }

  function RecordsEnd(p: seq<Byte>, pos: nat, n: nat): (r: Option<nat>)
    ensures r.Some? ==> pos + 11 * n <= r.value
    ensures r.Some? && pos <= |p| ==> r.value <= |p|
    decreases n
  {
    if n == 0 then Some(pos)
    else match RecordEnd(p, pos)
      case None => None
      case Some(q) => RecordsEnd(p, q, n - 1)
  }

  // ---------------------------------------------------------------- client subnet

  datatype Ecs = Ecs(v6: bool, prefix: nat, addr: seq<Byte>)

  function Padded(s: seq<Byte>, n: nat): (r: seq<Byte>)
    requires |s| <= n
    ensures |r| == n && s <= r
  {
    s + seq(n - |s|, _ => 0)
  }

  function EcsOf(data: seq<Byte>): Option<Ecs>
  {
    if |data| < 4 then None
    else if U16At(data, 0) == 1 && data[2] <= 32 && |data| - 4 <= 4 then Some(Ecs(false, data[2], Padded(data[4..], 4)))
    else if U16At(data, 0) == 2 && data[2] <= 128 && |data| - 4 <= 16
    then Some(Ecs(true, data[2], Padded(data[4..], 16)))
    else None
  }

  /** The first usable client subnet among the options in p[pos..end]. */
  function OptionsEcs(p: seq<Byte>, pos: nat, end: nat): Option<Ecs>
    requires end <= |p|
    decreases end - pos
  {
    if pos + 4 > end || pos + 4 + U16At(p, pos + 2) > end then None
    else
      var next := pos + 4 + U16At(p, pos + 2);
      var ecs := if U16At(p, pos) == 8 then EcsOf(p[pos + 4..next]) else None;
      if ecs.Some? then ecs else OptionsEcs(p, next, end)
  }

  /** What the additional section yields: None if malformed before a subnet is found. */
  function AdditionalEcs(p: seq<Byte>, pos: nat, n: nat): Option<Option<Ecs>>
    decreases n
  {
    if n == 0 then Some(None)
    else match NameEnd(p, pos, 0)
      case None => None
      case Some(q) =>
        if q + 10 > |p| || q + 10 + U16At(p, q + 8) > |p| then None
        else
          var next := q + 10 + U16At(p, q + 8);
          var ecs := if U16At(p, q) == 41 then OptionsEcs(p, q + 10, next) else None;
          if ecs.Some? then Some(ecs) else AdditionalEcs(p, next, n - 1)
  }

  // ---------------------------------------------------------------- questions

  datatype Question = Question(id: nat, flags: nat, name: seq<Byte>, wire: seq<Byte>, ecs: Option<Ecs>)

  /** Labels joined by dots; the root is a single dot. */
  function Dotted(ls: seq<seq<Byte>>): seq<Byte>
  {
    if Joined(ls) == [] then [46] else Joined(ls)
  }

  function Joined(ls: seq<seq<Byte>>): seq<Byte>
  {
    if ls == [] then [] else if |ls| == 1 then ls[0] else Joined(ls[..|ls| - 1]) + [46] + ls[|ls| - 1]
  }

  /** The query a packet holds. More answer and authority records than a 16-bit counter can
      reach are never accepted. */
  function Parse(p: seq<Byte>): Option<Question>
  {
    if |p| < 12 || U16At(p, 4) != 1 then None
    else match ReadLabels(p, 12)
      case None => None
      case Some(n) =>
        if n.end + 4 > |p| || U16At(p, 6) + U16At(p, 8) >= U16 then None
        else match RecordsEnd(p, n.end + 4, U16At(p, 6) + U16At(p, 8))
          case None => None
          case Some(q) =>
            match AdditionalEcs(p, q, U16At(p, 10))
            case None => None
            case Some(ecs) => Some(Question(U16At(p, 0), U16At(p, 2), Dotted(n.labels), p[12..n.end + 4], ecs))
  }
}
