/** Reassembly of one length-prefixed DNS message per TCP connection (section 4.2.2 of
    RFC 1035) from reads of 1 to 1024 bytes, with a bounded buffer. */
module TcpFrames {
  import opened Common
  import opened DnsWire

  const MAX_BUFFER: nat := 16384
  const MAX_READ: nat := 1024

  datatype Outcome = Waiting | TooBig | Frame(bytes: seq<Byte>)

  /** A connection: what has been buffered, and the declared size once two bytes are in. */
  class Client {
    var buffer: seq<Byte>
    var expectedSize: nat
    var haveSize: bool

    ghost predicate Valid()
      reads this
    {
      && haveSize == (|buffer| >= 2)
      && (haveSize ==> expectedSize == U16At(buffer, 0))
    }

    constructor ()
      ensures Valid() && buffer == []
    {
      buffer, expectedSize, haveSize := [], 0, false;
    }

    /** One successful read. */
    method OnRead(data: seq<Byte>) returns (r: Outcome)
      requires Valid() && 1 <= |data| <= MAX_READ
      modifies this
      ensures buffer == old(buffer) + data && r == Judge(buffer) && (r.TooBig? || Valid())
    {
      buffer := buffer + data;
      if |buffer| > MAX_BUFFER {
        return TooBig;
      }
      if !haveSize && |buffer| >= 2 {
        expectedSize := U16At(buffer, 0);
        haveSize := true;
      }
      if haveSize && |buffer| >= expectedSize + 2 {
        return Frame(buffer[2..2 + expectedSize]);
      }
      return Waiting;
    }
  }

  /** What a connection does once `b` is everything it has received. */
  function Judge(b: seq<Byte>): Outcome
  {
    if |b| > MAX_BUFFER then TooBig
    else if |b| >= 2 && |b| >= U16At(b, 0) + 2 then Frame(b[2..2 + U16At(b, 0)])
    else Waiting
  }

  function Joined(cuts: seq<seq<Byte>>): seq<Byte>
  {
    if cuts == [] then [] else Joined(cuts[..|cuts| - 1]) + cuts[|cuts| - 1]
  }

  predicate ValidReads(cuts: seq<seq<Byte>>)
  {
    forall i :: 0 <= i < |cuts| ==> 1 <= |cuts[i]| <= MAX_READ
  }

  /** The connection ends with the first read that completes or overflows. */
  function Receive(cuts: seq<seq<Byte>>): Outcome
  {
    if cuts == [] then Waiting
    else
      var before := Receive(cuts[..|cuts| - 1]);
      if before.Waiting? then Judge(Joined(cuts)) else before
  }

  method ReceiveAll(cuts: seq<seq<Byte>>) returns (r: Outcome)
    requires ValidReads(cuts)
    ensures r == Receive(cuts)
  {
    var c := new Client();
    r := Waiting;
    var i := 0;
    while i < |cuts| && r.Waiting?
      invariant 0 <= i <= |cuts| && fresh(c) && r == Receive(cuts[..i])
      invariant r.Waiting? ==> c.Valid() && c.buffer == Joined(cuts[..i])
    {
      assert cuts[..i + 1][..i] == cuts[..i];
      r := c.OnRead(cuts[i]);
      i := i + 1;
    }
    Settled(cuts, i);
    assert cuts[..|cuts|] == cuts;
  }

  lemma {:induction false} Settled(cuts: seq<seq<Byte>>, i: nat)
    requires i <= |cuts| && (!Receive(cuts[..i]).Waiting? || i == |cuts|)
    ensures Receive(cuts) == Receive(cuts[..i])
    decreases |cuts|
  {
    if i == |cuts| {
      assert cuts[..i] == cuts;
    } else {
      var init := cuts[..|cuts| - 1];
      assert init[..i] == cuts[..i];
      Settled(init, i);
    }
  }

  // ---------------------------------------------------------------- what a split can change

  lemma {:induction false} JoinedPrefix(cuts: seq<seq<Byte>>, i: nat)
    requires i <= |cuts|
    ensures Joined(cuts[..i]) <= Joined(cuts)
    decreases |cuts|
  {
    if i == |cuts| {
      assert cuts[..i] == cuts;
    } else {
      assert cuts[..|cuts| - 1][..i] == cuts[..i];
      JoinedPrefix(cuts[..|cuts| - 1], i);
    }
  }

  /** The declared size of a stream. */
  function Declared(stream: seq<Byte>): nat
    requires |stream| >= 2
  {
    U16At(stream, 0)
  }

  /** While a frame is incomplete and the buffer has not overflowed, the connection waits. */
  lemma {:induction false} WaitsBelow(cuts: seq<seq<Byte>>, stream: seq<Byte>)
    requires ValidReads(cuts) && Joined(cuts) <= stream && |stream| >= 2
    requires |Joined(cuts)| < Declared(stream) + 2 && |Joined(cuts)| <= MAX_BUFFER
    ensures Receive(cuts) == Waiting
  {
    if cuts != [] {
      var init := cuts[..|cuts| - 1];
      JoinedPrefix(cuts, |init|);
      WaitsBelow(init, stream);
      SameDeclared(Joined(cuts), stream);
    }
  }

  lemma SameDeclared(b: seq<Byte>, stream: seq<Byte>)
    requires b <= stream && |stream| >= 2
    ensures |b| >= 2 ==> U16At(b, 0) == Declared(stream)
  {}

  /** The read that first brings the stream to `n` bytes leaves fewer than n + 1024 buffered. */
  lemma {:induction false} FirstReach(cuts: seq<seq<Byte>>, n: nat) returns (k: nat)
    requires ValidReads(cuts) && 0 < n <= |Joined(cuts)|
    ensures k < |cuts| && |Joined(cuts[..k])| < n <= |Joined(cuts[..k + 1])| < n + MAX_READ
    ensures forall j :: 0 <= j <= k ==> |Joined(cuts[..j])| < n
  {
    var init := cuts[..|cuts| - 1];
    if |Joined(init)| >= n {
      k := FirstReach(init, n);
      assert init[..k] == cuts[..k] && init[..k + 1] == cuts[..k + 1];
      forall j | 0 <= j <= k ensures |Joined(cuts[..j])| < n { assert init[..j] == cuts[..j]; }
    } else {
      k := |init|;
      assert cuts[..k + 1] == cuts;
      forall j: nat | j <= k ensures |Joined(cuts[..j])| < n {
        assert init[..j] == cuts[..j];
        JoinedPrefix(init, j);
      }
    }
  }

  /** A frame of at most 15359 bytes arrives as exactly its bytes however the stream is cut. */
  lemma SmallFrameArrives(cuts: seq<seq<Byte>>)
    requires ValidReads(cuts) && |Joined(cuts)| >= 2
    requires Declared(Joined(cuts)) <= 15359 && Declared(Joined(cuts)) + 2 <= |Joined(cuts)|
    ensures Receive(cuts) == Frame(Joined(cuts)[2..2 + Declared(Joined(cuts))])
  {
    var s := Joined(cuts);
    var L := Declared(s);
    var k := FirstReach(cuts, L + 2);
    ArrivesAt(cuts, k);
    assert L + 2 + MAX_READ - 1 <= MAX_BUFFER;
    Settled(cuts, k + 1);
  }

  /** What happens at the first read `k` that completes the declared frame. */
  lemma ArrivesAt(cuts: seq<seq<Byte>>, k: nat)
    requires ValidReads(cuts) && k < |cuts| && |Joined(cuts)| >= 2 && Declared(Joined(cuts)) + 2 <= |Joined(cuts)|
    requires |Joined(cuts[..k])| < Declared(Joined(cuts)) + 2 <= |Joined(cuts[..k + 1])|
    requires |Joined(cuts[..k])| <= MAX_BUFFER
    ensures Receive(cuts[..k + 1]) ==
            if |Joined(cuts[..k + 1])| > MAX_BUFFER then TooBig
            else Frame(Joined(cuts)[2..2 + Declared(Joined(cuts))])
  {
    var s := Joined(cuts);
    JoinedPrefix(cuts, k);
    JoinedPrefix(cuts, k + 1);
    WaitsBelow(cuts[..k], s);
    SameDeclared(Joined(cuts[..k + 1]), s);
    assert cuts[..k + 1][..k] == cuts[..k];
    assert Joined(cuts[..k + 1])[2..2 + Declared(s)] == s[2..2 + Declared(s)];
  }

  /** A frame that with its prefix exceeds the buffer never arrives. */
  lemma {:induction false} BigFrameNeverArrives(cuts: seq<seq<Byte>>)
    requires ValidReads(cuts) && |Joined(cuts)| >= 2 && Declared(Joined(cuts)) + 2 > MAX_BUFFER
    ensures !Receive(cuts).Frame?
  {
    var init := cuts[..|cuts| - 1];
    JoinedPrefix(cuts, |init|);
    if |Joined(init)| >= 2 {
      SameDeclared(Joined(init), Joined(cuts));
      BigFrameNeverArrives(init);
    } else {
      ShortWaits(init);
    }
  }

  lemma {:induction false} ShortWaits(cuts: seq<seq<Byte>>)
    requires ValidReads(cuts) && |Joined(cuts)| < 2
    ensures Receive(cuts) == Waiting
  {
    if cuts != [] {
      JoinedPrefix(cuts, |cuts| - 1);
      ShortWaits(cuts[..|cuts| - 1]);
    }
  }

  function Singles(s: seq<Byte>): (r: seq<seq<Byte>>)
    ensures |r| == |s|
  {
    seq(|s|, i requires 0 <= i < |s| => [s[i]])
  }

  lemma {:induction false} SinglesJoin(s: seq<Byte>)
    ensures Joined(Singles(s)) == s && ValidReads(Singles(s))
  {
    if s != [] {
      var init := s[..|s| - 1];
      SinglesJoin(init);
      assert Singles(s)[..|s| - 1] == Singles(init);
      assert s == init + [s[|s| - 1]];
    }
  }

  predicate Between(s: seq<Byte>)
  {
    |s| >= 2 && 15360 <= Declared(s) <= 16382 && |s| == Declared(s) + 1025
  }

  lemma ByteByByteArrives(s: seq<Byte>)
    requires Between(s)
    ensures Receive(Singles(s)) == Frame(s[2..2 + Declared(s)])
  {
    hide Receive, Joined;
    var L := Declared(s);
    SinglesJoin(s);
    SinglesJoin(s[..L + 1]);
    SinglesJoin(s[..L + 2]);
    assert Singles(s)[..L + 1] == Singles(s[..L + 1]) && Singles(s)[..L + 2] == Singles(s[..L + 2]);
    ArrivesAt(Singles(s), L + 1);
    Settled(Singles(s), L + 2);
  }

  /** All but the last piece byte by byte, the rest at once. */
  function LargeLast(s: seq<Byte>): seq<seq<Byte>>
    requires Between(s)
  {
    Singles(s[..Declared(s) + 1]) + [s[Declared(s) + 1..]]
  }

  lemma LargeLastJoins(s: seq<Byte>)
    requires Between(s)
    ensures ValidReads(LargeLast(s)) && Joined(LargeLast(s)) == s
    ensures |LargeLast(s)| == Declared(s) + 2 && Joined(LargeLast(s)[..Declared(s) + 1]) == s[..Declared(s) + 1]
  {
    var L := Declared(s);
    var init, cuts := Singles(s[..L + 1]), LargeLast(s);
    SinglesJoin(s[..L + 1]);
    assert cuts[..L + 1] == init;
    assert Joined(cuts) == Joined(init) + s[L + 1..];
    assert s[..L + 1] + s[L + 1..] == s;
  }

  /** Between the two bounds the cut decides: the same stream, read byte by byte, delivers
      its frame, and read with one large last piece it overflows the buffer. */
  lemma CutDecides(s: seq<Byte>)
    requires Between(s)
    ensures Receive(Singles(s)) == Frame(s[2..2 + Declared(s)])
    ensures ValidReads(LargeLast(s)) && Joined(LargeLast(s)) == s && Receive(LargeLast(s)) == TooBig
  {
    hide Receive, Joined, Singles, LargeLast;
    ByteByByteArrives(s);
    LargeLastJoins(s);
    assert LargeLast(s)[..Declared(s) + 2] == LargeLast(s);
    ArrivesAt(LargeLast(s), Declared(s) + 1);
  }
}
