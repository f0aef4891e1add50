/** The streaming MD5 state: a 64-byte buffer, a bit counter and four chaining words,
    updated in place. For every message and every way of splitting it into updates the
    digest is the one of Rfc1321. */
module Md5 {
  import opened Rfc1321

  /** Shift amounts, one for each of the 64 rounds, sixteen a line. */
  function ShiftRow(k: nat): (s: seq<nat>)
    requires k < 4
    ensures |s| == 16 && forall i :: 0 <= i < 16 ==> 0 < s[i] < 32
  {
    if k == 0 then [7, 12, 17, 22, 7, 12, 17, 22, 7, 12, 17, 22, 7, 12, 17, 22]
    else if k == 1 then [5, 9, 14, 20, 5, 9, 14, 20, 5, 9, 14, 20, 5, 9, 14, 20]
    else if k == 2 then [4, 11, 16, 23, 4, 11, 16, 23, 4, 11, 16, 23, 4, 11, 16, 23]
    else [6, 10, 15, 21, 6, 10, 15, 21, 6, 10, 15, 21, 6, 10, 15, 21]
  }

  function S(): (s: seq<nat>)
    ensures |s| == 64 && forall i :: 0 <= i < 64 ==> 0 < s[i] < 32
  {
    ShiftRow(0) + ShiftRow(1) + ShiftRow(2) + ShiftRow(3)
  }

  /** The word index each round computes. */
  function WordIndex(i: nat): (g: nat)
    requires i < 64
    ensures g < 16
  {
    if i < 16 then i else if i < 32 then (5 * i + 1) % 16 else if i < 48 then (3 * i + 5) % 16 else (7 * i) % 16
  }

  /** The registers as the rolling loop holds them after `i` rounds. */
  function Rolled(r: Regs, i: nat): Regs
  {
    match i % 4
    case 0 => r
    case 1 => Regs(r.d, r.a, r.b, r.c)
    case 2 => Regs(r.c, r.d, r.a, r.b)
    case _ => Regs(r.b, r.c, r.d, r.a)
  }

  lemma ShiftRowRepeats(k: nat, j: nat)
    requires k < 4 && j < 16
    ensures ShiftRow(k)[j] == RoundShifts(k)[j % 4]
  {
    var q, e := j / 4, j % 4;
    assert j == 4 * q + e;
    assert q == 0 || q == 1 || q == 2 || q == 3;
    assert e == 0 || e == 1 || e == 2 || e == 3;
  }

  lemma ShiftTable(i: nat)
    requires i < 64
    ensures S()[i] == RoundShifts(i / 16)[i % 4]
  {
    hide ShiftRow, RoundShifts;
    ShiftRowRepeats(i / 16, i % 16);
  }

  lemma SecondRoundWords(i: nat)
    requires i < 16
    ensures (5 * (16 + i) + 1) % 16 == RoundWords(1)[i]
  {}

  lemma ThirdRoundWords(i: nat)
    requires i < 16
    ensures (3 * (32 + i) + 5) % 16 == RoundWords(2)[i]
  {}

  lemma FourthRoundWords(i: nat)
    requires i < 16
    ensures (7 * (48 + i)) % 16 == RoundWords(3)[i]
  {}

  lemma WordTable(i: nat)
    requires i < 64
    ensures WordIndex(i) == RoundWords(i / 16)[i % 16]
  {
    hide RoundWords;
    if i < 16 {
      FirstRoundWords(i);
    } else if i < 32 {
      SecondRoundWords(i - 16);
    } else if i < 48 {
      ThirdRoundWords(i - 32);
    } else {
      FourthRoundWords(i - 48);
    }
  }

  lemma FirstRoundWords(i: nat)
    requires i < 16
    ensures i == RoundWords(0)[i]
  {}

  function ChoiceF(bb: Word, cc: Word, dd: Word): Word { (bb & cc) | (!bb & dd) }
  function ChoiceG(bb: Word, cc: Word, dd: Word): Word { (dd & bb) | (!dd & cc) }
  function ChoiceH(bb: Word, cc: Word, dd: Word): Word { bb ^ cc ^ dd }
  function ChoiceI(bb: Word, cc: Word, dd: Word): Word { cc ^ (bb | !dd) }

  /** The round function of the code on its rolling registers. */
  function Choice(i: nat, bb: Word, cc: Word, dd: Word): Word
  {
    if i < 16 then ChoiceF(bb, cc, dd)
    else if i < 32 then ChoiceG(bb, cc, dd)
    else if i < 48 then ChoiceH(bb, cc, dd)
    else ChoiceI(bb, cc, dd)
  }

  lemma ChoicesAre(b: Word, c: Word, d: Word)
    ensures ChoiceF(b, c, d) == F(b, c, d)
    ensures ChoiceG(b, c, d) == G(b, c, d)
    ensures ChoiceH(b, c, d) == H(b, c, d)
    ensures ChoiceI(b, c, d) == I(b, c, d)
  {}

  lemma ChoiceIsAux(i: nat, b: Word, c: Word, d: Word)
    ensures Choice(i, b, c, d) == Aux(i, b, c, d)
  {
    hide F, G, H, I, ChoiceF, ChoiceG, ChoiceH, ChoiceI;
    ChoicesAre(b, c, d);
  }

  function Accumulate(f: Word, aa: Word, k: Word, m: Word): Word { f + (aa + k + m) }

  lemma AccumulateIsSum(f: Word, a: Word, k: Word, m: Word)
    ensures Accumulate(f, a, k, m) == Sum(a, f, m, k)
  {}

  /** What the code rotates in round `i`. */
  function Mix(i: nat, r: Regs, m: Word, k: Word): Word
  {
    Accumulate(Choice(i, r.b, r.c, r.d), r.a, k, m)
  }

  /** The rotation of the implementation: two shifts. */
  function ShiftRotl(x: Word, n: nat): Word
    requires 0 < n < 32
  {
    (x << n) | (x >> (32 - n))
  }

  lemma FirstShifts(x: Word)
    ensures ShiftRotl(x, 7) == Rotl(x, 7) && ShiftRotl(x, 12) == Rotl(x, 12)
    ensures ShiftRotl(x, 17) == Rotl(x, 17) && ShiftRotl(x, 22) == Rotl(x, 22)
  {}

  lemma SecondShifts(x: Word)
    ensures ShiftRotl(x, 5) == Rotl(x, 5) && ShiftRotl(x, 9) == Rotl(x, 9)
    ensures ShiftRotl(x, 14) == Rotl(x, 14) && ShiftRotl(x, 20) == Rotl(x, 20)
  {}

  lemma ThirdShifts(x: Word)
    ensures ShiftRotl(x, 4) == Rotl(x, 4) && ShiftRotl(x, 11) == Rotl(x, 11)
    ensures ShiftRotl(x, 16) == Rotl(x, 16) && ShiftRotl(x, 23) == Rotl(x, 23)
  {}

  lemma FourthShifts(x: Word)
    ensures ShiftRotl(x, 6) == Rotl(x, 6) && ShiftRotl(x, 10) == Rotl(x, 10)
    ensures ShiftRotl(x, 15) == Rotl(x, 15) && ShiftRotl(x, 21) == Rotl(x, 21)
  {}

  /** For every shift amount of the 64 operations the two shifts are the rotation. */
  lemma ShiftsRotate(x: Word, i: nat)
    requires i < 64
    ensures ShiftRotl(x, S()[i]) == Rotl(x, S()[i])
  {
    hide ShiftRotl, Rotl, S;
    ShiftTable(i);
    FirstShifts(x);
    SecondShifts(x);
    ThirdShifts(x);
    FourthShifts(x);
    var e := i % 4;
    assert e == 0 || e == 1 || e == 2 || e == 3;
  }

  /** The constant table of the implementation. */
  function K(): (k: seq<Word>)
    ensures |k| == 64
  {
    [0xd76aa478, 0xe8c7b756, 0x242070db, 0xc1bdceee, 0xf57c0faf, 0x4787c62a, 0xa8304613, 0xfd469501,
     0x698098d8, 0x8b44f7af, 0xffff5bb1, 0x895cd7be, 0x6b901122, 0xfd987193, 0xa679438e, 0x49b40821,
     0xf61e2562, 0xc040b340, 0x265e5a51, 0xe9b6c7aa, 0xd62f105d, 0x02441453, 0xd8a1e681, 0xe7d3fbc8,
     0x21e1cde6, 0xc33707d6, 0xf4d50d87, 0x455a14ed, 0xa9e3e905, 0xfcefa3f8, 0x676f02d9, 0x8d2a4c8a,
     0xfffa3942, 0x8771f681, 0x6d9d6122, 0xfde5380c, 0xa4beea44, 0x4bdecfa9, 0xf6bb4b60, 0xbebfbc70,
     0x289b7ec6, 0xeaa127fa, 0xd4ef3085, 0x04881d05, 0xd9d4d039, 0xe6db99e5, 0x1fa27cf8, 0xc4ac5665,
     0xf4292244, 0x432aff97, 0xab9423a7, 0xfc93a039, 0x655b59c3, 0x8f0ccc92, 0xffeff47d, 0x85845dd1,
     0x6fa87e4f, 0xfe2ce6e0, 0xa3014314, 0x4e0811a1, 0xf7537e82, 0xbd3af235, 0x2ad7d2bb, 0xeb86d391]
  }

  lemma ConstantTable()
    ensures K() == T()
  {}

  lemma MixIsOp(i: nat, r: Regs, X: seq<Word>)
    requires i < 64 && |X| == 16
    ensures Add(r.b, ShiftRotl(Mix(i, r, X[WordIndex(i)], K()[i]), S()[i])) == Op(i, r.a, r.b, r.c, r.d, X)
  {
    hide Add, Sum, Accumulate, Rotl, ShiftRotl, T, K, S, WordIndex, RoundWords, RoundShifts, Aux, Choice;
    ConstantTable();
    ShiftsRotate(Mix(i, r, X[WordIndex(i)], K()[i]), i);
    WordTable(i);
    ShiftTable(i);
    ChoiceIsAux(i, r.b, r.c, r.d);
    AccumulateIsSum(Aux(i, r.b, r.c, r.d), r.a, T()[i], X[WordIndex(i)]);
  }

  /** One round of the rolling loop is one listed operation on the fixed registers. */
  lemma RollStep(r: Regs, i: nat, X: seq<Word>)
    requires i < 64 && |X| == 16
    ensures var t := Rolled(r, i);
            Rolled(OpStep(r, i, X), i + 1) == Regs(t.d, Op(i, t.a, t.b, t.c, t.d, X), t.b, t.c)
  {
    hide Op;
    assert i % 4 == 0 || i % 4 == 1 || i % 4 == 2 || i % 4 == 3;
  }

  function Assemble(b0: Byte, b1: Byte, b2: Byte, b3: Byte): Word
  {
    (b0 as Word) | ((b1 as Word) << 8) | ((b2 as Word) << 16) | ((b3 as Word) << 24)
  }

  lemma AssembleIsWordOf(b0: Byte, b1: Byte, b2: Byte, b3: Byte)
    ensures Assemble(b0, b1, b2, b3) == WordOf(b0, b1, b2, b3)
  {}

  /** Registers and partial block of the message `m`: whole blocks folded in, the rest buffered. */
  ghost predicate Holds(r: Regs, tail: seq<Byte>, m: seq<Byte>)
  {
    && |tail| <= |m| && (|m| - |tail|) % 64 == 0
    && tail == m[|m| - |tail|..]
    && r == Fold(Initial(), m[..|m| - |tail|])
  }

  lemma HoldsAtStart()
    ensures Holds(Initial(), [], [])
  {
    hide Initial;
  }

  lemma HoldsMore(r: Regs, tail: seq<Byte>, m: seq<Byte>, data: seq<Byte>)
    requires Holds(r, tail, m)
    ensures Holds(r, tail + data, m + data)
  {
    hide Fold, Initial;
    assert (m + data)[..|m| - |tail|] == m[..|m| - |tail|];
  }

  lemma HoldsDrained(r: Regs, block: seq<Byte>, m: seq<Byte>)
    requires |block| == 64 && Holds(r, block, m)
    ensures Holds(Block(r, block), [], m)
  {
    hide Fold, Initial, Block;
    var whole := m[..|m| - 64];
    assert m == whole + block && m[..|m|] == m;
    FoldAppend(Initial(), whole, block);
  }

  lemma NoRest(n: nat, t: nat)
    requires t <= n && t < 64 && (n - t) % 64 == 0
    ensures t == n % 64
  {}

  lemma HoldsWhole(r: Regs, tail: seq<Byte>, m: seq<Byte>)
    requires Holds(r, tail, m) && |m| % 64 == 0 && |tail| < 64
    ensures tail == [] && r == Fold(Initial(), m)
  {
    hide Fold, Initial;
    NoRest(|m|, |tail|);
    assert tail == [] && m[..|m| - 0] == m;
  }

  lemma PadIs(m: seq<Byte>, zeros: nat)
    requires zeros == (if |m| % 64 < 56 then 55 - |m| % 64 else 119 - |m| % 64)
    ensures Pad(m) == m + ([0x80] + Zeros(zeros)) + LengthBytes(8 * |m| % TWO64)
  {
    hide Zeros, LengthBytes;
    assert zeros == (55 - |m|) % 64;
    assert m + [0x80] + Zeros(zeros) == m + ([0x80] + Zeros(zeros));
  }

  lemma CountAdds(n: nat, k: nat)
    ensures (8 * n % TWO64 + 8 * k) % TWO64 == 8 * (n + k) % TWO64
  {}

  method LoadWords(block: seq<Byte>) returns (M: array<Word>)
    requires |block| == 64
    ensures fresh(M) && M.Length == 16 && M[..] == Words(block)
  {
    hide Assemble, WordOf;
    M := new Word[16];
    var i := 0;
    while i < 16
      invariant 0 <= i <= 16
      invariant forall j :: 0 <= j < i ==> M[j] == Words(block)[j]
    {
      AssembleIsWordOf(block[4 * i], block[4 * i + 1], block[4 * i + 2], block[4 * i + 3]);
      M[i] := Assemble(block[4 * i], block[4 * i + 1], block[4 * i + 2], block[4 * i + 3]);
      i := i + 1;
    }
  }

  /** The 64 rolling rounds compute the listed operations on fixed registers. */
  method Rounds(r: Regs, M: array<Word>) returns (out: Regs)
    requires M.Length == 16
    ensures out == Ops(r, 64, M[..])
  {
    hide Add, ShiftRotl, T, S, Mix, WordIndex, Op, OpStep;
    var aa, bb, cc, dd := r.a, r.b, r.c, r.d;
    var i := 0;
    while i < 64
      invariant 0 <= i <= 64
      invariant Regs(aa, bb, cc, dd) == Rolled(Ops(r, i, M[..]), i)
    {
      MixIsOp(i, Regs(aa, bb, cc, dd), M[..]);
      RollStep(Ops(r, i, M[..]), i, M[..]);
      var f := Mix(i, Regs(aa, bb, cc, dd), M[WordIndex(i)], K()[i]);
      aa, dd, cc, bb := dd, cc, bb, Add(bb, ShiftRotl(f, S()[i]));
      i := i + 1;
    }
    out := Regs(aa, bb, cc, dd);
  }

  method LengthField(bits: nat) returns (bytes: seq<Byte>)
    ensures bytes == LengthBytes(bits)
  {
    hide ByteAt;
    bytes := [];
    var i := 0;
    while i < 8
      invariant 0 <= i <= 8 && |bytes| == i
      invariant forall j :: 0 <= j < i ==> bytes[j] == LengthBytes(bits)[j]
    {
      bytes := bytes + [ByteAt(bits, i)];
      i := i + 1;
    }
  }

  lemma OutputAt(r: Regs, i: nat)
    requires i < 4
    ensures |Output(r)| == 16
    ensures Output(r)[i] == WordByte(r.a, i) && Output(r)[i + 4] == WordByte(r.b, i)
    ensures Output(r)[i + 8] == WordByte(r.c, i) && Output(r)[i + 12] == WordByte(r.d, i)
  {
    hide WordByte;
  }

  /** Byte `i` of each register goes to positions i, i + 4, i + 8 and i + 12. */
  method EmitRegisters(r: Regs) returns (bytes: seq<Byte>)
    ensures bytes == Output(r)
  {
    hide WordByte, Output;
    var result := new Byte[16];
    var i := 0;
    OutputAt(r, 0);
    while i < 4
      invariant 0 <= i <= 4
      invariant forall j :: 0 <= j < i ==> result[j] == Output(r)[j]
      invariant forall j :: 4 <= j < 4 + i ==> result[j] == Output(r)[j]
      invariant forall j :: 8 <= j < 8 + i ==> result[j] == Output(r)[j]
      invariant forall j :: 12 <= j < 12 + i ==> result[j] == Output(r)[j]
    {
      OutputAt(r, i);
      result[i] := WordByte(r.a, i);
      result[i + 4] := WordByte(r.b, i);
      result[i + 8] := WordByte(r.c, i);
      result[i + 12] := WordByte(r.d, i);
      i := i + 1;
    }
    bytes := result[..];
  }

  class Md5State {
    var a: Word
    var b: Word
    var c: Word
    var d: Word
    var count: nat
    const buf: array<Byte>
    var bufLen: nat
    /** Every byte given to Update so far. */
    ghost var message: seq<Byte>

    ghost predicate Buffered()
      reads this, buf
    {
      buf.Length == 64 && bufLen <= 64 && Holds(Regs(a, b, c, d), buf[..bufLen], message)
    }

    ghost predicate Valid()
      reads this, buf
    {
      Buffered() && bufLen < 64 && count == 8 * |message| % TWO64
    }

    constructor ()
      ensures Valid() && fresh(buf) && message == []
    {
      hide Holds;
      a, b, c, d := 0x67452301, 0xefcdab89, 0x98badcfe, 0x10325476;
      count, bufLen, message := 0, 0, [];
      buf := new Byte[64](_ => 0);
      new;
      HoldsAtStart();
      assert buf[..0] == [];
    }

    constructor Copy(other: Md5State)
      requires other.Valid()
      ensures Valid() && fresh(buf) && message == other.message
    {
      hide Holds;
      a, b, c, d := other.a, other.b, other.c, other.d;
      count, bufLen, message := other.count, other.bufLen, other.message;
      var bytes := other.buf[..];
      buf := new Byte[64](i requires 0 <= i < 64 => bytes[i]);
      new;
      assert buf[..bufLen] == other.buf[..bufLen];
    }

    method ProcessBlock(block: seq<Byte>)
      requires |block| == 64
      modifies this`a, this`b, this`c, this`d
      ensures Regs(a, b, c, d) == Block(old(Regs(a, b, c, d)), block)
    {
      var M := LoadWords(block);
      var r := Rounds(Regs(a, b, c, d), M);
      var sum := Plus(Regs(a, b, c, d), r);
      a, b, c, d := sum.a, sum.b, sum.c, sum.d;
    }

    /** Copies bytes into the buffer behind those already there. */
    method Store(data: seq<Byte>)
      requires Buffered() && bufLen + |data| <= 64
      modifies this`bufLen, this`message, buf
      ensures Buffered() && bufLen == old(bufLen) + |data| && message == old(message) + data
    {
      hide Holds;
      ghost var tail := buf[..bufLen];
      var i := 0;
      while i < |data|
        invariant 0 <= i <= |data|
        invariant buf[..bufLen] == tail
        invariant buf[bufLen..bufLen + i] == data[..i]
        modifies buf
      {
        buf[bufLen + i] := data[i];
        i := i + 1;
      }
      HoldsMore(Regs(a, b, c, d), tail, message, data);
      assert buf[..bufLen + i] == tail + data;
      bufLen := bufLen + |data|;
      message := message + data;
    }

    /** A full buffer is folded in and emptied. */
    method Drain()
      requires Buffered() && bufLen == 64
      modifies this`a, this`b, this`c, this`d, this`bufLen
      ensures Buffered() && bufLen == 0
    {
      hide Holds, Block;
      assert buf[..64] == buf[..];
      HoldsDrained(Regs(a, b, c, d), buf[..], message);
      ProcessBlock(buf[..]);
      bufLen := 0;
      assert buf[..0] == [];
    }

    /** However the bytes arrive, the state is that of the concatenated message. */
    method Update(data: seq<Byte>)
      requires Valid()
      modifies this, buf
      ensures Valid() && message == old(message) + data
    {
      hide Holds;
      ghost var before := message;
      CountAdds(|message|, |data|);
      count := (count + 8 * |data|) % TWO64;
      var done := 0;
      while done < |data|
        invariant 0 <= done <= |data|
        invariant Buffered() && bufLen < 64
        invariant message == before + data[..done]
        invariant count == 8 * (|before| + |data|) % TWO64
      {
        var space := 64 - bufLen;
        var take := if |data| - done < space then |data| - done else space;
        assert before + data[..done] + data[done..done + take] == before + data[..done + take];
        Store(data[done..done + take]);
        done := done + take;
        if bufLen == 64 {
          Drain();
        }
      }
      assert data[..done] == data;
    }

    /** Pads, appends the length and returns the registers: the digest of the message. */
    method Finalize() returns (r: seq<Byte>)
      requires Valid()
      modifies this, buf
      ensures r == Digest(old(message))
    {
      hide Holds, Fold, LengthBytes, Output, Zeros, Pad;
      ghost var m := message;
      BufferedLength();
      var padLen := if bufLen < 56 then 56 - bufLen else 120 - bufLen;
      var messageBits := count;
      Update([0x80] + Zeros(padLen - 1));
      var lenBytes := LengthField(messageBits);
      Update(lenBytes);
      PadIsBlocks(m);
      PadIs(m, padLen - 1);
      HoldsWhole(Regs(a, b, c, d), buf[..bufLen], message);
      r := EmitRegisters(Regs(a, b, c, d));
    }

    lemma BufferedLength()
      requires Valid()
      ensures bufLen == |message| % 64
    {
      NoRest(|message|, bufLen);
    }

    /** The digest so far; the state it is taken from is left as it was. */
    method DigestNow() returns (r: seq<Byte>)
      requires Valid()
      ensures r == Digest(message)
    {
      hide Holds, Digest;
      var copy := new Md5State.Copy(this);
      r := copy.Finalize();
    }
  }

  function Concat(chunks: seq<seq<Byte>>): seq<Byte>
  {
    if chunks == [] then [] else Concat(chunks[..|chunks| - 1]) + chunks[|chunks| - 1]
  }

  /** Every way of splitting a message into updates, with a digest taken after each one:
      all of them are the RFC digests of what was fed so far. */
  method DigestOfChunks(chunks: seq<seq<Byte>>) returns (r: seq<seq<Byte>>)
    ensures |r| == |chunks|
    ensures forall k :: 0 <= k < |r| ==> r[k] == Digest(Concat(chunks[..k + 1]))
  {
    hide Digest, Holds;
    var state := new Md5State();
    r := [];
    var i := 0;
    while i < |chunks|
      invariant 0 <= i <= |chunks| && |r| == i
      invariant state.Valid() && fresh(state) && fresh(state.buf) && state.message == Concat(chunks[..i])
      invariant forall k :: 0 <= k < i ==> r[k] == Digest(Concat(chunks[..k + 1]))
    {
      state.Update(chunks[i]);
      assert chunks[..i + 1][..i] == chunks[..i];
      var now := state.DigestNow();
      r := r + [now];
      i := i + 1;
    }
  }
}
