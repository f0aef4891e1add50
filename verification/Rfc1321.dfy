/** The MD5 message digest as sections 3.1 to 3.5 of RFC 1321 define it, with its four
    fixed registers and its listed operation sequence. This is the reference that the
    streaming implementation in Md5 is proved against. */
module Rfc1321 {
  type Byte = bv8
  type Word = bv32

  datatype Regs = Regs(a: Word, b: Word, c: Word, d: Word)

  function Initial(): Regs
  {
    Regs(0x67452301, 0xefcdab89, 0x98badcfe, 0x10325476)
  }

  // ---------------------------------------------------------------- padding

  function Zeros(n: nat): (z: seq<Byte>)
    ensures |z| == n
  {
    seq(n, _ => 0)
  }

  /** Byte `i` of `n`, low-order byte first. */
  function ByteAt(n: nat, i: nat): Byte
  {
    ((n / Pow256(i)) % 256) as Byte
  }

  function Pow256(i: nat): (p: nat)
    ensures p > 0
  {
    if i == 0 then 1 else 256 * Pow256(i - 1)
  }

  function LengthBytes(bits: nat): seq<Byte>
  {
    seq(8, i requires 0 <= i < 8 => ByteAt(bits, i))
  }

  const TWO64: nat := 0x1_0000_0000_0000_0000

  /** A one bit, zero bits up to 448 modulo 512, then the low 64 bits of the bit length. */
  function Pad(m: seq<Byte>): seq<Byte>
  {
    m + [0x80] + Zeros((55 - |m|) % 64) + LengthBytes(8 * |m| % TWO64)
  }

  /** Padding reaches exactly a block boundary, with 1 to 64 bytes before the length. */
  lemma PadIsBlocks(m: seq<Byte>)
    ensures |Pad(m)| % 64 == 0
    ensures |m| + 9 <= |Pad(m)| <= |m| + 72
    ensures m <= Pad(m)
  {}

  // ---------------------------------------------------------------- one block

  /** Addition modulo 2^32. */
  function Add(x: Word, y: Word): Word { x + y }
  function Sum(a: Word, f: Word, x: Word, t: Word): Word { a + f + x + t }

  function F(x: Word, y: Word, z: Word): Word { (x & y) | (!x & z) }
  function G(x: Word, y: Word, z: Word): Word { (x & z) | (y & !z) }
  function H(x: Word, y: Word, z: Word): Word { x ^ y ^ z }
  function I(x: Word, y: Word, z: Word): Word { y ^ (x | !z) }

  function Aux(i: nat, x: Word, y: Word, z: Word): Word
  {
    if i < 16 then F(x, y, z) else if i < 32 then G(x, y, z) else if i < 48 then H(x, y, z) else I(x, y, z)
  }

  /** The word each operation of a round takes, as the RFC lists them. */
  function RoundWords(round: nat): (ks: seq<nat>)
    requires round < 4
    ensures |ks| == 16 && forall k :: 0 <= k < 16 ==> ks[k] < 16
  {
    if round == 0 then [0, 1, 2, 3, 4, 5, 6, 7, 8, 9, 10, 11, 12, 13, 14, 15]
    else if round == 1 then [1, 6, 11, 0, 5, 10, 15, 4, 9, 14, 3, 8, 13, 2, 7, 12]
    else if round == 2 then [5, 8, 11, 14, 1, 4, 7, 10, 13, 0, 3, 6, 9, 12, 15, 2]
    else [0, 7, 14, 5, 12, 3, 10, 1, 8, 15, 6, 13, 4, 11, 2, 9]
  }

  /** The four shifts of a round, repeated through it. */
  function RoundShifts(round: nat): (s: seq<nat>)
    requires round < 4
    ensures |s| == 4 && forall k :: 0 <= k < 4 ==> 0 < s[k] < 32
  {
    if round == 0 then [7, 12, 17, 22]
    else if round == 1 then [5, 9, 14, 20]
    else if round == 2 then [4, 11, 16, 23]
    else [6, 10, 15, 21]
  }

  /** The sine table of section 3.4. */
  function T(): (t: seq<Word>)
    ensures |t| == 64
  {
    [0xd76aa478, 0xe8c7b756, 0x242070db, 0xc1bdceee, 0xf57c0faf, 0x4787c62a, 0xa8304613, 0xfd469501,
     0x698098d8, 0x8b44f7af, 0xffff5bb1, 0x895cd7be, 0x6b901122, 0xfd987193, 0xa679438e, 0x49b40821,
     0xf61e2562, 0xc040b340, 0x265e5a51, 0xe9b6c7aa, 0xd62f105d, 0x02441453, 0xd8a1e681, 0xe7d3fbc8,
     0x21e1cde6, 0xc33707d6, 0xf4d50d87, 0x455a14ed, 0xa9e3e905, 0xfcefa3f8, 0x676f02d9, 0x8d2a4c8a,
     0xfffa3942, 0x8771f681, 0x6d9d6122, 0xfde5380c, 0xa4beea44, 0x4bdecfa9, 0xf6bb4b60, 0xbebfbc70,
     0x289b7ec6, 0xeaa127fa, 0xd4ef3085, 0x04881d05, 0xd9d4d039, 0xe6db99e5, 0x1fa27cf8, 0xc4ac5665,
     0xf4292244, 0x432aff97, 0xab9423a7, 0xfc93a039, 0x655b59c3, 0x8f0ccc92, 0xffeff47d, 0x85845dd1,
     0x6fa87e4f, 0xfe2ce6e0, 0xa3014314, 0x4e0811a1, 0xf7537e82, 0xbd3af235, 0x2ad7d2bb, 0xeb86d391]
  }

  /** The 32-bit value circularly shifted left. */
  function Rotl(x: Word, n: nat): Word
    requires 0 < n < 32
  {
    x.RotateLeft(n)
  }

  /** [abcd k s i]: a = b + ((a + f(b,c,d) + X[k] + T[i]) <<< s) */
  function Op(i: nat, a: Word, b: Word, c: Word, d: Word, X: seq<Word>): Word
    requires i < 64 && |X| == 16
  {
    Add(b, Rotl(Sum(a, Aux(i, b, c, d), X[RoundWords(i / 16)[i % 16]], T()[i]), RoundShifts(i / 16)[i % 4]))
  }

  /** Operation `i` on the fixed registers: ABCD, DABC, CDAB, BCDA in turn. */
  function OpStep(r: Regs, i: nat, X: seq<Word>): Regs
    requires i < 64 && |X| == 16
  {
    match i % 4
    case 0 => r.(a := Op(i, r.a, r.b, r.c, r.d, X))
    case 1 => r.(d := Op(i, r.d, r.a, r.b, r.c, X))
    case 2 => r.(c := Op(i, r.c, r.d, r.a, r.b, X))
    case _ => r.(b := Op(i, r.b, r.c, r.d, r.a, X))
  }

  function Ops(r: Regs, n: nat, X: seq<Word>): Regs
    requires n <= 64 && |X| == 16
  {
    if n == 0 then r else OpStep(Ops(r, n - 1, X), n - 1, X)
  }

  /** A word from four bytes, low-order byte first. */
  function WordOf(b0: Byte, b1: Byte, b2: Byte, b3: Byte): Word
  {
    (b0 as Word) + ((b1 as Word) << 8) + ((b2 as Word) << 16) + ((b3 as Word) << 24)
  }

  function Words(block: seq<Byte>): (X: seq<Word>)
    requires |block| == 64
    ensures |X| == 16
  {
    seq(16, i requires 0 <= i < 16 => WordOf(block[4 * i], block[4 * i + 1], block[4 * i + 2], block[4 * i + 3]))
  }

  function Plus(r: Regs, t: Regs): Regs
  {
    Regs(Add(r.a, t.a), Add(r.b, t.b), Add(r.c, t.c), Add(r.d, t.d))
  }

  function Block(r: Regs, block: seq<Byte>): Regs
    requires |block| == 64
  {
    Plus(r, Ops(r, 64, Words(block)))
  }

  lemma WholeBlocks(n: nat)
    requires n > 0 && n % 64 == 0
    ensures n >= 64 && (n - 64) % 64 == 0
  {}

  /** All whole blocks of a message, in order. */
  function Fold(r: Regs, bytes: seq<Byte>): Regs
    requires |bytes| % 64 == 0
    decreases |bytes|
  {
    if |bytes| == 0 then r
    else
      WholeBlocks(|bytes|);
      Fold(Block(r, bytes[..64]), bytes[64..])
  }

  lemma {:induction false} FoldAppend(r: Regs, bytes: seq<Byte>, block: seq<Byte>)
    requires |bytes| % 64 == 0 && |block| == 64
    ensures Fold(r, bytes + block) == Block(Fold(r, bytes), block)
    decreases |bytes|
  {
    hide Block;
    if |bytes| == 0 {
      assert bytes + block == block && block[..64] == block;
      assert Fold(Block(r, block), block[64..]) == Block(r, block);
    } else {
      assert (bytes + block)[..64] == bytes[..64];
      assert (bytes + block)[64..] == bytes[64..] + block;
      FoldAppend(Block(r, bytes[..64]), bytes[64..], block);
    }
  }

  // ---------------------------------------------------------------- digest

  function WordByte(w: Word, i: nat): Byte
    requires i < 4
  {
    ((w >> (8 * i)) & 0xff) as Byte
  }

  function WordBytes(w: Word): seq<Byte>
  {
    [WordByte(w, 0), WordByte(w, 1), WordByte(w, 2), WordByte(w, 3)]
  }

  /** The registers A, B, C, D, each low-order byte first. */
  function Output(r: Regs): seq<Byte>
  {
    WordBytes(r.a) + WordBytes(r.b) + WordBytes(r.c) + WordBytes(r.d)
  }

  function Digest(m: seq<Byte>): seq<Byte>
  {
    PadIsBlocks(m);
    Output(Fold(Initial(), Pad(m)))
  }
}
