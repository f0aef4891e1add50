/** Bitwise operations on unsigned words, written out bit by bit so that marks and
    masks can be reasoned about as numbers. */
module Bits {

  function And(x: nat, y: nat): (r: nat)
    ensures r <= x && r <= y
  {
    if x == 0 || y == 0 then 0 else 2 * And(x / 2, y / 2) + (if x % 2 == 1 && y % 2 == 1 then 1 else 0)
  }

  /** `x & ~y` */
  function AndNot(x: nat, y: nat): (r: nat)
    ensures r <= x
  {
    if x == 0 then 0 else 2 * AndNot(x / 2, y / 2) + (if x % 2 == 1 && y % 2 == 0 then 1 else 0)
  }

  function Xor(x: nat, y: nat): (r: nat)
    decreases x + y
  {
    if x == 0 then y else if y == 0 then x
    else 2 * Xor(x / 2, y / 2) + (if x % 2 == y % 2 then 0 else 1)
  }

  /** `--set-xmark value/mask`: clear the masked bits, then exclusive-or the value in. */
  function Xmark(mark: nat, value: nat, mask: nat): (r: nat)
  {
    Xor(AndNot(mark, mask), value)
  }

  lemma {:induction false} AndXorSplit(a: nat, c: nat, mask: nat)
    ensures And(Xor(AndNot(a, mask), And(c, mask)), mask) == And(c, mask)
    decreases a + c + mask
  {
    if mask == 0 {
    } else if a + c == 0 {
    } else {
      AndXorSplit(a / 2, c / 2, mask / 2);
      var x, y := AndNot(a, mask), And(c, mask);
      AndBits(c, mask);
      AndNotBits(a, mask);
      XorBits(x, y);
      AndBits(Xor(x, y), mask);
    }
  }

  lemma {:induction false} AndBits(x: nat, y: nat)
    ensures And(x, y) / 2 == And(x / 2, y / 2)
    ensures And(x, y) % 2 == if x % 2 == 1 && y % 2 == 1 then 1 else 0
  {}

  lemma {:induction false} AndNotBits(x: nat, y: nat)
    ensures AndNot(x, y) / 2 == AndNot(x / 2, y / 2)
    ensures AndNot(x, y) % 2 == if x % 2 == 1 && y % 2 == 0 then 1 else 0
  {}

  lemma {:induction false} XorBits(x: nat, y: nat)
    ensures Xor(x, y) / 2 == Xor(x / 2, y / 2)
    ensures Xor(x, y) % 2 == if x % 2 == y % 2 then 0 else 1
  {}

  /** A mark restored from the connection carries exactly the connection's bits under the mask. */
  lemma RestoreReadsBack(mark: nat, ctmark: nat, mask: nat)
    ensures And(Xmark(mark, And(ctmark, mask), mask), mask) == And(ctmark, mask)
  {
    AndXorSplit(mark, ctmark, mask);
  }

  // ---------------------------------------------------------------- powers of two

  function Pow2(n: nat): (r: nat)
    ensures r > 0
  {
    if n == 0 then 1 else 2 * Pow2(n - 1)
  }

  lemma {:induction false} Pow2Splits(a: nat, b: nat)
    ensures Pow2(a + b) == Pow2(a) * Pow2(b)
  {
    if a != 0 {
      Pow2Splits(a - 1, b);
      assert Pow2(a + b) == 2 * Pow2(a - 1 + b);
      assert 2 * (Pow2(a - 1) * Pow2(b)) == (2 * Pow2(a - 1)) * Pow2(b);
    }
  }

  lemma MulMono(a: nat, b: nat, size: nat)
    ensures a <= b ==> a * size <= b * size
  {}

  lemma DivOfBlock(q: nat, r: nat, size: nat)
    requires r < size
    ensures (q * size + r) / size == q
  {
    var x := q * size + r;
    var k := x / size;
    assert k * size <= x < k * size + size;
    MulMono(k + 1, q, size);
    MulMono(q + 1, k, size);
    assert (k + 1) * size == k * size + size && (q + 1) * size == q * size + size;
  }
}
