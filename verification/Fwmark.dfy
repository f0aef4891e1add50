/** Firewall marks: which masks the configuration accepts, and the marks it hands to
    outbounds, all in 32-bit unsigned arithmetic. */
module Fwmark {
  import opened Common
  import opened Bits
  import opened Ordering

  // ---------------------------------------------------------------- masks

  /** `mask & (~mask + 1)` */
  function LowestBit(mask: nat): (r: nat)
    requires 0 < mask < U32
  {
    And(mask, U32 - mask)
  }

  /** Number of trailing zero bits. */
  function Tz(mask: nat): (r: nat)
    requires mask > 0
  {
    if mask % 2 == 1 then 0 else 1 + Tz(mask / 2)
  }

  function OddPart(mask: nat): (r: nat)
    requires mask > 0
  {
    if mask % 2 == 1 then mask else OddPart(mask / 2)
  }

  lemma SameProduct(x: nat, y: nat, a: nat, b: nat)
    requires x == a && y == b
    ensures x * y == a * b
  {}

  lemma HalveEven(mask: nat)
    requires mask > 0 && mask % 2 == 0
    ensures Tz(mask) == 1 + Tz(mask / 2) && OddPart(mask) == OddPart(mask / 2)
    ensures Pow2(Tz(mask)) == 2 * Pow2(Tz(mask / 2))
  {}

  lemma OddParts(mask: nat)
    requires mask % 2 == 1
    ensures Pow2(Tz(mask)) == 1 && OddPart(mask) == mask
  {}

  lemma {:induction false} Decompose(mask: nat)
    requires mask > 0
    ensures mask == Pow2(Tz(mask)) * OddPart(mask) && OddPart(mask) % 2 == 1
  {
    hide Pow2, Tz, OddPart;
    if mask % 2 == 0 {
      var h := mask / 2;
      Decompose(h);
      HalveEven(mask);
      DoubleProduct(Pow2(Tz(h)), OddPart(h));
      SameProduct(Pow2(Tz(mask)), OddPart(mask), 2 * Pow2(Tz(h)), OddPart(h));
    } else {
      OddParts(mask);
      OneTimes(mask);
      SameProduct(Pow2(Tz(mask)), OddPart(mask), 1, mask);
    }
  }

  lemma {:induction false} DecompositionUnique(t: nat, odd: nat)
    requires odd % 2 == 1
    ensures Tz(Pow2(t) * odd) == t && OddPart(Pow2(t) * odd) == odd
  {
    if t != 0 {
      DecompositionUnique(t - 1, odd);
      assert Pow2(t) * odd == 2 * (Pow2(t - 1) * odd);
    } else {
      assert Pow2(0) * odd == odd;
    }
  }

  lemma {:induction false} AndComplement(x: nat, w: nat)
    requires x < Pow2(w)
    ensures And(x, Pow2(w) - 1 - x) == 0
  {
    if w != 0 {
      AndComplement(x / 2, w - 1);
      var y := Pow2(w) - 1 - x;
      assert y / 2 == Pow2(w - 1) - 1 - x / 2 && (x % 2 == 1 ==> y % 2 == 0);
      AndBits(x, y);
    }
  }

  lemma LowestBitOdd(mask: nat, w: nat)
    requires 0 < mask < Pow2(w) && mask % 2 == 1
    ensures And(mask, Pow2(w) - mask) == 1
  {
    hide And;
    var y := Pow2(w) - mask;
    AndBits(mask, y);
    assert mask / 2 < Pow2(w - 1) && y / 2 == Pow2(w - 1) - 1 - mask / 2 && y % 2 == 1;
    AndComplement(mask / 2, w - 1);
  }

  /** Two's-complement negation isolates the lowest set bit. */
  lemma {:induction false} LowestBitIs(mask: nat, w: nat)
    requires 0 < mask < Pow2(w)
    ensures And(mask, Pow2(w) - mask) == Pow2(Tz(mask))
  {
    hide And;
    if mask % 2 == 1 {
      LowestBitOdd(mask, w);
      OddParts(mask);
    } else {
      var y := Pow2(w) - mask;
      AndBits(mask, y);
      LowestBitIs(mask / 2, w - 1);
      assert y / 2 == Pow2(w - 1) - mask / 2 && y % 2 == 0;
      HalveEven(mask);
    }
  }

  lemma Pow2At32()
    ensures Pow2(32) == U32
  {
    assert Pow2(8) == 256;
    Pow2Splits(8, 8);
    Pow2Splits(16, 16);
  }

  lemma LowestBitExact(mask: nat)
    requires 0 < mask < U32
    ensures LowestBit(mask) == Pow2(Tz(mask)) && mask / LowestBit(mask) == OddPart(mask)
  {
    hide And, Pow2, Tz, OddPart;
    Pow2At32();
    LowestBitIs(mask, 32);
    Decompose(mask);
    ExactQuotient(Pow2(Tz(mask)), OddPart(mask));
  }

  lemma ExactQuotient(p: nat, q: nat)
    requires p > 0
    ensures p * q / p == q
  {
    DivOfBlock(q, 0, p);
    assert q * p + 0 == p * q;
  }

  function Pow16(n: nat): (r: nat)
    ensures r > 0
  {
    if n == 0 then 1 else 16 * Pow16(n - 1)
  }

  lemma {:induction false} Pow16IsPow2(n: nat)
    ensures Pow16(n) == Pow2(4 * n)
  {
    if n != 0 {
      Pow16IsPow2(n - 1);
      assert Pow2(4) == 16;
      Pow2Splits(4, 4 * (n - 1));
    }
  }

  predicate AllF(n: nat)
  {
    n == 0 || (n % 16 == 15 && AllF(n / 16))
  }

  lemma {:induction false} AllFIs(n: nat) returns (k: nat)
    requires AllF(n)
    ensures n == Pow16(k) - 1
  {
    if n == 0 { k := 0; } else {
      k := AllFIs(n / 16);
      k := k + 1;
    }
  }

  lemma {:induction false} AllFOf(k: nat)
    ensures AllF(Pow16(k) - 1)
  {
    if k != 0 {
      AllFOf(k - 1);
      var n := Pow16(k) - 1;
      assert n == 16 * (Pow16(k - 1) - 1) + 15;
    }
  }

  lemma LowNibble(n: nat)
    ensures And(n, 15) == n % 16
  {
    AndLowMask(n, 4);
    assert Pow2(4) == 16;
  }

  /** One or more consecutive hex digits F, aligned to a digit. */
  predicate NibbleMask(mask: nat, a: nat, k: nat)
  {
    k >= 1 && mask == Pow16(a) * (Pow16(k) - 1)
  }

  method HasConsecutiveFullFNibbles(normalized: nat) returns (ok: bool)
    ensures ok <==> normalized != 0 && AllF(normalized)
  {
    if normalized == 0 { return false; }
    var n := normalized;
    while n != 0
      invariant AllF(normalized) == AllF(n)
    {
      LowNibble(n);
      if And(n, 0xF) != 0xF { return false; }
      n := n / 16;
    }
    return true;
  }

  datatype MaskError = Zero | Misaligned | NotFullNibbles

  /** `validate_fwmark_mask`: accepted masks are exactly 16^a * (16^k - 1) with k >= 1. */
  method ValidateFwmarkMask(mask: nat) returns (r: Result<(), MaskError>)
    requires mask < U32
    ensures r.Ok? <==> exists a: nat, k: nat :: NibbleMask(mask, a, k)
    ensures r == Err(Zero) <==> mask == 0
    ensures r == Err(Misaligned) <==> mask != 0 && Tz(mask) % 4 != 0
  {
    if mask == 0 {
      forall a: nat, k: nat | NibbleMask(mask, a, k) ensures false { NibbleMaskPositive(mask, a, k); }
      return Err(Zero);
    }
    LowestBitExact(mask);
    var tmp, bitPos := LowestBit(mask), 0;
    while tmp > 1
      invariant bitPos <= Tz(mask) && tmp == Pow2(Tz(mask) - bitPos)
    {
      tmp := tmp / 2;
      bitPos := bitPos + 1;
    }
    AcceptedExactly(mask);
    if bitPos % 4 != 0 { return Err(Misaligned); }
    var full := HasConsecutiveFullFNibbles(mask / LowestBit(mask));
    r := if full then Ok(()) else Err(NotFullNibbles);
  }

  lemma NibbleMaskPositive(mask: nat, a: nat, k: nat)
    requires NibbleMask(mask, a, k)
    ensures mask > 0
  {
    assert Pow16(k) - 1 >= 15;
    MulMono(1, Pow16(k) - 1, Pow16(a));
  }

  predicate Accepts(mask: nat)
  {
    mask != 0 && Tz(mask) % 4 == 0 && AllF(OddPart(mask))
  }

  lemma NibbleMaskAccepted(mask: nat, a: nat, k: nat)
    requires NibbleMask(mask, a, k)
    ensures Accepts(mask) && Tz(mask) == 4 * a && OddPart(mask) == Pow16(k) - 1
  {
    hide Pow16, Pow2, Tz, OddPart, AllF;
    NibbleMaskPositive(mask, a, k);
    Pow16IsPow2(a);
    OddBelowPower(k);
    DecompositionUnique(4 * a, Pow16(k) - 1);
    SameProduct(Pow16(a), Pow16(k) - 1, Pow2(4 * a), Pow16(k) - 1);
    AllFOf(k);
  }

  lemma TwiceAndOne(m: nat)
    ensures (2 * m + 1) / 2 == m && (2 * m + 1) % 2 == 1
  {
    DivOfBlock(m, 1, 2);
    ModOfBlock(m, 1, 2);
  }

  lemma OddBelowMultiple(x: nat)
    requires x > 0
    ensures (16 * x - 1) % 2 == 1
  {
    TwiceAndOne(8 * x - 1);
  }

  lemma Pow16Steps(k: nat)
    requires k >= 1
    ensures Pow16(k) == 16 * Pow16(k - 1)
  {}

  lemma OddBelowPower(k: nat)
    requires k >= 1
    ensures (Pow16(k) - 1) % 2 == 1
  {
    hide Pow16;
    Pow16Steps(k);
    OddBelowMultiple(Pow16(k - 1));
  }

  lemma AcceptedExactly(mask: nat)
    requires mask > 0
    ensures Accepts(mask) <==> exists a: nat, k: nat :: NibbleMask(mask, a, k)
  {
    if Accepts(mask) {
      var k := AllFIs(OddPart(mask));
      Decompose(mask);
      Pow16IsPow2(Tz(mask) / 4);
      assert NibbleMask(mask, Tz(mask) / 4, k);
    }
    if a: nat, k: nat :| NibbleMask(mask, a, k) { NibbleMaskAccepted(mask, a, k); }
  }

  /** Marks a mask leaves room for; the full 32-bit mask wraps to none. */
  function Capacity(mask: nat): (r: nat)
    requires 0 < mask < U32
    ensures r < U32
  {
    LowestBitExact(mask);
    (mask / LowestBit(mask) + 1) % U32
  }

  // ---------------------------------------------------------------- distinct marks

  lemma Pow2Step(w: nat)
    requires w > 0
    ensures Pow2(w) == 2 * Pow2(w - 1) && Pow2(w - 1) > 0
  {}

  lemma AndNothing(x: nat)
    ensures And(x, Pow2(0) - 1) == x % Pow2(0)
  {
    assert Pow2(0) == 1 && x % 1 == 0;
    assert And(x, 0) == 0;
  }

  lemma {:induction false} AndLowMask(x: nat, w: nat)
    ensures And(x, Pow2(w) - 1) == x % Pow2(w)
  {
    hide And, Pow2;
    if w == 0 {
      AndNothing(x);
    } else {
      var m, p := Pow2(w) - 1, Pow2(w - 1);
      Pow2Step(w);
      AndLowMask(x / 2, w - 1);
      TwiceAndOne(p - 1);
      assert m == 2 * (p - 1) + 1;
      LowBits(x, m, p);
      HalfMod(x, p);
    }
  }

  lemma LowBits(x: nat, m: nat, p: nat)
    requires p > 0 && m / 2 == p - 1 && m % 2 == 1 && And(x / 2, p - 1) == x / 2 % p
    ensures And(x, m) == 2 * (x / 2 % p) + x % 2
  {
    hide And;
    AndBits(x, m);
  }

  lemma HalfMod(x: nat, p: nat)
    requires p > 0
    ensures x % (2 * p) == 2 * (x / 2 % p) + x % 2
  {
    var q, r := x / 2 / p, x / 2 % p;
    assert x / 2 == q * p + r;
    assert x == q * (2 * p) + (2 * r + x % 2);
    ModOfBlock(q, 2 * r + x % 2, 2 * p);
  }

  lemma ModOfBlock(q: nat, r: nat, size: nat)
    requires r < size
    ensures (q * size + r) % size == r
  {
    DivOfBlock(q, r, size);
    var x := q * size + r;
    assert x == x / size * size + x % size;
  }

  /** `n - 1` shifted up by the power of two `p`. */
  function ShiftedMask(p: nat, n: nat): nat
    requires n > 0
  {
    p * (n - 1)
  }

  /** The bits under an aligned mask. */
  lemma {:induction false} AndShiftedMask(x: nat, t: nat, w: nat)
    ensures And(x, ShiftedMask(Pow2(t), Pow2(w))) == Pow2(t) * (x / Pow2(t) % Pow2(w))
  {
    hide And, Pow2;
    if t == 0 {
      ShiftNone(x, w);
    } else {
      AndShiftedMask(x / 2, t - 1, w);
      Pow2Steps(t);
      ShiftStep(x, Pow2(t), Pow2(t - 1), Pow2(w));
    }
  }

  lemma ShiftNone(x: nat, w: nat)
    ensures And(x, ShiftedMask(Pow2(0), Pow2(w))) == Pow2(0) * (x / Pow2(0) % Pow2(w))
  {
    hide And, Pow2;
    var n := Pow2(w);
    AndLowMask(x, w);
    Pow2Steps(0);
    OneTimes(n - 1);
    OneTimes(x % n);
    assert x / 1 == x;
  }

  lemma OneTimes(x: nat)
    ensures 1 * x == x
  {}

  lemma Pow2Steps(t: nat)
    ensures Pow2(t) == if t == 0 then 1 else 2 * Pow2(t - 1)
  {}

  lemma ShiftStep(x: nat, s: nat, p: nat, n: nat)
    requires p > 0 && n > 0 && s == 2 * p && And(x / 2, ShiftedMask(p, n)) == p * (x / 2 / p % n)
    ensures And(x, ShiftedMask(s, n)) == s * (x / s % n)
  {
    hide And, ShiftedMask;
    DoubleMask(p, n);
    AndBits(x, ShiftedMask(s, n));
    DivDiv(x, 2, p);
    DoubleProduct(p, x / 2 / p % n);
  }

  lemma DoubleMask(p: nat, n: nat)
    requires n > 0
    ensures ShiftedMask(2 * p, n) == 2 * ShiftedMask(p, n)
  {
    DoubleProduct(p, n - 1);
  }

  lemma DoubleProduct(p: nat, v: nat)
    ensures 2 * p * v == 2 * (p * v)
  {}

  lemma DivMod(x: nat, a: nat)
    requires a > 0
    ensures x == a * (x / a) + x % a && x % a < a
  {}

  lemma SplitBlock(a: nat, b: nat, q: nat, r1: nat, r2: nat)
    ensures a * (b * q + r2) + r1 == q * (a * b) + (a * r2 + r1)
  {}

  lemma BlockBound(a: nat, b: nat, r1: nat, r2: nat)
    requires r1 < a && r2 < b
    ensures a * r2 + r1 < a * b
  {
    MulMono(r2 + 1, b, a);
    assert (r2 + 1) * a == a * r2 + a && b * a == a * b;
  }

  lemma DivDiv(x: nat, a: nat, b: nat)
    requires a > 0 && b > 0
    ensures a * b > 0 && x / a / b == x / (a * b)
  {
    var y := x / a;
    var q, r1, r2 := y / b, x % a, y % b;
    DivMod(x, a);
    DivMod(y, b);
    SameProduct(a, y, a, b * q + r2);
    SplitBlock(a, b, q, r1, r2);
    BlockBound(a, b, r1, r2);
    DivOfBlock(q, a * r2 + r1, a * b);
  }

  lemma DivAddMultiple(q: nat, y: nat, n: nat)
    requires n > 0
    ensures (q * n + y) / n == q + y / n && (q * n + y) % n == y % n
  {
    var a, r := y / n, y % n;
    assert y == a * n + r;
    assert q * n + y == (q + a) * n + r;
    DivOfBlock(q + a, r, n);
    ModOfBlock(q + a, r, n);
  }

  lemma Regroup(q: nat, step: nat, n: nat, m: nat)
    ensures q * (step * n * m) == q * m * n * step
  {
    var a := n * m;
    assert step * n * m == step * a;
    assert q * (step * a) == q * a * step;
    assert q * (n * m) == q * m * n;
  }

  lemma DivAfterWrap(x: nat, step: nat, n: nat, m: nat)
    requires step > 0 && n > 0 && m > 0
    ensures step * n * m > 0 && x % (step * n * m) / step % n == x / step % n
  {
    MulMono(1, n, step);
    MulMono(1, m, step * n);
    var total := step * n * m;
    var q, r := x / total, x % total;
    var k := q * m * n;
    assert x == q * total + r;
    Regroup(q, step, n, m);
    DivAddMultiple(k, r, step);
    DivAddMultiple(q * m, r / step, n);
  }

  lemma QuotientsApart(x: nat, y: nat, n: nat, p: nat, q: nat, r: nat, a: nat, b: nat)
    requires x == p + r && y == q + r && x < y && (b <= a ==> q <= p) && (a < b ==> p + n <= q)
    ensures x + n <= y
  {}

  lemma ProductsApart(a: nat, b: nat, n: nat)
    ensures b <= a ==> n * b <= n * a
    ensures a < b ==> n * a + n <= n * b
  {
    MulMono(b, a, n);
    MulMono(a + 1, b, n);
    assert (a + 1) * n == n * a + n;
  }

  lemma SameRemainderApart(x: nat, y: nat, n: nat)
    requires n > 0 && x < y && x % n == y % n
    ensures x + n <= y
  {
    var a, b, r := x / n, y / n, x % n;
    DivMod(x, n);
    DivMod(y, n);
    ProductsApart(a, b, n);
    QuotientsApart(x, y, n, n * a, n * b, r, a, b);
  }

  lemma ShiftedIndexDiffers(s: nat, i: nat, j: nat, n: nat)
    requires i < j < i + n
    ensures (s + i) % n != (s + j) % n
  {
    if (s + i) % n == (s + j) % n {
      SameRemainderApart(s + i, s + j, n);
    }
  }

  /** The i-th mark: `start` stepped by the mask's lowest bit, wrapping at 32 bits. */
  function MarkAt(start: nat, step: nat, i: nat): nat { (start + i * step) % U32 }

  lemma NibbleIsShifted(mask: nat, a: nat, k: nat)
    requires NibbleMask(mask, a, k)
    ensures mask == ShiftedMask(Pow2(4 * a), Pow2(4 * k))
    ensures Pow16(a) == Pow2(4 * a) && Pow16(k) == Pow2(4 * k)
  {
    hide Pow2, Pow16;
    Pow16IsPow2(a);
    Pow16IsPow2(k);
    SameProduct(Pow16(a), Pow16(k) - 1, Pow2(4 * a), Pow2(4 * k) - 1);
  }

  /** Any two of the first 16^k marks differ under the mask, also across the wrap. */
  lemma MarksDiffer(mask: nat, a: nat, k: nat, start: nat, i: nat, j: nat)
    requires NibbleMask(mask, a, k) && a + k <= 8 && i < j < Pow16(k)
    ensures And(MarkAt(start, Pow16(a), i), mask) != And(MarkAt(start, Pow16(a), j), mask)
  {
    hide And, Pow2, MarkAt, Pow16, NibbleMask, ShiftedMask;
    NibbleIsShifted(mask, a, k);
    var step, n := Pow2(4 * a), Pow2(4 * k);
    MarkUnderMask(4 * a, 4 * k, start, i);
    MarkUnderMask(4 * a, 4 * k, start, j);
    ShiftedIndexDiffers(start / step, i, j, n);
    CancelStep((start / step + i) % n, (start / step + j) % n, step);
  }

  lemma CancelStep(x: nat, y: nat, step: nat)
    requires step > 0 && x != y
    ensures step * x != step * y
  {
    MulMono(x + 1, y, step);
    MulMono(y + 1, x, step);
    assert (x + 1) * step == step * x + step && (y + 1) * step == step * y + step;
  }

  lemma MarkUnderMask(t: nat, w: nat, start: nat, i: nat)
    requires t + w <= 32
    ensures And(MarkAt(start, Pow2(t), i), ShiftedMask(Pow2(t), Pow2(w))) ==
            Pow2(t) * ((start / Pow2(t) + i) % Pow2(w))
  {
    hide And, Pow2;
    var step, n, m := Pow2(t), Pow2(w), Pow2(32 - t - w);
    WordSplits(t, w);
    var x := start + i * step;
    AndShiftedMask(x % U32, t, w);
    DivAfterWrap(x, step, n, m);
    DivAddMultiple(i, start, step);
    assert x == i * step + start;
  }

  lemma WordSplits(t: nat, w: nat)
    requires t + w <= 32
    ensures Pow2(t) * Pow2(w) * Pow2(32 - t - w) == U32
  {
    hide Pow2;
    Pow2At32();
    Pow2Splits(t, w);
    Pow2Splits(t + w, 32 - t - w);
  }

  lemma {:induction false} Pow2Grows(a: nat, b: nat)
    requires a < b
    ensures 2 * Pow2(a) <= Pow2(b)
  {
    if a + 1 < b { Pow2Grows(a, b - 1); }
  }

  lemma MaskWidth(mask: nat, a: nat, k: nat)
    requires NibbleMask(mask, a, k) && mask < U32
    ensures a + k <= 8
  {
    hide Pow2, Pow16;
    Pow2At32();
    Pow16IsPow2(a);
    Pow16IsPow2(k);
    Pow2Splits(4 * a, 4 * k);
    var x, y := Pow2(4 * a), Pow2(4 * k);
    Pow2Grows(0, 4 * k);
    assert Pow2(0) >= 1 && y >= 2;
    MulMono(2, y, x);
    assert mask == x * (y - 1) == x * y - x;
    assert 2 * mask >= Pow2(4 * a + 4 * k);
    if a + k > 8 {
      Pow2Grows(32, 33);
      Pow2Grows(33, 4 * a + 4 * k);
    }
  }

  lemma CapacityIs(mask: nat, a: nat, k: nat)
    requires NibbleMask(mask, a, k) && mask < U32
    ensures mask > 0 && LowestBit(mask) == Pow16(a)
    ensures Capacity(mask) == if k == 8 then 0 else Pow16(k)
  {
    NibbleMaskAccepted(mask, a, k);
    MaskWidth(mask, a, k);
    LowestBitExact(mask);
    Pow16IsPow2(a);
    Pow16IsPow2(k);
    Pow2At32();
    if k < 8 { Pow2Grows(4 * k, 32); }
  }

  lemma CapacityBound(mask: nat)
    requires Accepts(mask) && mask < U32
    ensures Capacity(mask) <= 0x1000_0000
  {
    hide LowestBit, Capacity, Pow2, Tz, OddPart;
    AcceptedExactly(mask);
    var a: nat, k: nat :| NibbleMask(mask, a, k);
    CapacityIs(mask, a, k);
    MaskWidth(mask, a, k);
    Pow16IsPow2(k);
    Pow16IsPow2(7);
    assert Pow16(7) == 0x1000_0000;
    if k < 7 { Pow2Grows(4 * k, 28); }
  }

  /** The full mask passes validation, but its capacity wraps to zero: no routable
      outbound can be given a mark. */
  lemma FullMaskHasNoRoom()
    ensures Accepts(0xFFFF_FFFF) && Capacity(0xFFFF_FFFF) == 0
  {
    hide LowestBit, Capacity, Tz, OddPart, AllF;
    Pow16IsPow2(8);
    Pow2At32();
    assert NibbleMask(0xFFFF_FFFF, 0, 8);
    CapacityIs(0xFFFF_FFFF, 0, 8);
    AcceptedExactly(0xFFFF_FFFF);
  }

  // ---------------------------------------------------------------- allocation

  datatype OutboundType = INTERFACE | TABLE | URLTEST | BLACKHOLE | IGNORE

  predicate Routable(t: OutboundType) { t == INTERFACE || t == TABLE || t == URLTEST }

  const DETOUR_PREFIX := "__keen_pbr_internal_detour__:"

  function DetourKey(tag: string): string { DETOUR_PREFIX + tag }

  type MarkMap = map<string, nat>

  /** Distinct keys carry marks that differ under the mask. */
  ghost predicate DistinctUnderMask(marks: MarkMap, mask: nat)
  {
    forall x, y :: x in marks && y in marks && x != y ==> And(marks[x], mask) != And(marks[y], mask)
  }

  /** The map after the loop over sorted tags: each tag and its detour key take the
      next two marks, later entries overwriting earlier ones. */
  function MarkMapOf(start: nat, step: nat, tags: seq<string>): (r: MarkMap)
  {
    if tags == [] then map[]
    else
      var n := |tags| - 1;
      MarkMapOf(start, step, tags[..n])
        [tags[n] := MarkAt(start, step, 2 * n)][DetourKey(tags[n]) := MarkAt(start, step, 2 * n + 1)]
  }

  function TagsOf(outbounds: seq<(string, OutboundType)>): seq<string>
  {
    if outbounds == [] then []
    else (if Routable(outbounds[0].1) then [outbounds[0].0] else []) + TagsOf(outbounds[1..])
  }

  function SortedTags(outbounds: seq<(string, OutboundType)>): seq<string>
  {
    Sort(TagsOf(outbounds), StringLe)
  }

  /** Every key of `marks` holds the mark at its own position below `n`. */
  ghost predicate Placed(marks: MarkMap, pos: map<string, nat>, at: nat -> nat, n: nat)
  {
    && pos.Keys == marks.Keys
    && (forall x :: x in pos ==> pos[x] < n && marks[x] == at(pos[x]))
    && (forall x, y :: x in pos && y in pos && x != y ==> pos[x] != pos[y])
  }

  lemma PlaceOne(marks: MarkMap, pos: map<string, nat>, at: nat -> nat, n: nat, key: string)
    requires Placed(marks, pos, at, n)
    ensures Placed(marks[key := at(n)], pos[key := n], at, n + 1)
  {}

  /** Every entry of the map is one of the first 2 * |tags| marks, different keys using
      different positions. */
  lemma {:induction false} MarkPositions(start: nat, step: nat, tags: seq<string>) returns (pos: map<string, nat>)
    ensures Placed(MarkMapOf(start, step, tags), pos, i => MarkAt(start, step, i), 2 * |tags|)
  {
    hide MarkAt, DetourKey, Placed;
    var at := (i: nat) => MarkAt(start, step, i);
    if tags == [] {
      pos := map[];
      NonePlaced(at);
    } else {
      var n := |tags| - 1;
      var before := MarkPositions(start, step, tags[..n]);
      var marks := MarkMapOf(start, step, tags[..n]);
      PlaceOne(marks, before, at, 2 * n, tags[n]);
      PlaceOne(marks[tags[n] := at(2 * n)], before[tags[n] := 2 * n], at, 2 * n + 1, DetourKey(tags[n]));
      pos := before[tags[n] := 2 * n][DetourKey(tags[n]) := 2 * n + 1];
    }
  }

  lemma NonePlaced(at: nat -> nat)
    ensures Placed(map[], map[], at, 0)
  {}

  /** Exactly the routable tags and their detour keys receive a mark. */
  lemma {:induction false} MarkKeys(start: nat, step: nat, tags: seq<string>)
    ensures forall x :: x in MarkMapOf(start, step, tags) <==> x in tags || exists t :: t in tags && x == DetourKey(t)
  {
    if tags != [] {
      var n := |tags| - 1;
      MarkKeys(start, step, tags[..n]);
      assert tags == tags[..n] + [tags[n]];
    }
  }

  /** Every accepted allocation gives marks that are pairwise distinct under the mask. */
  lemma AllocationDistinct(mask: nat, start: nat, tags: seq<string>)
    requires Accepts(mask) && mask < U32 && (tags == [] || 2 * |tags| <= Capacity(mask))
    ensures DistinctUnderMask(MarkMapOf(start, LowestBit(mask), tags), mask)
  {
    AcceptedExactly(mask);
    var a: nat, k: nat :| NibbleMask(mask, a, k);
    CapacityIs(mask, a, k);
    MaskWidth(mask, a, k);
    var marks := MarkMapOf(start, LowestBit(mask), tags);
    var pos := MarkPositions(start, LowestBit(mask), tags);
    forall x, y | x in marks && y in marks && x != y ensures And(marks[x], mask) != And(marks[y], mask) {
      if pos[x] < pos[y] {
        MarksDiffer(mask, a, k, start, pos[x], pos[y]);
      } else {
        MarksDiffer(mask, a, k, start, pos[y], pos[x]);
      }
    }
  }

  /** The tag-to-mark map does not depend on the order of the outbounds. */
  lemma AllocationIgnoresOrder(start: nat, step: nat, a: seq<(string, OutboundType)>, b: seq<(string, OutboundType)>)
    requires multiset(TagsOf(a)) == multiset(TagsOf(b))
    ensures MarkMapOf(start, step, SortedTags(a)) == MarkMapOf(start, step, SortedTags(b))
  {
    StringLeIsTotalOrder();
    SortIgnoresOrder(TagsOf(a), TagsOf(b), StringLe);
  }

  datatype AllocError = BadMask(error: MaskError) | TooManyOutbounds

  /** `allocate_outbound_marks` */
  method AllocateOutboundMarks(mask: nat, start: nat, outbounds: seq<(string, OutboundType)>)
    returns (r: Result<MarkMap, AllocError>)
    requires mask < U32 && start < U32
    ensures r.Ok? <==> Accepts(mask) && (TagsOf(outbounds) == [] || 2 * |TagsOf(outbounds)| <= Capacity(mask))
    ensures r.Ok? ==> r.value == MarkMapOf(start, LowestBit(mask), SortedTags(outbounds))
    ensures r.Ok? ==> DistinctUnderMask(r.value, mask)
  {
    hide And, Tz, OddPart, AllF, LowestBit, Capacity, Accepts, MarkMapOf;
    var valid := ValidateFwmarkMask(mask);
    if mask > 0 { AcceptedExactly(mask); } else { ZeroRefused(); }
    if valid.Err? { return Err(BadMask(valid.error)); }
    CapacityBound(mask);
    var tags := RoutableTags(outbounds);
    tags := Sort(tags, StringLe);
    r := AssignMarks(start, LowestBit(mask), Capacity(mask), tags);
    if r.Ok? { AllocationDistinct(mask, start, tags); }
  }

  method RoutableTags(outbounds: seq<(string, OutboundType)>) returns (tags: seq<string>)
    ensures tags == TagsOf(outbounds)
  {
    hide TagsOf;
    tags := [];
    assert outbounds[0..] == outbounds && [] + TagsOf(outbounds) == TagsOf(outbounds);
    for i := 0 to |outbounds|
      invariant TagsOf(outbounds) == tags + TagsOf(outbounds[i..])
    {
      TagsStep(outbounds, i);
      ghost var rest := TagsOf(outbounds[i + 1..]);
      assert tags + ([outbounds[i].0] + rest) == tags + [outbounds[i].0] + rest;
      if Routable(outbounds[i].1) { tags := tags + [outbounds[i].0]; }
    }
    NoTags();
    assert outbounds[|outbounds|..] == [];
  }

  lemma TagsStep(outbounds: seq<(string, OutboundType)>, i: nat)
    requires i < |outbounds|
    ensures TagsOf(outbounds[i..]) ==
            if Routable(outbounds[i].1) then [outbounds[i].0] + TagsOf(outbounds[i + 1..])
            else TagsOf(outbounds[i + 1..])
  {
    assert outbounds[i..][1..] == outbounds[i + 1..];
    assert [] + TagsOf(outbounds[i + 1..]) == TagsOf(outbounds[i + 1..]);
  }

  lemma NoTags()
    ensures TagsOf([]) == []
  {}

  lemma NoWrapBelow(n: nat)
    requires n < U32
    ensures n % U32 == n
  {}

  lemma FirstMark(start: nat, step: nat)
    requires start < U32
    ensures MarkAt(start, step, 0) == start && MarkMapOf(start, step, []) == map[]
  {
    assert 0 * step == 0;
  }

  lemma MarkMapStep(start: nat, step: nat, tags: seq<string>, i: nat)
    requires i < |tags|
    ensures MarkMapOf(start, step, tags[..i + 1]) ==
            MarkMapOf(start, step, tags[..i])
              [tags[i] := MarkAt(start, step, 2 * i)]
              [DetourKey(tags[i]) := MarkAt(start, step, 2 * i + 1)]
  {
    hide MarkAt, DetourKey;
    assert tags[..i + 1][..i] == tags[..i];
  }

  method AssignMarks(start: nat, step: nat, maxMarks: nat, tags: seq<string>) returns (r: Result<MarkMap, AllocError>)
    requires start < U32 && maxMarks <= 0x1000_0000
    ensures r.Ok? <==> tags == [] || 2 * |tags| <= maxMarks
    ensures r.Ok? ==> r.value == MarkMapOf(start, step, tags)
  {
    hide MarkAt, MarkMapOf, DetourKey;
    var marks: MarkMap := map[];
    var current, count := start, 0;
    FirstMark(start, step);
    for i := 0 to |tags|
      invariant count == 2 * i && (i == 0 || count <= maxMarks)
      invariant current == MarkAt(start, step, count)
      invariant marks == MarkMapOf(start, step, tags[..i])
    {
      NoWrapBelow(count + 2);
      if (count + 2) % U32 > maxMarks { return Err(TooManyOutbounds); }
      NextMark(start, step, count);
      NextMark(start, step, count + 1);
      MarkMapStep(start, step, tags, i);
      marks := marks[tags[i] := current];
      current := (current + step) % U32;
      marks := marks[DetourKey(tags[i]) := current];
      current := (current + step) % U32;
      count := count + 2;
    }
    assert tags[..|tags|] == tags;
    r := Ok(marks);
  }

  lemma ZeroRefused()
    ensures !Accepts(0)
  {}

  lemma NextMark(start: nat, step: nat, i: nat)
    ensures (MarkAt(start, step, i) + step) % U32 == MarkAt(start, step, i + 1)
  {
    var x := start + i * step;
    assert (i + 1) * step == i * step + step;
    assert x == x / U32 * U32 + x % U32;
    assert (x + step) % U32 == (x % U32 + step) % U32;
  }
}
