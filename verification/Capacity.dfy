/**
 How the queue's constructor rounds its capacity, bit by bit: a machine word is its 64 bits, the
 least significant first.
 */
module Capacity {
  import opened Arithmetic

  const WIDTH: nat := 64
  const INT_MAX: nat := 0x7FFF_FFFF

  type Bits = seq<bool>

  function Pow2(k: nat): (p: nat)
    ensures p > 0
  {
    if k == 0 then 1 else 2 * Pow2(k - 1)
  }

  function Value(b: Bits): (n: nat)
    ensures n < Pow2(|b|)
  {
    if b == [] then 0 else (if b[0] then 1 else 0) + 2 * Value(b[1..])
  }

  function ToBits(n: nat, width: nat): (b: Bits)
    ensures |b| == width
  {
    if width == 0 then [] else [n % 2 == 1] + ToBits(n / 2, width - 1)
  }

  function Or(a: Bits, b: Bits): (r: Bits)
    requires |a| == |b|
    ensures |r| == |a| && forall j | 0 <= j < |r| :: r[j] == (a[j] || b[j])
  {
    seq(|a|, j requires 0 <= j < |a| => a[j] || b[j])
  }

  function And(a: Bits, b: Bits): (r: Bits)
    requires |a| == |b|
    ensures |r| == |a| && forall j | 0 <= j < |r| :: r[j] == (a[j] && b[j])
  {
    seq(|a|, j requires 0 <= j < |a| => a[j] && b[j])
  }

  function ShiftRight(a: Bits, i: nat): (r: Bits)
    ensures |r| == |a| && forall j | 0 <= j < |r| :: r[j] == (j + i < |a| && a[j + i])
  {
    seq(|a|, j requires 0 <= j < |a| => j + i < |a| && a[j + i])
  }

  // ---------------------------------------------------------------- words and numbers

  lemma {:induction false} ValueOfBits(n: nat, width: nat)
    requires n < Pow2(width)
    ensures Value(ToBits(n, width)) == n
  {
    if width > 0 {
      ValueOfBits(n / 2, width - 1);
      assert ToBits(n, width)[1..] == ToBits(n / 2, width - 1);
    }
  }

  /** The bits below place `k` are set and the others are not. */
  predicate Ones(b: Bits, k: nat) {
    k <= |b| && forall j | 0 <= j < |b| :: b[j] == (j < k)
  }

  lemma {:induction false} OnesValue(b: Bits, k: nat)
    requires Ones(b, k)
    ensures Value(b) == Pow2(k) - 1
  {
    if b != [] {
      assert forall j | 0 <= j < |b[1..]| :: b[1..][j] == b[j + 1];
      if k > 0 {
        OnesValue(b[1..], k - 1);
      } else {
        assert Ones(b[1..], 0);
        OnesValue(b[1..], 0);
      }
    }
  }

  /** A word whose highest set bit is at place `k - 1` lies between two powers of two. */
  lemma {:induction false} HighestBit(b: Bits, k: nat)
    requires k <= |b| && (forall j | k <= j < |b| :: !b[j]) && (k > 0 ==> b[k - 1])
    ensures Value(b) < Pow2(k) && (k > 0 ==> Pow2(k - 1) <= Value(b))
  {
    if b != [] {
      assert forall j | 0 <= j < |b[1..]| :: b[1..][j] == b[j + 1];
      HighestBit(b[1..], if k > 0 then k - 1 else 0);
    }
  }

  function Top(b: Bits): (k: nat)
    ensures k <= |b| && (forall j | k <= j < |b| :: !b[j]) && (k > 0 ==> b[k - 1])
  {
    if b == [] then 0 else if b[|b| - 1] then |b| else Top(b[..|b| - 1])
  }

  lemma Pow2Monotone(a: nat, b: nat)
    requires a <= b
    ensures Pow2(a) <= Pow2(b)
  {
  }

  // ---------------------------------------------------------------- the constructor's loop

  /** Bit `j` is set when some bit from `j` to `j + span - 1` of the word was. */
  ghost predicate Spread(m: Bits, span: nat, r: Bits) {
    && |r| == |m|
    && forall j | 0 <= j < |m| :: r[j] <==> exists d :: j <= d < j + span && d < |m| && m[d]
  }

  lemma SpreadStep(m: Bits, i: nat, r: Bits)
    requires Spread(m, i, r)
    ensures Spread(m, 2 * i, Or(r, ShiftRight(r, i)))
  {
  }

  lemma SpreadAll(m: Bits, span: nat, r: Bits)
    requires Spread(m, span, r) && |m| <= span
    ensures Ones(r, Top(m))
  {
  }

  /** `p` is the least power of two that is not below `n`. */
  ghost predicate LeastPower(p: nat, n: nat) {
    n <= p && exists k: nat :: p == Pow2(k) && (k > 0 ==> Pow2(k - 1) < n)
  }

  /** Unsigned arithmetic wraps around. */
  function Wrap(n: nat, width: nat): (r: nat)
    ensures r < Pow2(width)
  {
    n % Pow2(width)
  }

  lemma SpreadSelf(m: Bits)
    ensures Spread(m, 1, m)
  {
  }

  /** The shift-or loop: every bit below the highest one becomes set. */
  method SetBelow(word: Bits) returns (mask: Bits)
    requires |word| == WIDTH
    ensures |mask| == WIDTH && Ones(mask, Top(word))
  {
    mask := word;
    SpreadSelf(word);
    var i := 1;
    while i <= 32
      invariant i == 1 || i == 2 || i == 4 || i == 8 || i == 16 || i == 32 || i == 64
      invariant Spread(word, i, mask) && |mask| == WIDTH
      decreases 64 - i
    {
      SpreadStep(word, i, mask);
      mask := Or(mask, ShiftRight(mask, i));
      i := 2 * i;
    }
    SpreadAll(word, i, mask);
  }

  lemma WrapSmall(n: nat, width: nat)
    requires n < Pow2(width)
    ensures Wrap(n, width) == n == Wrap(n + Pow2(width), width)
  {
    ModUnique(n, Pow2(width), 0, n);
    ModUnique(n + Pow2(width), Pow2(width), 1, n);
  }

  lemma WrapFull(width: nat)
    ensures Wrap(Pow2(width), width) == 0
  {
  }

  lemma RoundedRight(width: nat, capacity: nat, bits: Bits, mask: Bits)
    requires width > 0 && capacity < Pow2(width)
    requires bits == ToBits(Wrap(capacity + Pow2(width) - 1, width), width) && Ones(mask, Top(bits)) && |mask| == width
    ensures var rounded := Wrap(Value(mask) + 1, width);
            if 1 <= capacity <= Pow2(width - 1) then LeastPower(rounded, capacity) && Value(mask) == rounded - 1
            else rounded == 0
  {
    hide Pow2, Wrap, ToBits, Value;
    var k := Top(bits);
    var n := if capacity == 0 then Pow2(width) - 1 else capacity - 1;
    WrapSmall(n, width);
    ValueOfBits(n, width);
    OnesValue(mask, k);
    HighestBit(bits, k);
    if 1 <= capacity <= Pow2(width - 1) {
      BitsNeeded(n, k, width);
      WrapSmall(Pow2(k), width);
    } else {
      Doubles(width - 1);
      AllBitsNeeded(n, k, width);
      WrapFull(width);
    }
  }

  lemma Doubles(k: nat)
    ensures Pow2(k + 1) == 2 * Pow2(k)
  {
  }

  /** A word with its highest bit set is spread over the whole width. */
  lemma AllBitsNeeded(n: nat, k: nat, width: nat)
    requires width > 0 && k <= width && n < Pow2(k) && n >= Pow2(width - 1)
    ensures k == width
  {
    if k < width { Pow2Monotone(k, width - 1); }
  }

  lemma BitsNeeded(n: nat, k: nat, width: nat)
    requires width > 0 && k <= width && n < Pow2(width - 1) && (k > 0 ==> Pow2(k - 1) <= n)
    ensures k < width && Pow2(k) < Pow2(width)
  {
  }

  /** The mask and the capacity that the constructor computes from the capacity asked for. */
  method Round(capacity: nat) returns (mask: Bits, rounded: nat)
    requires capacity < Pow2(WIDTH)
    ensures 1 <= capacity <= Pow2(WIDTH - 1) ==> LeastPower(rounded, capacity) && Value(mask) == rounded - 1
    ensures !(1 <= capacity <= Pow2(WIDTH - 1)) ==> rounded == 0
    ensures |mask| == WIDTH && exists k: nat :: k <= WIDTH && Ones(mask, k)
  {
    hide WIDTH, Pow2, Wrap, ToBits, Value;
    var word := ToBits(Wrap(capacity + Pow2(WIDTH) - 1, WIDTH), WIDTH);
    mask := SetBelow(word);
    rounded := Wrap(Value(mask) + 1, WIDTH);
    WidthPositive();
    RoundedRight(WIDTH, capacity, word, mask);
  }

  lemma WidthPositive()
    ensures WIDTH > 0
  {
  }

  // ---------------------------------------------------------------- masking

  /** Masking with a word of `k` ones is taking the remainder by the k-th power of two. */
  lemma {:induction false} MaskIsModulo(t: Bits, mask: Bits, k: nat)
    requires |t| == |mask| && Ones(mask, k)
    ensures Value(And(t, mask)) == Value(t) % Pow2(k)
  {
    var r := And(t, mask);
    if t == [] {
      assert k == 0;
    } else {
      assert r[1..] == And(t[1..], mask[1..]);
      assert forall j | 0 <= j < |mask[1..]| :: mask[1..][j] == mask[j + 1];
      if k == 0 {
        MaskIsModulo(t[1..], mask[1..], 0);
      } else {
        MaskIsModulo(t[1..], mask[1..], k - 1);
        ModStep(Value(t[1..]), if t[0] then 1 else 0, Pow2(k - 1));
      }
    }
  }

  lemma ModStep(v: nat, bit: nat, p: nat)
    requires bit <= 1 && p > 0
    ensures (bit + 2 * v) % (2 * p) == bit + 2 * (v % p)
  {
    var q := v / p;
    assert v == p * q + v % p;
    assert bit + 2 * v == (2 * p) * q + (bit + 2 * (v % p));
    assert bit + 2 * (v % p) < 2 * p;
    ModUnique(bit + 2 * v, 2 * p, q, bit + 2 * (v % p));
  }

  // ---------------------------------------------------------------- the same on numbers

  /** Bitwise `and` of two 64-bit numbers. */
  function Masked(x: nat, mask: nat): nat {
    Value(And(ToBits(x, WIDTH), ToBits(mask, WIDTH)))
  }

  predicate PowerBelow(n: nat, width: nat) {
    exists k: nat :: k < width && n == Pow2(k)
  }

  predicate IsPower(n: nat) {
    PowerBelow(n, WIDTH)
  }

  lemma {:induction false} PowerBits(k: nat, width: nat)
    requires k <= width
    ensures Ones(ToBits(Pow2(k) - 1, width), k)
  {
    if k > 0 {
      var n := Pow2(k) - 1;
      assert n == 1 + 2 * (Pow2(k - 1) - 1);
      assert n / 2 == Pow2(k - 1) - 1 && n % 2 == 1;
      PowerBits(k - 1, width - 1);
      var b := ToBits(n, width);
      assert b == [true] + ToBits(n / 2, width - 1);
    } else {
      NoBits(width);
    }
  }

  lemma NoBits(width: nat)
    ensures Ones(ToBits(0, width), 0)
  {
  }

  /** `x & (len - 1)` is `x % len` for a power of two, which is what the ring queue steps with. */
  lemma MaskedIsModulo(x: nat, len: nat)
    requires x < Pow2(WIDTH) && IsPower(len)
    ensures Masked(x, len - 1) == x % len
  {
    hide Pow2, ToBits, Value, WIDTH;
    var k: nat :| k < WIDTH && len == Pow2(k);
    PowerBits(k, WIDTH);
    MaskIsModulo(ToBits(x, WIDTH), ToBits(len - 1, WIDTH), k);
    ValueOfBits(x, WIDTH);
  }

  /** Masking a number with itself changes nothing. */
  lemma AndSelf(b: Bits)
    ensures And(b, b) == b
  {
  }

  /** `n & (n - 1)` is 0 exactly for the powers of two. */
  lemma {:induction false} PowerTest(n: nat, width: nat)
    requires 0 < n < Pow2(width)
    ensures Value(And(ToBits(n, width), ToBits(n - 1, width))) == 0 <==> PowerBelow(n, width)
  {
    var a, b := ToBits(n, width), ToBits(n - 1, width);
    var r := And(a, b);
    assert r[1..] == And(a[1..], b[1..]);
    if n % 2 == 1 {
      assert (n - 1) / 2 == n / 2;
      AndSelf(a[1..]);
      ValueOfBits(n / 2, width - 1);
      OddPower(n, width);
    } else {
      assert (n - 1) / 2 == n / 2 - 1;
      PowerTest(n / 2, width - 1);
      EvenPower(n, width);
    }
  }

  lemma OddPower(n: nat, width: nat)
    requires 0 < n < Pow2(width) && n % 2 == 1
    ensures n / 2 == 0 <==> PowerBelow(n, width)
  {
  }

  lemma EvenPower(n: nat, width: nat)
    requires 0 < n < Pow2(width) && n % 2 == 0
    ensures PowerBelow(n / 2, width - 1) <==> PowerBelow(n, width)
  {
    if k: nat :| k < width && n == Pow2(k) {
      assert k > 0 && n / 2 == Pow2(k - 1);
    }
    if k: nat :| k < width - 1 && n / 2 == Pow2(k) {
      assert n == Pow2(k + 1);
    }
  }

  lemma PowerFits(n: nat)
    requires IsPower(n)
    ensures 0 < n < Pow2(WIDTH)
  {
    hide Pow2, WIDTH;
    var k: nat :| k < WIDTH && n == Pow2(k);
    Pow2Monotone(k, WIDTH - 1);
    Doubles(WIDTH - 1);
  }

  /** A C int fits. */
  lemma IntFits(n: nat)
    requires n <= INT_MAX
    ensures n < Pow2(WIDTH)
  {
    TenDoublings(21);
    TenDoublings(11);
    TenDoublings(1);
    WideEnough();
    hide WIDTH;
    Pow2Monotone(31, WIDTH);
  }

  lemma TenDoublings(k: nat)
    ensures Pow2(k + 10) == 1024 * Pow2(k)
  {
    assert Pow2(k + 4) == 16 * Pow2(k) by { FourDoublings(k); }
    FourDoublings(k + 4);
    assert Pow2(k + 10) == 4 * Pow2(k + 8);
  }

  lemma FourDoublings(k: nat)
    ensures Pow2(k + 4) == 16 * Pow2(k)
  {
    assert Pow2(k + 4) == 2 * Pow2(k + 3) && Pow2(k + 3) == 2 * Pow2(k + 2) && Pow2(k + 2) == 2 * Pow2(k + 1);
  }

  lemma WideEnough()
    ensures WIDTH >= 31
  {
  }

  /** The test queue_init makes on its length. */
  lemma LengthTest(len: nat)
    requires 0 < len < Pow2(WIDTH)
    ensures Masked(len, len - 1) == 0 <==> IsPower(len)
  {
    hide Pow2, ToBits, Value, WIDTH;
    PowerTest(len, WIDTH);
  }
}
