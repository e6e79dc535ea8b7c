/** The splitmix64 generator behind simulated latencies and outcomes (crates/core/src/simulation.rs).
    A 64-bit word is a natural number below 2^64; wrapping arithmetic is written out modulo 2^64. */
module SimRng {
  import opened Common

  const GOLDEN: nat := 0x9E37_79B9_7F4A_7C15
  const MUL_1: nat := 0xBF58_476D_1CE4_E5B9
  const MUL_2: nat := 0x94D0_49BB_1331_11EB

  /** The multipliers' inverses modulo 2^64 (they exist because the multipliers are odd). */
  const GOLDEN_INVERSE: nat := 0xF1DE_83E1_9937_733D
  const MUL_1_INVERSE: nat := 0x96DE_1B17_3F11_9089
  const MUL_2_INVERSE: nat := 0x3196_42B2_D24D_8EC3

  predicate Word(x: int) { 0 <= x < U64_RANGE }

  function WrappingAdd(a: nat, b: nat): nat { (a + b) % U64_RANGE }

  function WrappingMul(a: nat, b: nat): nat { (a * b) % U64_RANGE }

  /** Bitwise exclusive or, least significant bit first. */
  function Xor(a: nat, b: nat): nat {
    if a == 0 && b == 0 then 0
    else (a % 2 + b % 2) % 2 + 2 * Xor(a / 2, b / 2)
  }

  function Pow2(k: nat): (p: nat)
    ensures p > 0
  {
    if k == 0 then 1 else 2 * Pow2(k - 1)
  }

  /** Drops the `k` lowest bits. */
  function ShiftRight(x: nat, k: nat): nat
    decreases k
  {
    if k == 0 then x else ShiftRight(x / 2, k - 1)
  }

  function XorShift(x: nat, k: nat): nat { Xor(x, ShiftRight(x, k)) }

  /** The output mixing of one draw. */
  function Mix(state: nat): nat {
    var z1 := WrappingMul(XorShift(state, 30), MUL_1);
    var z2 := WrappingMul(XorShift(z1, 27), MUL_2);
    XorShift(z2, 31)
  }

  /** The state after `n` draws from a generator seeded with `seed`. */
  function StateAfter(seed: nat, n: nat): nat {
    (seed + GOLDEN + n * GOLDEN) % U64_RANGE
  }

  /** The `n`-th value drawn, counting from zero. */
  function Draw(seed: nat, n: nat): nat {
    Mix(StateAfter(seed, n + 1))
  }

  class SimRng {
    var state: nat
    ghost var seed: nat
    ghost var draws: nat

    ghost predicate Valid()
      reads this
    {
      Word(seed) && state == StateAfter(seed, draws)
    }

    constructor (seed: nat)
      requires Word(seed)
      ensures Valid() && this.seed == seed && draws == 0
    {
      state := WrappingAdd(seed, GOLDEN);
      this.seed := seed;
      draws := 0;
    }

    method NextU64() returns (z: nat)
      requires Valid()
      modifies this
      ensures Valid() && seed == old(seed) && draws == old(draws) + 1
      ensures z == Draw(seed, old(draws)) && Word(z)
    {
      StateAdvances(seed, draws);
      state := WrappingAdd(state, GOLDEN);
      draws := draws + 1;
      z := state;
      MixIsWord(state);
      z := WrappingMul(Xor(z, ShiftRight(z, 30)), MUL_1);
      z := WrappingMul(Xor(z, ShiftRight(z, 27)), MUL_2);
      z := Xor(z, ShiftRight(z, 31));
    }

    /** Samples the closed interval [min, max]. The span is computed in 128 bits, so it does not
        wrap even for the full 64-bit range, and the final sum stays a 64-bit word. */
    method GenRangeU64(min: nat, max: nat) returns (r: nat)
      requires Valid() && Word(min) && Word(max) && min <= max
      modifies this
      ensures Valid() && seed == old(seed) && draws == old(draws) + 1
      ensures min <= r <= max
      ensures r == InRange(Draw(seed, old(draws)), min, max)
    {
      var span := (max - min) + 1;
      var z := NextU64();
      r := min + z % span;
    }
  }

  /** The range reduction: an offset of less than the span above the lower end. */
  function InRange(z: nat, min: nat, max: nat): nat
    requires min <= max
  {
    min + z % (max - min + 1)
  }

  // ---------------------------------------------------------------- modular arithmetic

  lemma ModMultiple(a: int, k: int, m: int)
    requires m > 0
    ensures (a + k * m) % m == a % m
  {
    var q, r := a / m, a % m;
    assert a + k * m == (q + k) * m + r;
    DivModUnique(a + k * m, m, q + k, r);
  }

  lemma DivModUnique(x: int, m: int, q: int, r: int)
    requires m > 0 && x == q * m + r && 0 <= r < m
    ensures x / m == q && x % m == r
  {
    var q', r' := x / m, x % m;
    QuotientGap(q, r, q', r', m);
  }

  lemma QuotientGap(q: int, r: int, q': int, r': int, m: int)
    requires m > 0 && 0 <= r < m && 0 <= r' < m && q * m + r == q' * m + r'
    ensures q == q' && r == r'
  {
    assert (q' - q) * m == r - r';
    if q' > q { AtLeastOnce(q' - q, m); }
    assert (q - q') * m == r' - r;
    if q > q' { AtLeastOnce(q - q', m); }
  }

  lemma AtLeastOnce(k: int, m: int)
    requires k >= 1 && m > 0
    ensures k * m >= m
  {
    assert (k - 1) * m >= 0;
  }

  lemma ModTimes(a: int, b: int, m: int)
    requires m > 0
    ensures ((a % m) * b) % m == (a * b) % m
    ensures (b * (a % m)) % m == (a * b) % m
  {
    var q, r := a / m, a % m;
    assert a == q * m + r;
    assert a * b == r * b + (q * b) * m by { MulRegroup(q, m, r, b); }
    ModMultiple(r * b, q * b, m);
  }

  lemma MulRegroup(q: int, m: int, r: int, b: int)
    ensures (q * m + r) * b == r * b + (q * b) * m
  {
  }

  lemma ModPlus(a: int, b: int, m: int)
    requires m > 0
    ensures (a % m + b) % m == (a + b) % m
  {
    var q, r := a / m, a % m;
    assert a + b == (r + b) + q * m;
    ModMultiple(r + b, q, m);
  }

  /** Multiplying by `c` and then by its inverse is the identity on words. */
  lemma WrappingMulUndone(x: nat, c: nat, inverse: nat)
    requires Word(x) && (c * inverse) % U64_RANGE == 1
    ensures WrappingMul(WrappingMul(x, c), inverse) == x
  {
    ModTimes(x * c, inverse, U64_RANGE);
    assert (x * c) * inverse == (c * inverse) * x;
    ModTimes(c * inverse, x, U64_RANGE);
    assert 1 * x == x;
  }

  lemma InversesAreInverses()
    ensures (GOLDEN * GOLDEN_INVERSE) % U64_RANGE == 1
    ensures (MUL_1 * MUL_1_INVERSE) % U64_RANGE == 1
    ensures (MUL_2 * MUL_2_INVERSE) % U64_RANGE == 1
    ensures (GOLDEN_INVERSE * GOLDEN) % U64_RANGE == 1
    ensures (MUL_1_INVERSE * MUL_1) % U64_RANGE == 1
    ensures (MUL_2_INVERSE * MUL_2) % U64_RANGE == 1
  {
  }

  lemma StateAdvances(seed: nat, n: nat)
    ensures StateAfter(seed, n + 1) == WrappingAdd(StateAfter(seed, n), GOLDEN)
    ensures Word(StateAfter(seed, n))
  {
    ModPlus(seed + GOLDEN + n * GOLDEN, GOLDEN, U64_RANGE);
    assert (n + 1) * GOLDEN == n * GOLDEN + GOLDEN;
  }

  // ---------------------------------------------------------------- exclusive or

  lemma {:induction false} XorZero(a: nat)
    ensures Xor(a, 0) == a && Xor(0, a) == a
  {
    if a > 0 { XorZero(a / 2); }
  }

  lemma {:induction false} XorCancels(a: nat, b: nat)
    ensures Xor(Xor(a, b), b) == a
    decreases a + b
  {
    if a != 0 || b != 0 {
      hide Xor;
      var x := Xor(a, b);
      XorCancels(a / 2, b / 2);
      XorHalf(a, b);
      XorHalf(x, b);
      ParityCancels(a % 2, b % 2);
      assert Xor(x, b) == 2 * (Xor(x, b) / 2) + Xor(x, b) % 2;
    }
  }

  lemma ParityCancels(p: nat, q: nat)
    requires p < 2 && q < 2
    ensures ((p + q) % 2 + q) % 2 == p
  {
  }

  lemma XorHalf(a: nat, b: nat)
    ensures Xor(a, b) / 2 == Xor(a / 2, b / 2)
    ensures Xor(a, b) % 2 == (a % 2 + b % 2) % 2
  {
  }

  lemma {:induction false} XorShiftsTogether(a: nat, b: nat, k: nat)
    ensures ShiftRight(Xor(a, b), k) == Xor(ShiftRight(a, k), ShiftRight(b, k))
  {
    if k > 0 {
      XorHalf(a, b);
      XorShiftsTogether(a / 2, b / 2, k - 1);
    }
  }

  lemma {:induction false} XorBounded(a: nat, b: nat, k: nat)
    requires a < Pow2(k) && b < Pow2(k)
    ensures Xor(a, b) < Pow2(k)
  {
    if k > 0 { XorBounded(a / 2, b / 2, k - 1); }
  }

  lemma Pow2Of64()
    ensures Pow2(64) == U64_RANGE
  {
    assert Pow2(8) == 256;
    Pow2Adds(8, 8);
    Pow2Adds(16, 16);
    Pow2Adds(32, 32);
    hide Pow2;
  }

  lemma {:induction false} Pow2Adds(a: nat, b: nat)
    ensures Pow2(a + b) == Pow2(a) * Pow2(b)
  {
    if a > 0 {
      Pow2Adds(a - 1, b);
      assert Pow2(a) * Pow2(b) == 2 * (Pow2(a - 1) * Pow2(b));
    }
  }

  lemma {:induction false} ShiftShrinks(x: nat, k: nat)
    ensures ShiftRight(x, k) <= x
    ensures k > 0 && x > 0 ==> ShiftRight(x, k) < x
    ensures x < Pow2(k) <==> ShiftRight(x, k) == 0
  {
    if k > 0 { ShiftShrinks(x / 2, k - 1); }
  }

  lemma XorShiftIsWord(x: nat, k: nat)
    requires Word(x)
    ensures Word(XorShift(x, k))
  {
    Pow2Of64();
    ShiftShrinks(x, k);
    XorBounded(x, ShiftRight(x, k), 64);
  }

  /** Undoes `XorShift(_, k)`: the high bits come through unchanged and uncover the rest. */
  function UnXorShift(y: nat, k: nat): nat
    requires k > 0
    decreases y
  {
    if y < Pow2(k) then y
    else
      ShiftShrinks(y, k);
      Xor(y, UnXorShift(ShiftRight(y, k), k))
  }

  lemma {:induction false} UnXorShiftUndoes(x: nat, k: nat)
    requires k > 0
    ensures UnXorShift(XorShift(x, k), k) == x
    decreases x
  {
    var s := ShiftRight(x, k);
    var y := XorShift(x, k);
    ShiftShrinks(x, k);
    XorShiftsTogether(x, s, k);
    XorCancels(x, s);
    if x < Pow2(k) {
      XorZero(x);
    } else {
      UnXorShiftUndoes(s, k);
      ShiftShrinks(y, k);
      HighBitsSurvive(x, k);
    }
  }

  lemma HighBitsSurvive(x: nat, k: nat)
    requires k > 0 && x >= Pow2(k)
    ensures XorShift(x, k) >= Pow2(k)
  {
    var s := ShiftRight(x, k);
    XorShiftsTogether(x, s, k);
    ShiftShrinks(x, k);
    if XorShift(x, k) < Pow2(k) {
      ShiftShrinks(XorShift(x, k), k);
      var t := ShiftRight(s, k);
      assert Xor(s, t) == 0;
      XorCancels(s, t);
      XorZero(t);
      ShiftShrinks(s, k);
    }
  }

  lemma {:induction false} XorShiftUndoesUn(y: nat, k: nat)
    requires k > 0
    ensures XorShift(UnXorShift(y, k), k) == y
    ensures ShiftRight(UnXorShift(y, k), k) == UnXorShift(ShiftRight(y, k), k)
    decreases y
  {
    ShiftShrinks(y, k);
    if y < Pow2(k) {
      XorZero(y);
    } else {
      var high := ShiftRight(y, k);
      var u := UnXorShift(high, k);
      XorShiftUndoesUn(high, k);
      XorShiftsTogether(y, u, k);
      XorShiftsTogether(u, ShiftRight(u, k), k);
      XorCancels(u, ShiftRight(u, k));
      XorCommutes(u, ShiftRight(u, k));
      XorCancels(y, u);
      XorCancels(ShiftRight(u, k), u);
      XorCommutes(ShiftRight(u, k), u);
      XorCommutes(high, ShiftRight(u, k));
    }
  }

  lemma {:induction false} XorCommutes(a: nat, b: nat)
    ensures Xor(a, b) == Xor(b, a)
    decreases a + b
  {
    if a != 0 || b != 0 { XorCommutes(a / 2, b / 2); }
  }

  lemma UnXorShiftIsWord(y: nat, k: nat)
    requires k > 0 && Word(y)
    ensures Word(UnXorShift(y, k))
    decreases y
  {
    ShiftShrinks(y, k);
    if y >= Pow2(k) {
      UnXorShiftIsWord(ShiftRight(y, k), k);
      Pow2Of64();
      XorBounded(y, UnXorShift(ShiftRight(y, k), k), 64);
    }
  }

  // ---------------------------------------------------------------- the mixer is a bijection

  /** The mixer run backwards. */
  function Unmix(z: nat): nat {
    var z2 := UnXorShift(z, 31);
    var z1 := UnXorShift(WrappingMul(z2, MUL_2_INVERSE), 27);
    UnXorShift(WrappingMul(z1, MUL_1_INVERSE), 30)
  }

  lemma MixIsWord(x: nat)
    requires Word(x)
    ensures Word(Mix(x))
  {
    XorShiftIsWord(WrappingMul(XorShift(WrappingMul(XorShift(x, 30), MUL_1), 27), MUL_2), 31);
  }

  lemma UnmixUndoesMix(x: nat)
    requires Word(x)
    ensures Unmix(Mix(x)) == x
  {
    InversesAreInverses();
    var a := XorShift(x, 30);
    var z1 := WrappingMul(a, MUL_1);
    var b := XorShift(z1, 27);
    var z2 := WrappingMul(b, MUL_2);
    XorShiftIsWord(x, 30);
    XorShiftIsWord(z1, 27);
    UnXorShiftUndoes(z2, 31);
    WrappingMulUndone(b, MUL_2, MUL_2_INVERSE);
    UnXorShiftUndoes(z1, 27);
    WrappingMulUndone(a, MUL_1, MUL_1_INVERSE);
    UnXorShiftUndoes(x, 30);
  }

  lemma MixUndoesUnmix(z: nat)
    requires Word(z)
    ensures Word(Unmix(z)) && Mix(Unmix(z)) == z
  {
    InversesAreInverses();
    var z2 := UnXorShift(z, 31);
    var b := WrappingMul(z2, MUL_2_INVERSE);
    var z1 := UnXorShift(b, 27);
    var a := WrappingMul(z1, MUL_1_INVERSE);
    UnXorShiftIsWord(z, 31);
    UnXorShiftIsWord(b, 27);
    UnXorShiftIsWord(a, 30);
    XorShiftUndoesUn(a, 30);
    WrappingMulUndone(z1, MUL_1_INVERSE, MUL_1);
    XorShiftUndoesUn(b, 27);
    WrappingMulUndone(z2, MUL_2_INVERSE, MUL_2);
    XorShiftUndoesUn(z, 31);
  }

  // ---------------------------------------------------------------- the period

  /** Two states coincide only a multiple of 2^64 draws apart. */
  lemma StatesDistinct(seed: nat, i: nat, j: nat)
    requires i < j < i + U64_RANGE
    ensures StateAfter(seed, i) != StateAfter(seed, j)
  {
    if StateAfter(seed, i) == StateAfter(seed, j) {
      var base := seed + GOLDEN;
      var d := j - i;
      assert base + j * GOLDEN == (base + i * GOLDEN) + d * GOLDEN by { assert j * GOLDEN == i * GOLDEN + d * GOLDEN; }
      ModDifference(base + i * GOLDEN, d * GOLDEN, U64_RANGE);
      InversesAreInverses();
      assert WrappingMul(d, GOLDEN) == 0;
      WrappingMulUndone(d, GOLDEN, GOLDEN_INVERSE);
    }
  }

  lemma ModDifference(a: int, b: int, m: int)
    requires m > 0 && (a + b) % m == a % m
    ensures b % m == 0
  {
    var q := (a + b) / m - a / m;
    assert b == q * m;
    DivModUnique(b, m, q, 0);
  }

  /** Any 2^64 consecutive draws are pairwise distinct. */
  lemma DrawsAreDistinct(seed: nat, i: nat, j: nat)
    requires i < j < i + U64_RANGE
    ensures Draw(seed, i) != Draw(seed, j)
  {
    hide Mix, Unmix;
    StateAdvances(seed, i + 1);
    StateAdvances(seed, j + 1);
    StatesDistinct(seed, i + 1, j + 1);
    UnmixUndoesMix(StateAfter(seed, i + 1));
    UnmixUndoesMix(StateAfter(seed, j + 1));
  }

  /** Which of the 2^64 draws from `start` on yields `z`. */
  function DrawIndex(seed: nat, start: nat, z: nat): nat {
    start + (((Unmix(z) as int - StateAfter(seed, start + 1)) % U64_RANGE) * GOLDEN_INVERSE) % U64_RANGE
  }

  /** Any 2^64 consecutive draws produce every 64-bit word. */
  lemma EveryWordIsDrawn(seed: nat, start: nat, z: nat)
    requires Word(z)
    ensures start <= DrawIndex(seed, start, z) < start + U64_RANGE
    ensures Draw(seed, DrawIndex(seed, start, z)) == z
  {
    hide Mix, Unmix, StateAfter, Pow2, Xor, ShiftRight;
    MixUndoesUnmix(z);
    StateAdvances(seed, start + 1);
    var target: int, from: int := Unmix(z), StateAfter(seed, start + 1);
    var gap := (target - from) % U64_RANGE;
    var n := (gap * GOLDEN_INVERSE) % U64_RANGE;
    GapCrossed(gap);
    StateJump(seed, start + 1, n);
    ModPlus(n * GOLDEN, from, U64_RANGE);
    ModPlus(target - from, from, U64_RANGE);
    assert DrawIndex(seed, start, z) + 1 == start + 1 + n;
  }

  /** That many draws advance the state by `gap`. */
  lemma GapCrossed(gap: nat)
    requires Word(gap)
    ensures (((gap * GOLDEN_INVERSE) % U64_RANGE) * GOLDEN) % U64_RANGE == gap
  {
    InversesAreInverses();
    WrappingMulUndone(gap, GOLDEN_INVERSE, GOLDEN);
  }

  lemma StateJump(seed: nat, i: nat, n: nat)
    ensures StateAfter(seed, i + n) == (n * GOLDEN + StateAfter(seed, i)) % U64_RANGE
  {
    ModPlus(seed + GOLDEN + i * GOLDEN, n * GOLDEN, U64_RANGE);
    assert (i + n) * GOLDEN == i * GOLDEN + n * GOLDEN;
  }

  /** Range sampling reaches every value of the interval, both ends included, in every period. */
  lemma EveryValueIsSampled(seed: nat, start: nat, min: nat, max: nat, v: nat)
    requires Word(min) && Word(max) && min <= v <= max
    ensures exists n | start <= n < start + U64_RANGE :: InRange(Draw(seed, n), min, max) == v
  {
    hide Draw;
    EveryWordIsDrawn(seed, start, v - min);
    DivModUnique(v - min, max - min + 1, 0, v - min);
    assert InRange(Draw(seed, DrawIndex(seed, start, v - min)), min, max) == v;
  }

  /** The increment is added once when the generator is made and once before each draw, so draw n
      mixes the seed advanced by n + 2 increments. */
  lemma DrawMixesAdvancedSeed(seed: nat, n: nat)
    ensures Draw(seed, n) == Mix((seed + (n + 2) * 0x9E37_79B9_7F4A_7C15) % 0x1_0000_0000_0000_0000)
  {
    hide Mix;
    assert seed + GOLDEN + (n + 1) * GOLDEN == seed + (n + 2) * GOLDEN;
  }

  // ---------------------------------------------------------------- bits

  /** The k-th bit of a number, the lowest being bit zero. */
  function Bit(x: nat, k: nat): nat { (x / Pow2(k)) % 2 }

  lemma {:induction false} ShiftDivides(x: nat, k: nat)
    ensures ShiftRight(x, k) == x / Pow2(k)
  {
    if k > 0 {
      ShiftDivides(x / 2, k - 1);
      HalfThenDivide(x, Pow2(k - 1));
    }
  }

  lemma HalfThenDivide(x: nat, m: nat)
    requires m > 0
    ensures (x / 2) / m == x / (2 * m)
  {
    var q, r := (x / 2) / m, (x / 2) % m;
    assert x / 2 == q * m + r;
    assert x == q * (2 * m) + (2 * r + x % 2);
    DivModUnique(x, 2 * m, q, 2 * r + x % 2);
  }

  /** The mixer's exclusive or and shift are the bitwise ones: bit k of the first is the sum modulo
      two of the operands' bits, and bit k of a number shifted right is its bit further up. */
  lemma BitsAreBitwise(a: nat, b: nat, shift: nat, k: nat)
    ensures Bit(Xor(a, b), k) == (Bit(a, k) + Bit(b, k)) % 2
    ensures Bit(ShiftRight(a, shift), k) == Bit(a, shift + k)
  {
    ShiftDivides(Xor(a, b), k);
    ShiftDivides(a, k);
    ShiftDivides(b, k);
    XorShiftsTogether(a, b, k);
    XorHalf(ShiftRight(a, k), ShiftRight(b, k));
    ShiftDivides(ShiftRight(a, shift), k);
    ShiftDivides(a, shift + k);
    ShiftTwice(a, shift, k);
  }

  lemma {:induction false} ShiftTwice(x: nat, a: nat, b: nat)
    ensures ShiftRight(ShiftRight(x, a), b) == ShiftRight(x, a + b)
    decreases a
  {
    if a > 0 {
      ShiftTwice(x / 2, a - 1, b);
    }
  }
}
