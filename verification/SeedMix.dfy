/** Seed derivation: SplitMix64 on 64-bit words and its inverse. Words are naturals below 2^64, with
    wrap-around, shifts and exclusive-or written out. */
module SeedMix {

  const MODULUS: nat := 0x1_0000_0000_0000_0000

  type Word = w: nat | w < MODULUS

  function WrappingAdd(a: Word, b: Word): Word {
    (a + b) % MODULUS
  }

  function WrappingMul(a: Word, b: Word): Word {
    (a * b) % MODULUS
  }

  function Power2(k: nat): (p: nat)
    ensures p > 0
  {
    if k == 0 then 1 else 2 * Power2(k - 1)
  }

  /** Shifts the low `k` bits out. */
  function Shr(a: nat, k: nat): (r: nat)
    ensures r <= a
  {
    if k == 0 then a else Shr(a / 2, k - 1)
  }

  /** Bitwise exclusive or. */
  function Xor(a: nat, b: nat): nat {
    if a == 0 && b == 0 then 0 else 2 * Xor(a / 2, b / 2) + (a % 2 + b % 2) % 2
  }

  // ----- Algebra of exclusive or and shifts -----

  lemma {:induction false} XorBound(a: nat, b: nat, k: nat)
    requires a < Power2(k) && b < Power2(k)
    ensures Xor(a, b) < Power2(k)
  {
    if k > 0 {
      XorBound(a / 2, b / 2, k - 1);
    }
  }

  lemma {:induction false} XorZero(a: nat)
    ensures Xor(a, 0) == a
  {
    if a > 0 {
      XorZero(a / 2);
    }
  }

  lemma {:induction false} XorSelf(a: nat)
    ensures Xor(a, a) == 0
  {
    if a > 0 {
      XorSelf(a / 2);
    }
  }

  lemma {:induction false} XorCommutes(a: nat, b: nat)
    ensures Xor(a, b) == Xor(b, a)
  {
    if a + b > 0 {
      XorCommutes(a / 2, b / 2);
    }
  }

  lemma XorDigits(a: nat, b: nat)
    ensures Xor(a, b) / 2 == Xor(a / 2, b / 2) && Xor(a, b) % 2 == (a % 2 + b % 2) % 2
  {
  }

  lemma SameDigits(x: nat, y: nat)
    requires x / 2 == y / 2 && x % 2 == y % 2
    ensures x == y
  {
  }

  lemma {:induction false} AssociativeParity(a: nat, b: nat, c: nat)
    ensures Xor(a, Xor(b, c)) % 2 == Xor(Xor(a, b), c) % 2
  {
    XorDigits(a, b);
    XorDigits(b, c);
    XorDigits(Xor(a, b), c);
    XorDigits(a, Xor(b, c));
    hide Xor;
  }

  lemma {:induction false} XorAssociates(a: nat, b: nat, c: nat)
    ensures Xor(Xor(a, b), c) == Xor(a, Xor(b, c))
  {
    if a + b + c > 0 {
      XorAssociates(a / 2, b / 2, c / 2);
      XorDigits(a, b);
      XorDigits(b, c);
      XorDigits(Xor(a, b), c);
      XorDigits(a, Xor(b, c));
      AssociativeParity(a, b, c);
      hide Xor;
      SameDigits(Xor(Xor(a, b), c), Xor(a, Xor(b, c)));
    }
  }

  lemma {:induction false} ShrOfXor(a: nat, b: nat, k: nat)
    ensures Shr(Xor(a, b), k) == Xor(Shr(a, k), Shr(b, k))
  {
    if k > 0 {
      XorDigits(a, b);
      ShrOfXor(a / 2, b / 2, k - 1);
    }
  }

  lemma {:induction false} ShrOfShr(a: nat, j: nat, k: nat)
    ensures Shr(Shr(a, j), k) == Shr(a, j + k)
    decreases j
  {
    if j > 0 {
      ShrOfShr(a / 2, j - 1, k);
    }
  }

  lemma {:induction false} ShrAway(a: nat, k: nat)
    requires a < Power2(k)
    ensures Shr(a, k) == 0
  {
    if k > 0 {
      ShrAway(a / 2, k - 1);
    }
  }

  lemma {:induction false} Power2Grows(j: nat, k: nat)
    requires j <= k
    ensures Power2(j) <= Power2(k)
  {
    if j < k {
      Power2Grows(j, k - 1);
    }
  }

  lemma ModulusIsPower()
    ensures MODULUS == Power2(64)
  {
    assert Power2(4) == 16 by {
      assert Power2(2) == 4;
    }
    PowerSum(4, 4);
    PowerSum(8, 8);
    PowerSum(16, 16);
    PowerSum(32, 32);
  }

  lemma {:induction false} PowerSum(j: nat, k: nat)
    ensures Power2(j + k) == Power2(j) * Power2(k)
  {
    if j > 0 {
      PowerSum(j - 1, k);
    }
  }

  // ----- The steps of the mix and what undoes each -----

  function XorShift(z: Word, k: nat): Word {
    ModulusIsPower();
    XorBound(z, Shr(z, k), 64);
    Xor(z, Shr(z, k))
  }

  /** Undoes a shift by more than a third of the word: twice shifted, nothing further is left. */
  function UnXorShift(y: Word, k: nat): Word {
    ModulusIsPower();
    XorBound(y, Shr(y, k), 64);
    XorBound(Xor(y, Shr(y, k)), Shr(y, 2 * k), 64);
    Xor(Xor(y, Shr(y, k)), Shr(y, 2 * k))
  }

  /** The parts of an xor-shift: the word, once shifted, twice shifted. */
  lemma ShiftedParts(z: Word, k: nat)
    requires k <= 64 <= 3 * k
    ensures Shr(z, 3 * k) == 0 && Shr(z, 4 * k) == 0
    ensures Shr(Shr(z, k), k) == Shr(z, 2 * k) && Shr(Shr(z, k), 2 * k) == 0 && Shr(Shr(z, 2 * k), k) == 0
  {
    hide Shr, Power2;
    ModulusIsPower();
    Power2Grows(64, 3 * k);
    Power2Grows(64, 4 * k);
    ShrAway(z, 3 * k);
    ShrAway(z, 4 * k);
    ShrOfShr(z, k, k);
    ShrOfShr(z, k, 2 * k);
    ShrOfShr(z, 2 * k, k);
  }

  /** (z ^ a) ^ (a ^ b) ^ b is z, whatever a and b are. */
  lemma ChainCancels(z: nat, a: nat, b: nat)
    ensures Xor(Xor(Xor(z, a), Xor(a, b)), b) == z
    ensures Xor(Xor(Xor(z, a), b), Xor(a, b)) == z
  {
    XorAssociates(z, a, Xor(a, b));
    XorAssociates(a, a, b);
    XorSelf(a);
    XorCommutes(0, b);
    XorZero(b);
    XorAssociates(z, b, b);
    XorSelf(b);
    XorZero(z);
    XorAssociates(z, a, b);
    XorAssociates(z, Xor(a, b), Xor(a, b));
    XorSelf(Xor(a, b));
  }

  lemma XorShiftInverts(z: Word, k: nat)
    requires k <= 64 <= 3 * k
    ensures UnXorShift(XorShift(z, k), k) == z
    ensures XorShift(UnXorShift(z, k), k) == z
  {
    var a, b := Shr(z, k), Shr(z, 2 * k);
    ShiftedParts(z, k);
    ShrOfXor(z, a, k);
    ShrOfXor(z, a, 2 * k);
    XorZero(b);
    ChainCancels(z, a, b);
    ShrOfXor(Xor(z, a), b, k);
    XorZero(Xor(a, b));
  }

  lemma AddInverts(x: Word, c: Word)
    requires c > 0
    ensures WrappingAdd(WrappingAdd(x, c), MODULUS - c) == x
    ensures WrappingAdd(WrappingAdd(x, MODULUS - c), c) == x
  {
    ModIs(x + c, if x + c < MODULUS then 0 else 1, if x + c < MODULUS then x + c else x + c - MODULUS);
    ModIs(x + MODULUS - c, if x < c then 0 else 1, if x < c then x + MODULUS - c else x - c);
  }

  lemma ModIs(a: nat, q: int, r: nat)
    requires r < MODULUS && a == q * MODULUS + r
    ensures a % MODULUS == r
  {
  }

  /** A multiplier with an inverse modulo 2^64 loses nothing. */
  lemma MulInverts(x: Word, c: Word, d: Word, k: nat)
    requires c * d == 1 + k * MODULUS
    ensures WrappingMul(WrappingMul(x, c), d) == x
  {
    var q, r := (x * c) / MODULUS, (x * c) % MODULUS;
    assert r * d == x * c * d - q * MODULUS * d;
    assert x * c * d == x * (c * d) == x + x * k * MODULUS;
    assert r * d == (x * k - q * d) * MODULUS + x;
    ModIs(r * d, x * k - q * d, x);
  }

  const GAMMA: Word := 0x9E37_79B9_7F4A_7C15
  const MIX1: Word := 0xBF58_476D_1CE4_E5B9
  const MIX2: Word := 0x94D0_49BB_1331_11EB
  const UNMIX1: Word := 0x96DE_1B17_3F11_9089
  const UNMIX2: Word := 0x3196_42B2_D24D_8EC3

  lemma Multiplier1Inverts(x: Word)
    ensures WrappingMul(WrappingMul(x, MIX1), UNMIX1) == x && WrappingMul(WrappingMul(x, UNMIX1), MIX1) == x
  {
    MulInverts(x, MIX1, UNMIX1, MIX1 * UNMIX1 / MODULUS);
    MulInverts(x, UNMIX1, MIX1, MIX1 * UNMIX1 / MODULUS);
  }

  lemma Multiplier2Inverts(x: Word)
    ensures WrappingMul(WrappingMul(x, MIX2), UNMIX2) == x && WrappingMul(WrappingMul(x, UNMIX2), MIX2) == x
  {
    MulInverts(x, MIX2, UNMIX2, MIX2 * UNMIX2 / MODULUS);
    MulInverts(x, UNMIX2, MIX2, MIX2 * UNMIX2 / MODULUS);
  }

  // ----- The mix -----

  function SplitMix64(seed: Word): Word {
    var z0 := WrappingAdd(seed, GAMMA);
    var z1 := WrappingMul(XorShift(z0, 30), MIX1);
    var z2 := WrappingMul(XorShift(z1, 27), MIX2);
    XorShift(z2, 31)
  }

  /** Runs the mix backwards. */
  function Unmix(out: Word): Word {
    var z2 := UnXorShift(out, 31);
    var z1 := UnXorShift(WrappingMul(z2, UNMIX2), 27);
    var z0 := UnXorShift(WrappingMul(z1, UNMIX1), 30);
    WrappingAdd(z0, MODULUS - GAMMA)
  }

  function DeriveSeed(master: Word, index: Word): Word {
    SplitMix64(XorWords(master, SplitMix64(index)))
  }

  function XorWords(a: Word, b: Word): Word {
    ModulusIsPower();
    XorBound(a, b, 64);
    Xor(a, b)
  }

  /** The mix loses nothing: it is a bijection on 64-bit words. */
  lemma MixIsBijective(x: Word)
    ensures Unmix(SplitMix64(x)) == x
    ensures SplitMix64(Unmix(x)) == x
  {
    hide WrappingAdd, WrappingMul, XorShift, UnXorShift;
    var z0 := WrappingAdd(x, GAMMA);
    var z1 := WrappingMul(XorShift(z0, 30), MIX1);
    var z2 := WrappingMul(XorShift(z1, 27), MIX2);
    XorShiftInverts(z2, 31);
    Multiplier2Inverts(XorShift(z1, 27));
    XorShiftInverts(z1, 27);
    Multiplier1Inverts(XorShift(z0, 30));
    XorShiftInverts(z0, 30);
    AddInverts(x, GAMMA);
    var y2 := UnXorShift(x, 31);
    var y1 := UnXorShift(WrappingMul(y2, UNMIX2), 27);
    var y0 := UnXorShift(WrappingMul(y1, UNMIX1), 30);
    XorShiftInverts(x, 31);
    Multiplier2Inverts(y2);
    XorShiftInverts(WrappingMul(y2, UNMIX2), 27);
    Multiplier1Inverts(y1);
    XorShiftInverts(WrappingMul(y1, UNMIX1), 30);
    AddInverts(y0, GAMMA);
  }

  lemma XorCancels(a: Word, b: Word, c: Word)
    ensures XorWords(a, b) == c <==> b == XorWords(c, a)
    ensures XorWords(a, b) == c <==> a == XorWords(c, b)
  {
    XorCommutes(a, b);
    XorAssociates(b, a, a);
    XorSelf(a);
    XorZero(b);
    XorAssociates(c, a, a);
    XorZero(c);
    XorCommutes(c, a);
    XorAssociates(a, b, b);
    XorSelf(b);
    XorZero(a);
    XorAssociates(c, b, b);
    XorCommutes(Xor(c, a), a);
  }

  /** For a fixed master the task index can be read back from the derived seed, and for a fixed index
      the master can: every seed is derived from exactly one index, and from exactly one master. */
  lemma DerivationInverts(master: Word, index: Word, out: Word)
    ensures DeriveSeed(master, index) == out <==> index == Unmix(XorWords(Unmix(out), master))
    ensures DeriveSeed(master, index) == out <==> master == XorWords(Unmix(out), SplitMix64(index))
  {
    hide SplitMix64, Unmix, XorWords;
    MixIsBijective(index);
    MixIsBijective(out);
    MixIsBijective(XorWords(master, SplitMix64(index)));
    MixIsBijective(XorWords(Unmix(out), master));
    XorCancels(master, SplitMix64(index), Unmix(out));
  }

  /** Distinct tasks of one run, and one task of distinct runs, never share a seed. */
  lemma SeedsNeverCollide(master: Word, index: Word, master': Word, index': Word)
    ensures DeriveSeed(master, index) == DeriveSeed(master, index') ==> index == index'
    ensures DeriveSeed(master, index) == DeriveSeed(master', index) ==> master == master'
  {
    hide DeriveSeed, SplitMix64, Unmix, XorWords;
    DerivationInverts(master, index, DeriveSeed(master, index));
    DerivationInverts(master, index', DeriveSeed(master, index));
    DerivationInverts(master', index, DeriveSeed(master, index));
  }
}
