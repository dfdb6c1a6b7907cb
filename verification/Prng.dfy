/**
 * SplitMix64 (crates/hesmos-orchestrator/src/prng.rs) over 64-bit words kept as integers:
 * addition and multiplication wrap modulo 2^64, xor and shift are defined on binary digits.
 */
module Prng {
  import opened Core

  const GAMMA: u64 := 0x9E37_79B9_7F4A_7C15
  const MUL1: u64 := 0xBF58_476D_1CE4_E5B9
  const MUL2: u64 := 0x94D0_49BB_1331_11EB

  // Multiplicative inverses modulo 2^64.
  const GAMMA_INV: u64 := 0xF1DE_83E1_9937_733D
  const MUL1_INV: u64 := 0x96DE_1B17_3F11_9089
  const MUL2_INV: u64 := 0x3196_42B2_D24D_8EC3

  function WrappingAdd(a: u64, b: u64): u64 {
    if a + b < TWO64 then a + b else a + b - TWO64
  }

  function WrappingMul(a: u64, b: u64): u64 {
    (a * b) % TWO64
  }

  /** Bitwise exclusive or. */
  function Xor(a: nat, b: nat): nat
    decreases a + b
  {
    if a == 0 && b == 0 then 0
    else 2 * Xor(a / 2, b / 2) + (a % 2 + b % 2) % 2
  }

  /** Logical shift right by k bits. */
  function Shr(a: nat, k: nat): nat
    decreases k, a
  {
    if k == 0 then a else Shr(a / 2, k - 1)
  }

  function Pow2(k: nat): (p: nat)
    ensures p > 0
  {
    if k == 0 then 1 else 2 * Pow2(k - 1)
  }

  lemma {:induction false} Pow64()
    ensures Pow2(64) == TWO64
  {
    assert Pow2(8) == 256;
    assert Pow2(16) == 0x1_0000;
    assert Pow2(24) == 0x100_0000;
    assert Pow2(32) == 0x1_0000_0000;
    assert Pow2(40) == 0x100_0000_0000;
    assert Pow2(48) == 0x1_0000_0000_0000;
    assert Pow2(56) == 0x100_0000_0000_0000;
  }

  // ---------------------------------------------------------------- xor and shift

  lemma {:induction false} XorBound(a: nat, b: nat, n: nat)
    requires a < Pow2(n) && b < Pow2(n)
    ensures Xor(a, b) < Pow2(n)
    decreases n
  {
    if n > 0 {
      XorBound(a / 2, b / 2, n - 1);
    }
  }

  lemma {:induction false} XorSelf(a: nat)
    ensures Xor(a, a) == 0
    decreases a
  {
    if a > 0 {
      XorSelf(a / 2);
    }
  }

  lemma {:induction false} XorZero(a: nat)
    ensures Xor(a, 0) == a && Xor(0, a) == a
    decreases a
  {
    if a > 0 {
      XorZero(a / 2);
    }
  }

  lemma {:induction false} XorHalf(a: nat, b: nat)
    ensures Xor(a, b) / 2 == Xor(a / 2, b / 2)
    ensures Xor(a, b) % 2 == (a % 2 + b % 2) % 2
  {
  }

  lemma {:induction false} Parity(a: nat, b: nat, c: nat)
    ensures ((a % 2 + b % 2) % 2 + c % 2) % 2 == (a % 2 + (b % 2 + c % 2) % 2) % 2
  {
  }

  lemma {:induction false} SameDigits(x: nat, y: nat)
    requires x / 2 == y / 2 && x % 2 == y % 2
    ensures x == y
  {
  }

  lemma {:induction false} XorTwiceLeft(a: nat, b: nat, c: nat)
    ensures Xor(Xor(a, b), c) / 2 == Xor(Xor(a / 2, b / 2), c / 2)
    ensures Xor(Xor(a, b), c) % 2 == ((a % 2 + b % 2) % 2 + c % 2) % 2
  {
    XorHalf(a, b);
    XorHalf(Xor(a, b), c);
  }

  lemma {:induction false} XorTwiceRight(a: nat, b: nat, c: nat)
    ensures Xor(a, Xor(b, c)) / 2 == Xor(a / 2, Xor(b / 2, c / 2))
    ensures Xor(a, Xor(b, c)) % 2 == (a % 2 + (b % 2 + c % 2) % 2) % 2
  {
    XorHalf(b, c);
    XorHalf(a, Xor(b, c));
  }

  lemma {:induction false} XorAssoc(a: nat, b: nat, c: nat)
    ensures Xor(Xor(a, b), c) == Xor(a, Xor(b, c))
    decreases a + b + c
  {
    if a + b + c > 0 {
      XorTwiceLeft(a, b, c);
      XorTwiceRight(a, b, c);
      XorAssoc(a / 2, b / 2, c / 2);
      Parity(a, b, c);
      SameDigits(Xor(Xor(a, b), c), Xor(a, Xor(b, c)));
    }
  }

  lemma {:induction false} ShrXor(a: nat, b: nat, k: nat)
    ensures Shr(Xor(a, b), k) == Xor(Shr(a, k), Shr(b, k))
    decreases k
  {
    if k > 0 {
      XorHalf(a, b);
      ShrXor(a / 2, b / 2, k - 1);
    }
  }

  lemma {:induction false} ShrShr(a: nat, j: nat, k: nat)
    ensures Shr(Shr(a, j), k) == Shr(a, j + k)
    decreases j
  {
    if j > 0 {
      ShrShr(a / 2, j - 1, k);
    }
  }

  lemma {:induction false} ShrBound(a: nat, k: nat, n: nat)
    requires a < Pow2(n)
    ensures Shr(a, k) < Pow2(if k <= n then n - k else 0)
    ensures Shr(a, k) <= a
    decreases k
  {
    if k > 0 {
      if n > 0 {
        ShrBound(a / 2, k - 1, n - 1);
      } else {
        ShrBound(a / 2, k - 1, 0);
      }
    }
  }

  /** z ^ (z >> k) */
  function XorShift(z: u64, k: nat): (y: u64) {
    Pow64();
    ShrBound(z, k, 64);
    XorBound(z, Shr(z, k), 64);
    Xor(z, Shr(z, k))
  }

  /** y ^ (y >> k) ^ (y >> 2k): undoes XorShift when 3k >= 64. */
  function UnXorShift(y: u64, k: nat): (z: u64) {
    Pow64();
    ShrBound(y, k, 64);
    ShrBound(y, 2 * k, 64);
    XorBound(Shr(y, k), Shr(y, 2 * k), 64);
    XorBound(y, Xor(Shr(y, k), Shr(y, 2 * k)), 64);
    Xor(y, Xor(Shr(y, k), Shr(y, 2 * k)))
  }

  lemma {:induction false} ShrThrice(z: u64, k: nat)
    requires 3 * k >= 64
    ensures Shr(z, 3 * k) == 0
  {
    Pow64();
    ShrBound(z, 3 * k, 64);
  }

  lemma {:induction false} XorShiftRoundTrip(z: u64, k: nat)
    requires 3 * k >= 64
    ensures UnXorShift(XorShift(z, k), k) == z
    ensures XorShift(UnXorShift(z, k), k) == z
  {
    var s1, s2 := Shr(z, k), Shr(z, 2 * k);
    ShrShr(z, k, k);
    ShrShr(z, 2 * k, k);
    ShrShr(z, k, 2 * k);
    ShrThrice(z, k);
    assert Shr(s1, k) == s2 && Shr(s2, k) == 0 && Shr(s1, 2 * k) == 0;
    XorZero(s2);
    XorZero(s1);

    // down: y = z ^ s1, y >> k = s1 ^ s2, y >> 2k = s2
    var y := XorShift(z, k);
    ShrXor(z, s1, k);
    ShrXor(z, s1, 2 * k);
    assert Shr(y, k) == Xor(s1, s2) && Shr(y, 2 * k) == s2;
    XorAssoc(s1, s2, s2);
    XorSelf(s2);
    assert Xor(Xor(s1, s2), s2) == s1;
    XorAssoc(z, s1, s1);
    XorSelf(s1);
    XorZero(z);

    // up: u = z ^ (s1 ^ s2), u >> k = s1 ^ s2
    var u := UnXorShift(z, k);
    var t := Xor(s1, s2);
    ShrXor(s1, s2, k);
    ShrXor(z, t, k);
    XorAssoc(s1, s2, 0);
    assert Shr(t, k) == s2;
    assert Shr(u, k) == t;
    XorAssoc(z, t, t);
    XorSelf(t);
  }

  // ---------------------------------------------------------------- odd multipliers

  lemma {:induction false} ModPlusMultiple(z: u64, n: int)
    ensures (z + n * TWO64) % TWO64 == z
  {
  }

  lemma {:induction false} ModMul(a: nat, d: nat)
    ensures ((a % TWO64) * d) % TWO64 == (a * d) % TWO64
  {
    var q, r := a / TWO64, a % TWO64;
    assert a == q * TWO64 + r;
    calc {
      a * d;
      (q * TWO64 + r) * d;
      r * d + (q * d) * TWO64;
    }
    ModShift(r * d, q * d);
  }

  lemma {:induction false} ModShift(x: nat, n: nat)
    ensures (x + n * TWO64) % TWO64 == x % TWO64
  {
    var q, r := x / TWO64, x % TWO64;
    assert x == q * TWO64 + r;
    assert x + n * TWO64 == r + (q + n) * TWO64;
    ModPlusMultiple(r, q + n);
  }

  lemma {:induction false} MulRoundTrip(z: u64, c: u64, d: u64, q: nat)
    requires c * d == 1 + q * TWO64
    ensures WrappingMul(WrappingMul(z, c), d) == z
  {
    ModMul(z * c, d);
    calc {
      z * c * d;
      z * (c * d);
      z * (1 + q * TWO64);
      z + (z * q) * TWO64;
    }
    ModPlusMultiple(z, z * q);
  }

  lemma {:induction false} InversesAreInverses()
    ensures MUL1 * MUL1_INV == 1 + 8125545580553827436 * TWO64
    ensures MUL2 * MUL2_INV == 1 + 2077064247507883091 * TWO64
    ensures GAMMA * GAMMA_INV == 1 + 10771413168148108919 * TWO64
  {
  }

  // ---------------------------------------------------------------- the output mix

  function Mix(state: u64): u64 {
    var z1 := WrappingMul(XorShift(state, 30), MUL1);
    var z2 := WrappingMul(XorShift(z1, 27), MUL2);
    XorShift(z2, 31)
  }

  function Unmix(out: u64): u64 {
    var z1 := WrappingMul(UnXorShift(out, 31), MUL2_INV);
    var z2 := WrappingMul(UnXorShift(z1, 27), MUL1_INV);
    UnXorShift(z2, 30)
  }

  /** The output mix is a bijection of the 64-bit words. */
  lemma {:induction false} MixIsBijective(x: u64)
    ensures Unmix(Mix(x)) == x
    ensures Mix(Unmix(x)) == x
  {
    InversesAreInverses();
    var a := XorShift(x, 30);
    var b := WrappingMul(a, MUL1);
    var c := XorShift(b, 27);
    var d := WrappingMul(c, MUL2);
    XorShiftRoundTrip(x, 30);
    MulRoundTrip(a, MUL1, MUL1_INV, 8125545580553827436);
    XorShiftRoundTrip(b, 27);
    MulRoundTrip(c, MUL2, MUL2_INV, 2077064247507883091);
    XorShiftRoundTrip(d, 31);

    var e := UnXorShift(x, 31);
    var f := WrappingMul(e, MUL2_INV);
    var g := UnXorShift(f, 27);
    var h := WrappingMul(g, MUL1_INV);
    XorShiftRoundTrip(x, 31);
    MulRoundTrip(e, MUL2_INV, MUL2, 2077064247507883091);
    XorShiftRoundTrip(f, 27);
    MulRoundTrip(g, MUL1_INV, MUL1, 8125545580553827436);
    XorShiftRoundTrip(h, 30);
  }

  // ---------------------------------------------------------------- the stream

  /** The generator state after k draws. */
  function StateAt(seed: u64, k: nat): u64
    decreases k, seed
  {
    if k == 0 then seed else WrappingAdd(StateAt(seed, k - 1), GAMMA)
  }

  /** The k-th draw of a seed, k counting from 1. */
  function Draw(seed: u64, k: nat): u64 {
    Mix(StateAt(seed, k))
  }

  /** The stored state is the seed plus one increment per draw, modulo 2^64. */
  lemma {:induction false} StateAtClosedForm(seed: u64, k: nat)
    ensures StateAt(seed, k) == (seed + k * GAMMA) % TWO64
    decreases k
  {
    if k > 0 {
      StateAtClosedForm(seed, k - 1);
      ModAdd(seed + (k - 1) * GAMMA, GAMMA);
      assert (k - 1) * GAMMA + GAMMA == k * GAMMA;
    }
  }

  /** Every draw is the mixed state: undoing the mix gives the seed plus one increment per draw. */
  lemma {:induction false} DrawIsMixed(seed: u64, k: nat)
    ensures Unmix(Draw(seed, k)) == (seed + k * GAMMA) % TWO64
  {
    MixIsBijective(StateAt(seed, k));
    StateAtClosedForm(seed, k);
  }

  // ---------------------------------------------------------------- the first draw of seed 0

  lemma {:induction false} HalfOf(a: nat, x: nat)
    ensures (2 * a + x) / 2 == a + x / 2 && (2 * a + x) % 2 == x % 2
  {
  }

  lemma {:induction false} ShrIsDivision(a: nat, k: nat, q: nat, r: nat)
    requires a == q * Pow2(k) + r && r < Pow2(k)
    ensures Shr(a, k) == q
    decreases k
  {
    if k > 0 {
      HalfOf(q * Pow2(k - 1), r);
      assert q * Pow2(k) == 2 * (q * Pow2(k - 1));
      ShrIsDivision(a / 2, k - 1, q, r / 2);
    }
  }

  /** The lowest n bits. */
  function Low(a: nat, n: nat): nat
    decreases n
  {
    if n == 0 then 0 else 2 * Low(a / 2, n - 1) + a % 2
  }

  lemma {:induction false} LowOfHalf(a: nat, n: nat)
    requires n > 0
    ensures Low(a, n) / 2 == Low(a / 2, n - 1) && Low(a, n) % 2 == a % 2
  {
    HalfOf(Low(a / 2, n - 1), a % 2);
  }

  lemma {:induction false} LowXor(a: nat, b: nat, n: nat)
    ensures Low(Xor(a, b), n) == Xor(Low(a, n), Low(b, n))
    decreases n
  {
    if n > 0 {
      XorHalf(a, b);
      LowXor(a / 2, b / 2, n - 1);
      LowOfHalf(a, n);
      LowOfHalf(b, n);
      LowOfHalf(Xor(a, b), n);
      XorHalf(Low(a, n), Low(b, n));
      SameDigits(Low(Xor(a, b), n), Xor(Low(a, n), Low(b, n)));
    } else {
      XorZero(0);
    }
  }

  /** A number is its high digits and its low bits. */
  lemma {:induction false} HighAndLow(a: nat, n: nat)
    ensures a == Shr(a, n) * Pow2(n) + Low(a, n) && Low(a, n) < Pow2(n)
    decreases n
  {
    if n > 0 {
      HighAndLow(a / 2, n - 1);
      assert Shr(a, n) * Pow2(n) == 2 * (Shr(a / 2, n - 1) * Pow2(n - 1));
    }
  }

  lemma {:induction false} BytesApart(a: nat, x: nat, n: nat)
    requires x < 256 && Pow2(n) == 256
    ensures Shr(256 * a + x, n) == a && Low(256 * a + x, n) == x
  {
    ShrIsDivision(256 * a + x, n, a, x);
    HighAndLow(256 * a + x, n);
  }

  lemma {:induction false} XorBytes(u: nat, v: nat, a: nat, b: nat, x: nat, y: nat, n: nat)
    requires x < 256 && y < 256 && Pow2(n) == 256 && u == 256 * a + x && v == 256 * b + y
    ensures Xor(u, v) == 256 * Xor(a, b) + Xor(x, y)
  {
    BytesApart(a, x, n);
    BytesApart(b, y, n);
    ShrXor(u, v, n);
    LowXor(u, v, n);
    HighAndLow(Xor(u, v), n);
  }

  lemma {:induction false} HalfByte(a: bv8)
    ensures (a >> 1) as nat == (a as nat) / 2 && (a & 1) as nat == (a as nat) % 2
  {
  }

  lemma {:induction false} BitsApart(a: bv8, b: bv8)
    ensures (a ^ b) >> 1 == (a >> 1) ^ (b >> 1)
    ensures ((a ^ b) & 1) as nat == ((a & 1) as nat + (b & 1) as nat) % 2
  {
  }

  lemma {:induction false} ByteHalves(a: bv8, b: bv8)
    ensures (a >> 1) as nat == (a as nat) / 2 && (b >> 1) as nat == (b as nat) / 2
    ensures ((a >> 1) ^ (b >> 1)) as nat == ((a ^ b) as nat) / 2
    ensures ((a ^ b) as nat) % 2 == ((a as nat) % 2 + (b as nat) % 2) % 2
  {
    HalfByte(a);
    HalfByte(b);
    HalfByte(a ^ b);
    BitsApart(a, b);
  }

  lemma {:induction false} XorFromHalf(x: nat, y: nat, z: nat)
    requires Xor(x / 2, y / 2) == z / 2 && z % 2 == (x % 2 + y % 2) % 2
    ensures Xor(x, y) == z
  {
    XorHalf(x, y);
    SameDigits(Xor(x, y), z);
  }

  /** On bytes the exclusive or is the machine's. */
  lemma {:induction false} XorOfBytes(a: bv8, b: bv8, x: nat, y: nat, z: nat)
    requires x == a as nat && y == b as nat && z == (a ^ b) as nat
    ensures Xor(x, y) == z
    decreases x + y
  {
    ByteHalves(a, b);
    if x + y > 0 {
      XorOfBytes(a >> 1, b >> 1, x / 2, y / 2, z / 2);
    } else {
      XorZero(0);
    }
    XorFromHalf(x, y, z);
  }

  lemma {:induction false} AppendDigits(a: nat, b: nat, c: nat, x: nat, y: nat, z: nat, n: nat)
    requires Xor(a, b) == c && Xor(x, y) == z && x < 256 && y < 256 && Pow2(n) == 256
    ensures Xor(256 * a + x, 256 * b + y) == 256 * c + z
  {
    XorBytes(256 * a + x, 256 * b + y, a, b, x, y, n);
  }

  lemma {:induction false} BytePower() returns (n: nat)
    ensures Pow2(n) == 256
  {
    n := 8;
  }

  lemma {:induction false} ByteNumbers(x: bv8, y: bv8, z: bv8) returns (p: nat, q: nat, r: nat)
    requires z == x ^ y
    ensures p == x as nat && q == y as nat && r == z as nat && p < 256 && q < 256 && Xor(p, q) == r
  {
    p, q, r := x as nat, y as nat, z as nat;
    XorOfBytes(x, y, p, q, r);
  }

  /** Exclusive or works byte by byte. */
  lemma {:induction false} AppendByte(a: nat, b: nat, c: nat, x: bv8, y: bv8, z: bv8)
    requires Xor(a, b) == c && z == x ^ y
    ensures Xor(256 * a + x as nat, 256 * b + y as nat) == 256 * c + z as nat
  {
    var p, q, r := ByteNumbers(x, y, z);
    var n := BytePower();
    AppendDigits(a, b, c, p, q, r, n);
  }

  lemma {:induction false} ShiftPowers()
    ensures Pow2(27) == 0x800_0000 && Pow2(30) == 0x4000_0000 && Pow2(31) == 0x8000_0000
  {
    assert Pow2(8) == 256;
    assert Pow2(16) == 0x1_0000;
    assert Pow2(24) == 0x100_0000;
  }

  lemma {:induction false} FirstXor()
    ensures Xor(0x9E37_79B9_7F4A_7C15, 0x0002_78DD_E6E5) == 0x9E37_79BB_0797_9AF0
  {
    XorZero(0x009E_3779);
    AppendByte(0x009E_3779, 0x0, 0x009E_3779, 0xB9, 0x02, 0xBB);
    AppendByte(0x9E37_79B9, 0x2, 0x9E37_79BB, 0x7F, 0x78, 0x07);
    AppendByte(0x009E_3779_B97F, 0x278, 0x009E_3779_BB07, 0x4A, 0xDD, 0x97);
    AppendByte(0x9E37_79B9_7F4A, 0x0002_78DD, 0x9E37_79BB_0797, 0x7C, 0xE6, 0x9A);
    AppendByte(0x009E_3779_B97F_4A7C, 0x0278_DDE6, 0x009E_3779_BB07_979A, 0x15, 0xE5, 0xF0);
  }

  lemma {:induction false} FirstShift(z: u64)
    requires z == 0x9E37_79B9_7F4A_7C15
    ensures XorShift(z, 30) == 0x9E37_79BB_0797_9AF0
  {
    ShiftPowers();
    ShrIsDivision(z, 30, 0x0002_78DD_E6E5, 0x3F4A_7C15);
    FirstXor();
  }

  lemma {:induction false} SecondXor()
    ensures Xor(0x6F68_261B_57E7_A770, 0x000D_ED04_C36A) == 0x6F68_2616_BAE3_641A
  {
    XorZero(0x006F_6826);
    AppendByte(0x006F_6826, 0x0, 0x006F_6826, 0x1B, 0x0D, 0x16);
    AppendByte(0x6F68_261B, 0xD, 0x6F68_2616, 0x57, 0xED, 0xBA);
    AppendByte(0x006F_6826_1B57, 0xDED, 0x006F_6826_16BA, 0xE7, 0x04, 0xE3);
    AppendByte(0x6F68_261B_57E7, 0x000D_ED04, 0x6F68_2616_BAE3, 0xA7, 0xC3, 0x64);
    AppendByte(0x006F_6826_1B57_E7A7, 0x0DED_04C3, 0x006F_6826_16BA_E364, 0x70, 0x6A, 0x1A);
  }

  lemma {:induction false} SecondShift(z: u64)
    requires z == 0x6F68_261B_57E7_A770
    ensures XorShift(z, 27) == 0x6F68_2616_BAE3_641A
  {
    ShiftPowers();
    ShrIsDivision(z, 27, 0x000D_ED04_C36A, 0x07E7_A770);
    SecondXor();
  }

  lemma {:induction false} ThirdXor()
    ensures Xor(0xE220_A838_BF5C_9DDE, 0x0001_C441_5071) == 0xE220_A839_7B1D_CDAF
  {
    XorZero(0x00E2_20A8);
    AppendByte(0x00E2_20A8, 0x0, 0x00E2_20A8, 0x38, 0x01, 0x39);
    AppendByte(0xE220_A838, 0x1, 0xE220_A839, 0xBF, 0xC4, 0x7B);
    AppendByte(0x00E2_20A8_38BF, 0x1C4, 0x00E2_20A8_397B, 0x5C, 0x41, 0x1D);
    AppendByte(0xE220_A838_BF5C, 0x0001_C441, 0xE220_A839_7B1D, 0x9D, 0x50, 0xCD);
    AppendByte(0x00E2_20A8_38BF_5C9D, 0x01C4_4150, 0x00E2_20A8_397B_1DCD, 0xDE, 0x71, 0xAF);
  }

  lemma {:induction false} ThirdShift(z: u64)
    requires z == 0xE220_A838_BF5C_9DDE
    ensures XorShift(z, 31) == 0xE220_A839_7B1D_CDAF
  {
    ShiftPowers();
    ShrIsDivision(z, 31, 0x0001_C441_5071, 0x3F5C_9DDE);
    ThirdXor();
  }

  lemma {:induction false} Products()
    ensures WrappingMul(0x9E37_79BB_0797_9AF0, MUL1) == 0x6F68_261B_57E7_A770
    ensures WrappingMul(0x6F68_2616_BAE3_641A, MUL2) == 0xE220_A838_BF5C_9DDE
  {
    assert 0x9E37_79BB_0797_9AF0 * MUL1 == 8521359190834410790 * TWO64 + 0x6F68_261B_57E7_A770;
    assert 0x6F68_2616_BAE3_641A * MUL2 == 4666532657160368660 * TWO64 + 0xE220_A838_BF5C_9DDE;
  }

  /** The first draw of seed 0, worked out byte by byte. */
  lemma {:induction false} FirstDraw()
    ensures Draw(0, 1) == 0xE220_A839_7B1D_CDAF
  {
    assert StateAt(0, 1) == GAMMA;
    FirstShift(GAMMA);
    Products();
    SecondShift(0x6F68_261B_57E7_A770);
    ThirdShift(0xE220_A838_BF5C_9DDE);
  }

  lemma {:induction false} ModAdd(a: nat, b: nat)
    ensures (a % TWO64 + b) % TWO64 == (a + b) % TWO64
  {
    var q, r := a / TWO64, a % TWO64;
    assert a + b == (r + b) + q * TWO64;
    ModShift(r + b, q);
  }

  /** Draws compose: k draws from the state reached after j are draws j+1 .. j+k. */
  lemma {:induction false} StateAtCompose(seed: u64, j: nat, k: nat)
    ensures StateAt(StateAt(seed, j), k) == StateAt(seed, j + k)
    decreases k
  {
    if k > 0 {
      StateAtCompose(seed, j, k - 1);
    }
  }

  /** Equal states are a multiple of 2^64 steps apart. */
  lemma {:induction false} StatesRepeatOnlyAfterFullPeriod(seed: u64, i: nat, j: nat)
    requires i <= j
    ensures StateAt(seed, i) == StateAt(seed, j) <==> (j - i) % TWO64 == 0
  {
    StateAtClosedForm(seed, i);
    StateAtClosedForm(seed, j);
    var d := j - i;
    var x := seed + i * GAMMA;
    assert seed + j * GAMMA == x + d * GAMMA by {
      assert j * GAMMA == i * GAMMA + d * GAMMA;
    }
    if (x + d * GAMMA) % TWO64 == x % TWO64 {
      var q := (x + d * GAMMA) / TWO64 - x / TWO64;
      assert d * GAMMA == q * TWO64;
      InversesAreInverses();
      calc {
        d * GAMMA * GAMMA_INV;
        d * (GAMMA * GAMMA_INV);
        d * (1 + 10771413168148108919 * TWO64);
        d + (d * 10771413168148108919) * TWO64;
      }
      assert d == (q * GAMMA_INV - d * 10771413168148108919) * TWO64;
      ModPlusMultiple(0, q * GAMMA_INV - d * 10771413168148108919);
    }
    if d % TWO64 == 0 {
      var q := d / TWO64;
      assert d * GAMMA == (q * GAMMA) * TWO64;
      ModShift(x, q * GAMMA);
    }
  }

  /** Within 2^64 draws no value occurs twice. */
  lemma {:induction false} DrawsAreDistinct(seed: u64, i: nat, j: nat)
    requires i < j < i + TWO64
    ensures Draw(seed, i) != Draw(seed, j)
  {
    StatesRepeatOnlyAfterFullPeriod(seed, i, j);
    BelowModulus(j - i);
    MixIsInjective(StateAt(seed, i), StateAt(seed, j));
  }

  lemma {:induction false} BelowModulus(d: nat)
    requires 0 < d < TWO64
    ensures d % TWO64 != 0
  {
  }

  lemma {:induction false} MixIsInjective(x: u64, y: u64)
    requires x != y
    ensures Mix(x) != Mix(y)
  {
    MixIsBijective(x);
    MixIsBijective(y);
  }

  // ---------------------------------------------------------------- bounded draws

  /** The outcome of a 64-bit word under the widening multiply. */
  function Scale(word: u64, bound: u64): (r: int) {
    (word * bound) / TWO64
  }

  lemma {:induction false} ScaleInRange(word: u64, bound: u64)
    requires bound > 0
    ensures 0 <= Scale(word, bound) < bound
  {
    MulMonotone(word, TWO64 - 1, bound);
    DivBelow(word * bound, bound);
  }

  lemma {:induction false} DivBelow(x: nat, b: nat)
    requires x < TWO64 * b
    ensures x / TWO64 < b
  {
    var q := x / TWO64;
    assert x == q * TWO64 + x % TWO64;
  }

  /** The first word whose outcome is at least j. */
  function FirstWord(j: nat, bound: u64): nat
    requires bound > 0
  {
    (j * TWO64 + bound - 1) / bound
  }

  /** The words with outcome j are the interval from FirstWord(j) up to FirstWord(j + 1). */
  lemma {:induction false} OutcomeInterval(word: u64, j: nat, bound: u64)
    requires 0 < bound && j < bound
    ensures Scale(word, bound) == j <==> FirstWord(j, bound) <= word < FirstWord(j + 1, bound)
    ensures 0 <= FirstWord(j, bound) <= FirstWord(j + 1, bound) <= TWO64
  {
    FirstWordSpec(word, j, bound);
    FirstWordSpec(word, j + 1, bound);
    var x := word * bound;
    assert x == (x / TWO64) * TWO64 + x % TWO64;
    QuotientCompare(x, j);
    QuotientCompare(x, j + 1);
    var lo, hi := j * TWO64 + bound - 1, (j + 1) * TWO64 + bound - 1;
    DivMonotone(lo, hi, bound);
    assert hi <= bound * TWO64 + bound - 1;
    DivMonotone(hi, bound * TWO64 + bound - 1, bound);
    DivExact(TWO64, bound - 1, bound);
  }

  lemma {:induction false} QuotientCompare(x: nat, j: nat)
    ensures x / TWO64 >= j <==> x >= j * TWO64
  {
    assert x == (x / TWO64) * TWO64 + x % TWO64;
  }

  lemma {:induction false} FirstWordSpec(word: nat, j: nat, bound: u64)
    requires bound > 0
    ensures word >= FirstWord(j, bound) <==> word * bound >= j * TWO64
  {
    var x := j * TWO64 + bound - 1;
    var q := x / bound;
    DivModId(x, bound);
    assert x == q * bound + x % bound;
    if word >= q {
      MulMonotone(q, word, bound);
    } else {
      MulMonotone(word + 1, q, bound);
      assert (word + 1) * bound == word * bound + bound;
    }
  }

  lemma {:induction false} MulMonotone(a: nat, b: nat, c: nat)
    requires a <= b
    ensures a * c <= b * c
  {
  }

  lemma {:induction false} DivModId(x: int, d: int)
    requires d > 0
    ensures x == (x / d) * d + x % d && 0 <= x % d < d
  {
  }

  lemma {:induction false} MulCancel(a: int, b: int, d: nat)
    requires a * d < b * d + d
    ensures a <= b
  {
    if a > b {
      MulMonotoneInt(b + 1, a, d);
    }
  }

  lemma {:induction false} MulMonotoneInt(a: int, b: int, c: nat)
    requires a <= b
    ensures a * c <= b * c
  {
    MulMonotone(0, b - a, c);
    assert (b - a) * c == b * c - a * c;
  }

  lemma {:induction false} DivMonotone(a: nat, b: nat, d: nat)
    requires a <= b && d > 0
    ensures a / d <= b / d
  {
    DivModId(a, d);
    DivModId(b, d);
    MulCancel(a / d, b / d, d);
  }

  lemma {:induction false} DivExact(q: nat, r: nat, d: nat)
    requires r < d
    ensures (d * q + r) / d == q
  {
    DivModId(d * q + r, d);
    var p := (d * q + r) / d;
    assert p * d <= q * d + r < p * d + d;
    MulCancel(p, q, d);
    MulCancel(q, p, d);
  }

  /** How many 64-bit words give outcome j. */
  function WordCount(j: nat, bound: u64): int
    requires bound > 0
  {
    FirstWord(j + 1, bound) - FirstWord(j, bound)
  }

  /** Every outcome owns floor(2^64 / bound) words or one more. */
  lemma {:induction false} OutcomesWithinOneWord(j: nat, bound: u64)
    requires bound > 0
    ensures TWO64 / bound <= WordCount(j, bound) <= TWO64 / bound + 1
  {
    var a, b := j * TWO64 + bound - 1, (j + 1) * TWO64 + bound - 1;
    var n := TWO64 / bound;
    DivModId(a, bound);
    DivModId(b, bound);
    DivModId(TWO64, bound);
    var p, q := a / bound, b / bound;
    assert (q - p) * bound == TWO64 + a % bound - b % bound by {
      assert (q - p) * bound == q * bound - p * bound;
    }
    MulCancel(n, q - p, bound);
    assert (n + 1) * bound == n * bound + bound;
    MulCancel(q - p, n + 1, bound);
  }

  /** The bounded draw is uniform exactly when the bound divides 2^64. */
  lemma {:induction false} UniformExactlyForDivisors(bound: u64)
    requires bound > 0
    ensures (forall j: nat | j < bound :: WordCount(j, bound) == WordCount(0, bound)) <==> TWO64 % bound == 0
  {
    DivModId(TWO64, bound);
    var n := TWO64 / bound;
    if TWO64 % bound == 0 {
      forall j: nat | j < bound ensures WordCount(j, bound) == n {
        FirstWordOfDivisor(j, n, bound);
        FirstWordOfDivisor(j + 1, n, bound);
      }
    } else if forall j: nat | j < bound :: WordCount(j, bound) == WordCount(0, bound) {
      var w := WordCount(0, bound);
      FirstWordSum(bound, w, bound);
      DivExact(0, bound - 1, bound);
      DivExact(TWO64, bound - 1, bound);
      assert FirstWord(0, bound) == 0;
      assert FirstWord(bound, bound) == TWO64;
      DivExact(w, 0, bound);
      DivModId(bound * w, bound);
      assert false;
    }
  }

  lemma {:induction false} FirstWordOfDivisor(j: nat, n: nat, bound: u64)
    requires bound > 0 && TWO64 == n * bound
    ensures FirstWord(j, bound) == j * n
  {
    assert j * TWO64 == bound * (j * n);
    DivExact(j * n, bound - 1, bound);
  }

  lemma {:induction false} FirstWordSum(k: nat, w: int, bound: u64)
    requires 0 < bound && k <= bound
    requires forall j: nat | j < bound :: WordCount(j, bound) == w
    ensures FirstWord(k, bound) == FirstWord(0, bound) + k * w
    decreases k
  {
    if k > 0 {
      FirstWordSum(k - 1, w, bound);
      assert WordCount(k - 1, bound) == w;
      assert k * w == (k - 1) * w + w;
    }
  }

  // ---------------------------------------------------------------- the generator

  class SplitMix64 {
    var state: u64

    constructor (seed: u64)
      ensures state == seed
    {
      state := seed;
    }

    /** Advances the state by the odd increment and answers the mixed state. */
    method NextU64() returns (r: u64)
      modifies this
      ensures state == StateAt(old(state), 1)
      ensures r == Draw(old(state), 1) && Unmix(r) == (old(state) + GAMMA) % TWO64
    {
      DrawIsMixed(state, 1);
      state := WrappingAdd(state, GAMMA);
      r := Mix(state);
    }

    method Below(bound: u64) returns (r: u64)
      requires bound > 0
      modifies this
      ensures state == StateAt(old(state), 1)
      ensures r < bound && r == Scale(Draw(old(state), 1), bound)
    {
      var word := NextU64();
      ScaleInRange(word, bound);
      r := Scale(word, bound);
    }

    /** Exchanges the top one of the lowest n items with one of them drawn at random. */
    method ShuffleStep<T>(items: array<T>, n: nat)
      requires 1 < n <= items.Length < TWO64
      modifies this, items
      ensures Shuffled(items[..], state, n - 1) == Shuffled(old(items[..]), old(state), n)
      ensures state == StateAt(old(state), 1)
    {
      ghost var before, word := items[..], state;
      var j := Below(n);
      SwapItems(items, n - 1, j);
      ShuffledUnfolds(before, word, n, j);
    }

    /** In-place Fisher-Yates: one bounded draw per position but the first. */
    method Shuffle<T>(items: array<T>)
      requires items.Length < TWO64
      modifies this, items
      ensures items[..] == Shuffled(old(items[..]), old(state), items.Length)
      ensures state == StateAt(old(state), if items.Length > 0 then items.Length - 1 else 0)
    {
      var i := items.Length;
      ghost var was, seed := items[..], state;
      while i > 1
        invariant 0 <= i <= items.Length
        invariant items.Length > 0 ==> i > 0
        invariant Shuffled(items[..], state, i) == Shuffled(was, seed, items.Length)
        invariant state == StateAt(seed, items.Length - i)
      {
        StateAtCompose(seed, items.Length - i, 1);
        ShuffleStep(items, i);
        i := i - 1;
      }
    }
  }

  method SwapItems<T>(items: array<T>, i: nat, j: nat)
    requires i < items.Length && j < items.Length
    modifies items
    ensures items[..] == Swap(old(items[..]), i, j)
  {
    items[i], items[j] := items[j], items[i];
  }

  lemma {:induction false} ShuffledUnfolds<T>(s: seq<T>, state: u64, n: nat, j: nat)
    requires 1 < n <= |s| && n < TWO64 && j < n
    requires j == Scale(Draw(state, 1), n)
    ensures Shuffled(s, state, n) == Shuffled(Swap(s, n - 1, j), StateAt(state, 1), n - 1)
  {
  }

  function Swap<T>(s: seq<T>, i: nat, j: nat): seq<T>
    requires i < |s| && j < |s|
  {
    s[i := s[j]][j := s[i]]
  }

  lemma {:induction false} SwapKeepsElements<T>(s: seq<T>, i: nat, j: nat)
    requires i < |s| && j < |s|
    ensures multiset(Swap(s, i, j)) == multiset(s)
  {
  }

  /** Positions below n still to be shuffled, from the top down. */
  function Shuffled<T>(s: seq<T>, state: u64, n: nat): seq<T>
    requires n <= |s| && n < TWO64
    decreases n
  {
    if n <= 1 then s else
      ScaleInRange(Draw(state, 1), n);
      Shuffled(Swap(s, n - 1, Scale(Draw(state, 1), n)), StateAt(state, 1), n - 1)
  }

  /** The shuffle is a permutation: it only ever swaps. */
  lemma {:induction false} ShuffledIsPermutation<T>(s: seq<T>, state: u64, n: nat)
    requires n <= |s| && n < TWO64
    ensures multiset(Shuffled(s, state, n)) == multiset(s)
    decreases n
  {
    if n > 1 {
      ScaleInRange(Draw(state, 1), n);
      var t := Swap(s, n - 1, Scale(Draw(state, 1), n));
      SwapKeepsElements(s, n - 1, Scale(Draw(state, 1), n));
      ShuffledIsPermutation(t, StateAt(state, 1), n - 1);
    }
  }
}
