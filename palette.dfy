/** The colour helper of the preload scene: darken an RGB colour by subtracting
    the same amount from each 8-bit channel, clamping at zero.

    JavaScript's bitwise operators are written out over non-negative integers:
    `x >> n` is floor division by 2^n (exact for a non-negative 32-bit operand),
    `x << n` is multiplication by 2^n (no bit is shifted past bit 31 here, since
    every shifted channel is at most 255), and `&`, `|` are defined bit by bit. */
module Palette {

  function Pow2(n: nat): (p: nat)
    ensures p >= 1
  {
    if n == 0 then 1 else 2 * Pow2(n - 1)
  }

  /** `x >> n`, one halving per bit. */
  function ShiftRight(x: nat, n: nat): nat
    decreases n
  {
    if n == 0 then x else ShiftRight(x / 2, n - 1)
  }

  function ShiftLeft(x: nat, n: nat): nat
  {
    x * Pow2(n)
  }

  /** Bitwise and, lowest bit first. */
  function BitAnd(x: nat, y: nat): nat
    decreases x
  {
    if x == 0 || y == 0 then 0
    else 2 * BitAnd(x / 2, y / 2) + (if x % 2 == 1 && y % 2 == 1 then 1 else 0)
  }

  /** Bitwise or, lowest bit first. */
  function BitOr(x: nat, y: nat): nat
    decreases x + y
  {
    if x == 0 then y
    else if y == 0 then x
    else 2 * BitOr(x / 2, y / 2) + (if x % 2 == 1 || y % 2 == 1 then 1 else 0)
  }

  function Max(a: int, b: int): int
  {
    if a >= b then a else b
  }

  /** A colour value the source's shifts read as a non-negative 32-bit integer. */
  predicate IsColorWord(color: int)
  {
    0 <= color < 0x8000_0000
  }

  predicate Is24Bit(color: int)
  {
    0 <= color < 0x100_0000
  }

  /** The red, green and blue channels: (color >> 16) & 0xff and so on. */
  function Red(color: nat): nat { BitAnd(ShiftRight(color, 16), 0xFF) }
  function Green(color: nat): nat { BitAnd(ShiftRight(color, 8), 0xFF) }
  function Blue(color: nat): nat { BitAnd(color, 0xFF) }

  /** darken(color, amount): each channel loses `amount`, clamped at zero, and the
      three are packed back as (r << 16) | (g << 8) | b. The amount is a whole
      number of at least 0, as the source documents it (0-255) and as every caller
      passes it. */
  function Darken(color: int, amount: int): int
    requires IsColorWord(color) && amount >= 0
  {
    var r := Max(0, Red(color) - amount);
    var g := Max(0, Green(color) - amount);
    var b := Max(0, Blue(color) - amount);
    BitOr(BitOr(ShiftLeft(r, 16), ShiftLeft(g, 8)), b)
  }

  lemma Pow2Values()
    ensures Pow2(8) == 0x100 && Pow2(16) == 0x1_0000
  {
  }

  /** Division with remainder has one answer. */
  lemma DivModUnique(x: int, d: int, q: int, r: int)
    requires d > 0 && x == d * q + r && 0 <= r < d
    ensures x / d == q && x % d == r
  {
    var q', r' := x / d, x % d;
    assert d * (q - q') == r' - r;
    if q > q' {
      MulAtLeast(d, q - q');
    } else if q < q' {
      MulAtLeast(d, q' - q);
    }
  }

  lemma MulAtLeast(d: int, n: int)
    requires d > 0 && n >= 1
    ensures d * n >= d
  {
  }

  /** x % 2^k peels off as the low bit plus twice the rest. */
  lemma ModPow2Step(x: nat, k: nat)
    requires k >= 1
    ensures x % Pow2(k) == 2 * ((x / 2) % Pow2(k - 1)) + x % 2
  {
    var p := Pow2(k - 1);
    var q, t := (x / 2) / p, (x / 2) % p;
    assert x / 2 == p * q + t;
    assert x == (2 * p) * q + (2 * t + x % 2);
    DivModUnique(x, 2 * p, q, 2 * t + x % 2);
  }

  /** Shifting right by n is floor division by 2^n. */
  lemma {:induction false} ShiftRightIsDiv(x: nat, n: nat)
    ensures ShiftRight(x, n) == x / Pow2(n)
    decreases n
  {
    if n > 0 {
      ShiftRightIsDiv(x / 2, n - 1);
      HalveThenDivide(x, Pow2(n - 1));
    }
  }

  /** Halving and then dividing by p is dividing by 2p. */
  lemma HalveThenDivide(x: nat, p: nat)
    requires p >= 1
    ensures (x / 2) / p == x / (2 * p)
  {
    var q, t := (x / 2) / p, (x / 2) % p;
    assert x / 2 == p * q + t;
    assert x == (2 * p) * q + (2 * t + x % 2);
    DivModUnique(x, 2 * p, q, 2 * t + x % 2);
  }

  /** Masking with 2^k - 1 keeps the low k bits: x & (2^k - 1) == x % 2^k. */
  lemma {:induction false} AndLowMask(x: nat, k: nat)
    ensures BitAnd(x, Pow2(k) - 1) == x % Pow2(k)
    decreases k
  {
    if k == 0 {
    } else if x == 0 {
    } else {
      var m := Pow2(k) - 1;
      assert m / 2 == Pow2(k - 1) - 1 && m % 2 == 1;
      AndLowMask(x / 2, k - 1);
      ModPow2Step(x, k);
    }
  }

  /** Or-ing a multiple of 2^k with a number below 2^k is adding them. */
  lemma {:induction false} OrDisjoint(x: nat, y: nat, k: nat)
    requires y < Pow2(k)
    ensures BitOr(x * Pow2(k), y) == x * Pow2(k) + y
    decreases k
  {
    if k == 0 {
      assert y == 0;
    } else if x == 0 || y == 0 {
      assert x * Pow2(k) == 0 || y == 0;
    } else {
      var p := Pow2(k - 1);
      assert x * Pow2(k) == 2 * (x * p);
      assert (x * Pow2(k)) / 2 == x * p && (x * Pow2(k)) % 2 == 0;
      OrDisjoint(x, y / 2, k - 1);
    }
  }

  /** Packing three 8-bit channels is adding them as base-256 digits. */
  lemma PackIsSum(r: nat, g: nat, b: nat)
    requires r <= 0xFF && g <= 0xFF && b <= 0xFF
    ensures BitOr(BitOr(ShiftLeft(r, 16), ShiftLeft(g, 8)), b) == r * 0x1_0000 + g * 0x100 + b
  {
    Pow2Values();
    OrDisjoint(r, g * 0x100, 16);
    assert r * 0x1_0000 + g * 0x100 == (r * 0x100 + g) * Pow2(8);
    OrDisjoint(r * 0x100 + g, b, 8);
  }

  /** The channels of a colour are its base-256 digits. */
  lemma ChannelsOf(c: nat)
    ensures Red(c) == (c / 0x1_0000) % 0x100
    ensures Green(c) == (c / 0x100) % 0x100
    ensures Blue(c) == c % 0x100
  {
    Pow2Values();
    ShiftRightIsDiv(c, 16);
    ShiftRightIsDiv(c, 8);
    AndLowMask(c / 0x1_0000, 8);
    AndLowMask(c / 0x100, 8);
    AndLowMask(c, 8);
  }

  /** Reading the digits back from r * 2^16 + g * 2^8 + b. */
  lemma DigitsOfSum(r: nat, g: nat, b: nat)
    requires r <= 0xFF && g <= 0xFF && b <= 0xFF
    ensures Is24Bit(r * 0x1_0000 + g * 0x100 + b)
    ensures Red(r * 0x1_0000 + g * 0x100 + b) == r
    ensures Green(r * 0x1_0000 + g * 0x100 + b) == g
    ensures Blue(r * 0x1_0000 + g * 0x100 + b) == b
  {
    var c := r * 0x1_0000 + g * 0x100 + b;
    ChannelsOf(c);
    DivModUnique(c, 0x1_0000, r, g * 0x100 + b);
    DivModUnique(c, 0x100, r * 0x100 + g, b);
    DivModUnique(r * 0x100 + g, 0x100, r, g);
    DivModUnique(r, 0x100, 0, r);
  }

  /** A 24-bit colour is the sum of its digits. */
  lemma SumOfDigits(c: nat)
    requires Is24Bit(c)
    ensures Red(c) <= 0xFF && Green(c) <= 0xFF && Blue(c) <= 0xFF
    ensures c == Red(c) * 0x1_0000 + Green(c) * 0x100 + Blue(c)
  {
    ChannelsOf(c);
    var hi, lo := c / 0x100, c % 0x100;
    assert c == hi * 0x100 + lo;
    assert hi == (hi / 0x100) * 0x100 + hi % 0x100;
    assert hi / 0x100 == c / 0x1_0000 by {
      DivModUnique(c, 0x1_0000, hi / 0x100, (hi % 0x100) * 0x100 + lo);
    }
    DivModUnique(c / 0x1_0000, 0x100, 0, c / 0x1_0000);
  }

  /** Each output channel is the input channel minus the amount, clamped at
      zero, so no channel increases; the result is a valid 24-bit colour. */
  lemma DarkenChannels(color: int, amount: int)
    requires IsColorWord(color) && amount >= 0
    ensures Is24Bit(Darken(color, amount))
    ensures Red(Darken(color, amount)) == Max(0, Red(color) - amount) <= Red(color)
    ensures Green(Darken(color, amount)) == Max(0, Green(color) - amount) <= Green(color)
    ensures Blue(Darken(color, amount)) == Max(0, Blue(color) - amount) <= Blue(color)
  {
    var r, g, b := Max(0, Red(color) - amount), Max(0, Green(color) - amount), Max(0, Blue(color) - amount);
    ChannelsOf(color);
    PackIsSum(r, g, b);
    DigitsOfSum(r, g, b);
  }

  /** Darkening by zero leaves every 24-bit colour as it is. */
  lemma DarkenByZero(color: int)
    requires Is24Bit(color)
    ensures Darken(color, 0) == color
  {
    SumOfDigits(color);
    PackIsSum(Red(color), Green(color), Blue(color));
  }

  /** Darkening twice is darkening once by the sum of the amounts. */
  lemma DarkenTwice(color: int, a: int, b: int)
    requires IsColorWord(color) && a >= 0 && b >= 0
    ensures IsColorWord(Darken(color, a))
    ensures Darken(Darken(color, a), b) == Darken(color, a + b)
  {
    DarkenChannels(color, a);
    SameChannelsSameDarken(Darken(color, a), b, color, a + b);
  }

  /** Two darkenings whose clamped channels agree give the same colour. */
  lemma SameChannelsSameDarken(x: int, b: int, y: int, c: int)
    requires IsColorWord(x) && IsColorWord(y) && b >= 0 && c >= 0
    requires Max(0, Red(x) - b) == Max(0, Red(y) - c)
    requires Max(0, Green(x) - b) == Max(0, Green(y) - c)
    requires Max(0, Blue(x) - b) == Max(0, Blue(y) - c)
    ensures Darken(x, b) == Darken(y, c)
  {
  }
}
