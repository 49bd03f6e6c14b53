/**
 Python's integer operators on unbounded integers, as the emulator uses them:
 floor division and the modulo built from it, the shifts `<<` and `>>`, and the
 bitwise operators `&`, `|`, `^` and `~`, which act on the infinite two's
 complement representation of an integer.

 Dafny's `/` and `%` are Euclidean; for a positive divisor Euclidean division
 rounds toward negative infinity, so `x / 2` is Python's `x >> 1` and `x % 2`
 is the lowest bit of `x` for every integer `x`, negative ones included.
 */
module PyInt {

  /** 2 to the power `n`. */
  function Pow2(n: nat): (p: int)
    ensures p >= 1
  {
    if n == 0 then 1 else 2 * Pow2(n - 1)
  }

  /** Python's `a // b`: the quotient rounded toward negative infinity. */
  function FloorDiv(a: int, b: int): (q: int)
    requires b != 0
    ensures b > 0 ==> q * b <= a < q * b + b
    ensures b < 0 ==> q * b + b < a <= q * b
  {
    if b > 0 then a / b
    else
      var q := (-a) / (-b);
      assert (-a) == (-b) * q + (-a) % (-b);
      assert -((-b) * q) == q * b;
      q
  }

  /** `a - (a // b) * b`: the remainder whose sign follows the divisor. */
  function FloorMod(a: int, b: int): (r: int)
    requires b != 0
    ensures b > 0 ==> 0 <= r < b
    ensures b < 0 ==> b < r <= 0
    ensures b > 0 ==> r == a % b
  {
    a - FloorDiv(a, b) * b
  }

  /** Multiplying a positive number by a factor of at least one does not make it smaller. */
  lemma MulAtLeast(k: int, b: int)
    requires k >= 1 && b > 0
    ensures k * b >= b
  {
    assert k * b == (k - 1) * b + b;
  }

  /**
   Floor division and floor modulo are the only quotient and remainder with
   `a == q * b + r` whose remainder lies strictly between zero (inclusive) and
   the divisor, on the divisor's side of zero.
   */
  lemma FloorDivModUnique(a: int, b: int, q: int, r: int)
    requires b != 0
    requires a == q * b + r
    requires b > 0 ==> 0 <= r < b
    requires b < 0 ==> b < r <= 0
    ensures q == FloorDiv(a, b) && r == FloorMod(a, b)
  {
    var q0 := FloorDiv(a, b);
    var r0 := FloorMod(a, b);
    assert (q - q0) * b == r0 - r;
    if q > q0 {
      if b > 0 { MulAtLeast(q - q0, b); }
      else { assert (q - q0) * (-b) == -((q - q0) * b); MulAtLeast(q - q0, -b); }
    } else if q < q0 {
      assert (q0 - q) * b == -((q - q0) * b);
      if b > 0 { MulAtLeast(q0 - q, b); }
      else { assert (q0 - q) * (-b) == (q - q0) * b; MulAtLeast(q0 - q, -b); }
    }
  }

  /** Python's `x << n` for a non-negative shift count, as `n` doublings. */
  function ShiftLeft(x: int, n: nat): (r: int)
    ensures r == x * Pow2(n)
  {
    if n == 0 then x
    else
      var r := 2 * ShiftLeft(x, n - 1);
      assert r == x * (2 * Pow2(n - 1));
      r
  }

  /** Python's `x >> n` for a non-negative shift count, as `n` floor halvings. */
  function ShiftRight(x: int, n: nat): (r: int)
    ensures r * Pow2(n) <= x < r * Pow2(n) + Pow2(n)
    decreases n
  {
    if n == 0 then x
    else
      var r := ShiftRight(x / 2, n - 1);
      assert r * Pow2(n) == 2 * (r * Pow2(n - 1));
      r
  }

  /** Shifting left and then right by the same count gives the number back. */
  lemma {:induction false} ShiftRightShiftLeft(x: int, n: nat)
    ensures ShiftRight(ShiftLeft(x, n), n) == x
  {
    if n > 0 {
      calc {
        ShiftRight(ShiftLeft(x, n), n);
        ShiftRight(2 * ShiftLeft(x, n - 1) / 2, n - 1);
        { assert 2 * ShiftLeft(x, n - 1) / 2 == ShiftLeft(x, n - 1); }
        ShiftRight(ShiftLeft(x, n - 1), n - 1);
        { ShiftRightShiftLeft(x, n - 1); }
        x;
      }
    }
  }

  /** Bit `i` of the two's complement representation of `x`. */
  predicate Bit(x: int, i: nat) {
    ShiftRight(x, i) % 2 == 1
  }

  /** The integers whose representation is all zeros or all ones. */
  predicate Uniform(x: int) {
    x == 0 || x == -1
  }

  /** Python's `x & y`. */
  function BitAnd(x: int, y: int): int
    decreases Magnitude(x) + Magnitude(y)
  {
    if Uniform(x) && Uniform(y) then (if x == -1 && y == -1 then -1 else 0)
    else
      HalvingShrinks(x); HalvingShrinks(y);
      2 * BitAnd(x / 2, y / 2) + (if x % 2 == 1 && y % 2 == 1 then 1 else 0)
  }

  /** Python's `x | y`. */
  function BitOr(x: int, y: int): int
    decreases Magnitude(x) + Magnitude(y)
  {
    if Uniform(x) && Uniform(y) then (if x == -1 || y == -1 then -1 else 0)
    else
      HalvingShrinks(x); HalvingShrinks(y);
      2 * BitOr(x / 2, y / 2) + (if x % 2 == 1 || y % 2 == 1 then 1 else 0)
  }

  /** Python's `x ^ y`. */
  function BitXor(x: int, y: int): int
    decreases Magnitude(x) + Magnitude(y)
  {
    if Uniform(x) && Uniform(y) then (if x != y then -1 else 0)
    else
      HalvingShrinks(x); HalvingShrinks(y);
      2 * BitXor(x / 2, y / 2) + (if (x % 2 == 1) != (y % 2 == 1) then 1 else 0)
  }

  /** Python's `~x`, which is `-x - 1`: every bit flipped. */
  function Invert(x: int): int {
    -x - 1
  }

  function Magnitude(x: int): nat {
    if x < 0 then -x else x
  }

  /** Floor halving fixes 0 and -1 and makes every other integer smaller in magnitude. */
  lemma HalvingShrinks(x: int)
    ensures Uniform(x) ==> x / 2 == x
    ensures !Uniform(x) ==> Magnitude(x / 2) < Magnitude(x)
  {
  }

  /** The halving step that the bitwise functions are built from. */
  lemma Halve(z: int, c: int)
    requires c == 0 || c == 1
    ensures (2 * z + c) / 2 == z && (2 * z + c) % 2 == c
  {
  }

  /** Bit `i + 1` of `x` is bit `i` of `x >> 1`. */
  lemma BitSucc(x: int, i: nat)
    ensures Bit(x, i + 1) == Bit(x / 2, i)
  {
  }

  /** Each bit of `x & y` is the conjunction of the bits of `x` and `y`. */
  lemma {:induction false} BitAndBits(x: int, y: int, i: nat)
    ensures Bit(BitAnd(x, y), i) == (Bit(x, i) && Bit(y, i))
    decreases i
  {
    var z := BitAnd(x, y);
    if Uniform(x) && Uniform(y) {
      assert Bit(x, i) == (x == -1) by { UniformBits(x, i); }
      assert Bit(y, i) == (y == -1) by { UniformBits(y, i); }
      UniformBits(z, i);
    } else {
      var c := if x % 2 == 1 && y % 2 == 1 then 1 else 0;
      Halve(BitAnd(x / 2, y / 2), c);
      if i > 0 {
        BitSucc(z, i - 1); BitSucc(x, i - 1); BitSucc(y, i - 1);
        BitAndBits(x / 2, y / 2, i - 1);
      }
    }
  }

  /** Each bit of `x | y` is the disjunction of the bits of `x` and `y`. */
  lemma {:induction false} BitOrBits(x: int, y: int, i: nat)
    ensures Bit(BitOr(x, y), i) == (Bit(x, i) || Bit(y, i))
    decreases i
  {
    var z := BitOr(x, y);
    if Uniform(x) && Uniform(y) {
      assert Bit(x, i) == (x == -1) by { UniformBits(x, i); }
      assert Bit(y, i) == (y == -1) by { UniformBits(y, i); }
      UniformBits(z, i);
    } else {
      var c := if x % 2 == 1 || y % 2 == 1 then 1 else 0;
      Halve(BitOr(x / 2, y / 2), c);
      if i > 0 {
        BitSucc(z, i - 1); BitSucc(x, i - 1); BitSucc(y, i - 1);
        BitOrBits(x / 2, y / 2, i - 1);
      }
    }
  }

  /** Each bit of `x ^ y` is set exactly when the bits of `x` and `y` differ. */
  lemma {:induction false} BitXorBits(x: int, y: int, i: nat)
    ensures Bit(BitXor(x, y), i) == (Bit(x, i) != Bit(y, i))
    decreases i
  {
    var z := BitXor(x, y);
    if Uniform(x) && Uniform(y) {
      assert Bit(x, i) == (x == -1) by { UniformBits(x, i); }
      assert Bit(y, i) == (y == -1) by { UniformBits(y, i); }
      UniformBits(z, i);
    } else {
      var c := if (x % 2 == 1) != (y % 2 == 1) then 1 else 0;
      Halve(BitXor(x / 2, y / 2), c);
      if i > 0 {
        BitSucc(z, i - 1); BitSucc(x, i - 1); BitSucc(y, i - 1);
        BitXorBits(x / 2, y / 2, i - 1);
      }
    }
  }

  /** Each bit of `~x` is the negation of the same bit of `x`. */
  lemma {:induction false} InvertBits(x: int, i: nat)
    ensures Bit(Invert(x), i) == !Bit(x, i)
    decreases i
  {
    if i > 0 {
      assert Invert(x) / 2 == Invert(x / 2);
      BitSucc(Invert(x), i - 1); BitSucc(x, i - 1);
      InvertBits(x / 2, i - 1);
    }
  }

  /** Every bit of 0 is clear and every bit of -1 is set. */
  lemma {:induction false} UniformBits(x: int, i: nat)
    requires Uniform(x)
    ensures Bit(x, i) == (x == -1)
    decreases i
  {
    if i > 0 {
      BitSucc(x, i - 1);
      UniformBits(x / 2, i - 1);
    }
  }

  /** `&`, `|` and `^` of two values in [0, 2^k) stay in [0, 2^k). */
  lemma {:induction false} BitwiseInRange(x: int, y: int, k: nat)
    requires 0 <= x < Pow2(k) && 0 <= y < Pow2(k)
    ensures 0 <= BitAnd(x, y) < Pow2(k)
    ensures 0 <= BitOr(x, y) < Pow2(k)
    ensures 0 <= BitXor(x, y) < Pow2(k)
    decreases k
  {
    if !(Uniform(x) && Uniform(y)) {
      assert k > 0;
      BitwiseInRange(x / 2, y / 2, k - 1);
    }
  }

  /** `~x` of a value in [0, 2^k) lies in [-2^k, 0): it always leaves the byte range. */
  lemma InvertOfNonNegative(x: int, k: nat)
    requires 0 <= x < Pow2(k)
    ensures -Pow2(k) <= Invert(x) < 0
  {
  }
}
