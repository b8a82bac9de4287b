/** Integer operators with Rust's semantics where they differ from Dafny's. */
module RustInt {
  /** Rust's `%` on signed integers truncates toward zero: the remainder takes the sign of
      the dividend, unlike Dafny's Euclidean `%`. */
  function Rem(a: int, b: int): (r: int)
    requires b > 0
    ensures a >= 0 ==> 0 <= r < b && r == a % b
    ensures a < 0 ==> -b < r <= 0 && r == -((-a) % b)
  {
    if a >= 0 then a % b else -((-a) % b)
  }

  /** Modulo the octave, the truncating remainder is congruent to its dividend: the two
      differ by a whole number of octaves. */
  lemma RemOctaveCongruent(a: int)
    ensures (Rem(a, 12) - a) % 12 == 0
  {
  }

  /** Two whole numbers of octaves add up to a whole number of octaves. */
  lemma SumOfOctaves(a: int, b: int)
    requires a % 12 == 0 && b % 12 == 0
    ensures (a + b) % 12 == 0
  {
  }

  /** A dividend already in [0, b) is its own remainder. */
  lemma ModInRange(x: int, b: int)
    requires 0 <= x < b
    ensures x % b == x
  {
    var q := x / b;
    assert x == b * q + x % b;
    assert q > 0 ==> b * q >= b;
    assert q < 0 ==> b * q <= -b;
  }

  /** A dividend in [b, 2b) loses exactly one b. */
  lemma ModOnePeriod(x: int, b: int)
    requires b > 0 && b <= x < 2 * b
    ensures x % b == x - b
  {
    var q := x / b;
    assert x == b * q + x % b;
    assert q > 1 ==> b * q >= 2 * b;
    assert q < 1 ==> b * q <= 0;
  }

  /** The remainder modulo 12 is the one r in [0, 12) with x = 12q + r. */
  lemma TwelveRemainder(x: int, q: int, r: int)
    requires 0 <= r < 12 && x == 12 * q + r
    ensures x % 12 == r
  {
    var d := x / 12;
    assert x == 12 * d + x % 12;
    assert q > d ==> 12 * q >= 12 * d + 12;
    assert q < d ==> 12 * d >= 12 * q + 12;
  }

  /** Multiplying by the same factor keeps the order of unsigned numbers. */
  lemma {:induction false} MulMonotone(i: nat, j: nat, q: nat)
    requires i <= j
    ensures i * q <= j * q
  {
    if i < j {
      MulMonotone(i, j - 1, q);
      assert j * q == (j - 1) * q + q;
    }
  }
}
