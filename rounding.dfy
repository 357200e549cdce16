/** JavaScript's Math.round on exact reals, and the calculator's clampInt built on it. */
module Rounding {

  /** Math.round: the nearest integer, a tie going toward +infinity; this is floor(x + 1/2). */
  function Round(x: real): (r: int)
    ensures x - 0.5 < r as real <= x + 0.5
  {
    (x + 0.5).Floor
  }

  /** Any integer in the half-open window (x - 1/2, x + 1/2] is Round(x). */
  lemma RoundUnique(x: real, k: int)
    requires x - 0.5 < k as real <= x + 0.5
    ensures Round(x) == k
  {
    var r := Round(x);
    assert (r - k) as real < 1.0 && (k - r) as real < 1.0;
  }

  /** Round(x) is an integer nearest to x, and of two equally near integers it is the larger. */
  lemma RoundIsNearest(x: real, k: int)
    ensures Abs(x - Round(x) as real) <= Abs(x - k as real)
    ensures Abs(x - Round(x) as real) == Abs(x - k as real) ==> k <= Round(x)
  {
    var r := Round(x);
    if k < r {
      assert k as real <= r as real - 1.0;
    } else if k > r {
      assert k as real >= r as real + 1.0;
    }
  }

  function Abs(x: real): (a: real)
    ensures a >= 0.0 && (a == x || a == -x)
  {
    if x < 0.0 then -x else x
  }

  /** Rounding a value that is already whole changes nothing. */
  lemma RoundOfInt(n: int)
    ensures Round(n as real) == n
  {
    RoundUnique(n as real, n);
  }

  /** A whole number of pence (a multiple of 100) times a whole number of hundredths is exact,
      so Math.round has nothing to round. */
  lemma RoundScaledExact(p: int, h: int)
    requires p % 100 == 0
    ensures (p * h) % 100 == 0
    ensures Round(p as real * (h as real / 100.0)) == p * h / 100
  {
    var c := p / 100;
    assert p == 100 * c;
    assert p * h == 100 * (c * h);
    assert p as real * (h as real / 100.0) == (c * h) as real;
    RoundOfInt(c * h);
  }

  /** clampInt(n, min, max) = Math.max(min, Math.min(max, Math.round(n))). */
  function ClampInt(n: real, lo: int, hi: int): (r: int)
    ensures r >= lo
    ensures lo <= hi ==> r <= hi
    ensures lo <= Round(n) <= hi ==> r == Round(n)
    ensures Round(n) < lo ==> r == lo
    ensures lo <= hi < Round(n) ==> r == hi
  {
    Max(lo, Min(hi, Round(n)))
  }

  function Max(a: int, b: int): int { if a >= b then a else b }

  function Min(a: int, b: int): int { if a <= b then a else b }

  /** Clamping an already clamped value is a no-op. */
  lemma ClampIdempotent(n: real, lo: int, hi: int)
    requires lo <= hi
    ensures ClampInt(ClampInt(n, lo, hi) as real, lo, hi) == ClampInt(n, lo, hi)
  {
    RoundOfInt(ClampInt(n, lo, hi));
  }

  /** Math.round(n * 0.2) on a whole, non-negative n is (n + 2) / 5 in integer arithmetic. */
  lemma RoundFifth(n: int)
    requires n >= 0
    ensures Round(n as real * 0.2) == (n + 2) / 5
  {
    var k := (n + 2) / 5;
    assert n - 2 <= 5 * k <= n + 2;
    assert n as real * 0.2 - 0.5 < k as real <= n as real * 0.2 + 0.5;
    RoundUnique(n as real * 0.2, k);
  }

  /** n * 0.2 is never exactly halfway between two integers, so any round-to-nearest mode
      (half up, half even, half down) gives the same VAT. */
  lemma FifthNeverTies(n: int, k: int)
    ensures Abs(n as real * 0.2 - k as real) != 0.5
  {
  }
}
