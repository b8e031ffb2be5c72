/** Facts about integer division and remainder by a positive divisor (Dafny's `/` and `%`
    round towards negative infinity there, as `Math.floor` does). */
module Arith {

  lemma ModOfModDivisor(q: int, t: nat)
    requires t > 0 && 60 % t == 0
    ensures (q % 60) % t == q % t
  {
    var k := 60 / t;
    assert 60 == k * t;
    var a := q / 60;
    assert q == a * 60 + q % 60;
    assert q == (a * k) * t + q % 60;
    ModShift(q % 60, a * k, t);
  }

  lemma ModShift(r: int, m: int, t: nat)
    requires t > 0
    ensures (m * t + r) % t == r % t
  {
    var x := m * t + r;
    var y := r / t;
    assert r == y * t + r % t;
    assert x == (m + y) * t + r % t;
    assert 0 <= r % t < t;
    DivModUnique(x, t, m + y, r % t);
  }

  lemma DivModUnique(x: int, t: nat, d: int, r: int)
    requires t > 0 && x == d * t + r && 0 <= r < t
    ensures x / t == d && x % t == r
  {
    var e := x / t - d;
    assert e * t == r - x % t;
    if e >= 1 {
      MulAtLeast(e, t);
    } else if e <= -1 {
      MulAtLeast(-e, t);
    }
  }

  lemma MulAtLeast(e: int, t: nat)
    requires e >= 1
    ensures e * t >= t
  {
  }

  lemma DivDiv(x: int, a: nat, b: nat)
    requires a > 0 && b > 0
    ensures (x / a) / b == x / (a * b)
  {
    var q := x / a;
    var d := q / b;
    var r := q % b;
    assert x == q * a + x % a;
    assert q == d * b + r;
    assert q * a == (d * b) * a + r * a;
    assert (d * b) * a == d * (a * b);
    assert 0 <= r * a <= (b - 1) * a by {
      MulMono(r, b - 1, a);
    }
    assert (b - 1) * a + a == a * b;
    DivModUnique(x, a * b, d, r * a + x % a);
  }

  lemma MulMono(x: nat, y: nat, a: nat)
    requires x <= y
    ensures x * a <= y * a
  {
    assert y * a - x * a == (y - x) * a;
  }

  lemma MulCancel(a: int, b: int, w: nat)
    requires w > 0 && a * w == b * w
    ensures a == b
  {
    DivModUnique(a * w, w, a, 0);
    DivModUnique(b * w, w, b, 0);
  }

  /** Rounding a minute of the hour down to a multiple of a divisor of 60 leaves a slot
      of that width that contains the minute and ends within the hour. */
  lemma FloorToDivisor(m: nat, d: nat)
    requires d > 0 && 60 % d == 0 && m < 60
    ensures ((m / d) * d) % d == 0
    ensures (m / d) * d <= m < (m / d) * d + d
    ensures (m / d) * d + d <= 60
  {
    var q, r := m / d, m % d;
    assert m == q * d + r && 0 <= r < d;
    ModShift(0, q, d);
    var k := 60 / d;
    assert 60 == k * d;
    SlotFits(q, k, d);
  }

  /** A multiple of d below k * d leaves room for one more slot of width d. */
  lemma SlotFits(q: int, k: int, d: nat)
    requires d > 0 && q * d < k * d
    ensures q * d + d <= k * d
  {
    assert (k - q) * d > 0;
    assert k - q < 1 ==> (q - k) * d >= 0;
    MulAtLeast(k - q, d);
    assert (k - q) * d == k * d - q * d;
  }

  /** Adding a whole period does not move a position round a cycle. */
  lemma PeriodMod(a: int, n: nat)
    requires n > 0
    ensures (a + n) % n == a % n
  {
    ModShift(a, 1, n);
    assert 1 * n + a == a + n;
  }

  /** Stepping an index modulo n. */
  lemma IncMod(a: int, n: nat)
    requires n > 0
    ensures ((a % n) + 1) % n == (a + 1) % n
  {
    assert a + 1 == (a / n) * n + (a % n + 1);
    ModShift(a % n + 1, a / n, n);
  }

  /** Position i advanced m times round a cycle of length n, one step at a time. */
  function StepIndex(i: nat, m: nat, n: nat): (k: nat)
    requires i < n
    ensures k < n
  {
    if m == 0 then i
    else var j := StepIndex(i, m - 1, n); if j + 1 >= n then 0 else j + 1
  }

  lemma {:induction false} ModAsSteps(i: nat, m: nat, n: nat)
    requires i < n
    ensures StepIndex(i, m, n) == (i + m) % n
  {
    if m == 0 {
      DivModUnique(i, n, 0, i);
    } else {
      ModAsSteps(i, m - 1, n);
      var p := i + m - 1;
      StepOnce(StepIndex(i, m - 1, n), p, n);
      assert p + 1 == i + m;
    }
  }

  /** One step round the cycle from the position of a is the position of a + 1. */
  lemma StepOnce(j: nat, a: int, n: nat)
    requires j < n && j == a % n
    ensures (if j + 1 >= n then 0 else j + 1) == (a + 1) % n
  {
    IncMod(a, n);
    if j + 1 < n {
      DivModUnique(j + 1, n, 0, j + 1);
    } else {
      DivModUnique(j + 1, n, 1, 0);
    }
  }

  /** Stepping a whole cycle further lands on the same position. */
  lemma StepIndexPeriodic(i: nat, m: nat, n: nat)
    requires i < n
    ensures StepIndex(i, m + n, n) == StepIndex(i, m, n)
  {
    ModAsSteps(i, m, n);
    ModAsSteps(i, m + n, n);
    PeriodMod(i + m, n);
    assert i + (m + n) == (i + m) + n;
  }

  /** From position i, a step count in (m, m + n] that lands on position j. */
  lemma CoverOffset(i: nat, m: nat, j: nat, n: nat) returns (k: nat)
    requires i < n && j < n
    ensures m < k <= m + n && (i + k) % n == j
  {
    var e := j - i - m - 1;
    var d := e / n;
    k := m + 1 + e % n;
    assert e == d * n + e % n;
    assert i + k == (-d) * n + j;
    ModShift(j, -d, n);
    DivModUnique(j, n, 0, j);
  }
}
