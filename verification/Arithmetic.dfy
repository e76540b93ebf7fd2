/** Division and remainder facts about unbounded counters, shared by the other modules. */
module Arithmetic {

  datatype Option<+T> = None | Some(value: T)

  lemma MulAtLeast(q: nat, k: nat)
    requires 1 <= k
    ensures q <= q * k
  {
  }

  /** A quotient and a remainder below the divisor determine each other. */
  lemma QuotientUnique(q: int, d: int, r: int, d': int, r': int)
    requires 0 <= r < q && 0 <= r' < q
    requires q * d + r == q * d' + r'
    ensures d == d' && r == r'
  {
    assert q * (d - d') == r' - r;
    if d > d' {
      MulAtLeast(q, d - d');
    } else if d < d' {
      assert q * (d' - d) == r - r';
      MulAtLeast(q, d' - d);
    }
  }

  lemma DivModUnique(n: int, q: int, d: int, r: int)
    requires 0 <= r < q && n == q * d + r
    ensures n / q == d && n % q == r
  {
    QuotientUnique(q, n / q, n % q, d, r);
  }

  // ------------------------------------------------------------ counters around a ring

  /** The ring slot of the n-th item: n mod q, written without division for the solver's sake. */
  function Slot(n: nat, q: nat): (r: nat)
    requires 0 < q
    ensures r < q
  {
    if n < q then n else Slot(n - q, q)
  }

  /** Whether the n-th item falls on an even-numbered lap of the ring. */
  predicate EvenLap(n: nat, q: nat)
    requires 0 < q
  {
    if n < q then true else !EvenLap(n - q, q)
  }

  lemma {:induction false} SlotIsRemainder(n: nat, q: nat)
    requires 0 < q
    ensures Slot(n, q) == n % q
    ensures EvenLap(n, q) <==> (n / q) % 2 == 0
  {
    if n < q {
      DivModUnique(n, q, 0, n);
    } else {
      SlotIsRemainder(n - q, q);
      var d, r := (n - q) / q, (n - q) % q;
      assert n == q * (d + 1) + r by {
        assert q * (d + 1) == q * d + q;
      }
      DivModUnique(n, q, d + 1, r);
    }
  }

  /** Stepping a counter moves to the next slot, or wraps to slot 0 of the next lap. */
  lemma {:induction false} StepSlot(n: nat, q: nat)
    requires 2 <= q
    ensures Slot(n, q) + 1 == q ==> Slot(n + 1, q) == 0 && EvenLap(n + 1, q) == !EvenLap(n, q)
    ensures Slot(n, q) + 1 != q ==> Slot(n + 1, q) == Slot(n, q) + 1 && EvenLap(n + 1, q) == EvenLap(n, q)
  {
    if n >= q {
      StepSlot(n - q, q);
    }
  }

  /** Slots of counters less than one lap apart lie that far apart around the ring. */
  lemma {:induction false} SlotGap(a: nat, b: nat, q: nat)
    requires 0 < q && a <= b < a + q
    ensures Slot(b, q) - Slot(a, q) == b - a || Slot(b, q) - Slot(a, q) == b - a - q
  {
    if a >= q {
      SlotGap(a - q, b - q, q);
    }
  }

  /** Two counters less than one lap apart never share a slot. */
  lemma SlotsDiffer(a: nat, b: nat, q: nat)
    requires 0 < b - a < q
    ensures Slot(a, q) != Slot(b, q)
  {
    SlotGap(a, b, q);
  }

  lemma MulMono(a: nat, b: nat, c: nat)
    requires a <= b
    ensures a * c <= b * c
  {
  }

  /** Rounding down to a multiple stays below, and loses less than one unit. */
  lemma DivBounds(n: nat, q: nat)
    requires 0 < q
    ensures (n / q) * q <= n < (n / q) * q + q
  {
    assert n == q * (n / q) + n % q;
  }

  lemma Distribute(a: nat, b: nat, c: nat)
    ensures (a + b) * c == a * c + b * c
  {
  }

  function Min(a: nat, b: nat): nat {
    if a <= b then a else b
  }

  /** x rounded down to a multiple of b; the code writes it (x / b) * b. */
  function RoundDown(x: nat, b: nat): (r: nat)
    requires 0 < b
  {
    x - x % b
  }

  lemma RoundDownIs(x: nat, b: nat)
    requires 0 < b
    ensures RoundDown(x, b) == (x / b) * b <= x < RoundDown(x, b) + b
    ensures RoundDown(x, b) % b == 0
    ensures RoundDown(x, b) / b == x / b
  {
    DivBounds(x, b);
    assert x == b * (x / b) + x % b;
    assert RoundDown(x, b) == b * (x / b);
    DivModUnique(RoundDown(x, b), b, x / b, 0);
  }

  lemma MultipleIs(x: nat, b: nat)
    requires 0 < b
    ensures x % b == 0 <==> (x / b) * b == x
  {
    assert x == b * (x / b) + x % b;
  }

  lemma MultipleMinus(x: nat, y: nat, b: nat)
    requires 0 < b && y <= x && x % b == 0 && y % b == 0
    ensures (x - y) % b == 0
  {
    var i, j := x / b, y / b;
    assert x == b * i;
    assert y == b * j;
    assert x - y == b * (i - j);
    DivModUnique(x - y, b, i - j, 0);
  }

  lemma MultiplePlus(x: nat, y: nat, b: nat)
    requires 0 < b && x % b == 0 && y % b == 0
    ensures (x + y) % b == 0 && (x + y) / b == x / b + y / b
  {
    var i, j := x / b, y / b;
    assert x == b * i;
    assert y == b * j;
    assert x + y == b * (i + j);
    DivModUnique(x + y, b, i + j, 0);
  }

  /** Rounding a multiple of b down at m either keeps it or reaches the last multiple below m. */
  lemma RoundDownMin(x: nat, m: nat, b: nat)
    requires 0 < b && x % b == 0
    ensures RoundDown(Min(x, m), b) == Min(x, RoundDown(m, b))
  {
    RoundDownIs(m, b);
    if x <= m {
      var i, j := x / b, m / b;
      assert x == i * b;
      MulStrict(i, j, b);
    }
  }

  lemma MulStrict(i: nat, j: nat, b: nat)
    ensures i > j ==> i * b >= j * b + b
  {
    if i > j {
      MulMono(j + 1, i, b);
      Distribute(j, 1, b);
    }
  }

  lemma DividesThrough(a: nat, b: nat, c: nat)
    requires 0 < b && 0 < c && a % b == 0 && b % c == 0
    ensures a % c == 0
  {
    var x, y := a / b, b / c;
    assert b == c * y;
    assert a == b * x;
    assert (c * y) * x == c * (y * x);
    DivModUnique(a, c, y * x, 0);
  }

  lemma ProductDivides(k: nat, b: nat)
    requires 0 < b
    ensures (k * b) % b == 0 && (k * b) / b == k
  {
    DivModUnique(k * b, b, k, 0);
  }

  lemma InTable(ps: nat, n: nat, x: nat)
    requires 0 < ps && x < ps * n
    ensures x / ps < n
  {
    DivBounds(x, ps);
    MulStrict(x / ps + 1, n, ps);
    Distribute(x / ps, 1, ps);
  }

  /** n times k, by repeated addition. */
  function Times(n: nat, k: nat): nat {
    if n == 0 then 0 else Times(n - 1, k) + k
  }

  lemma {:induction false} TimesMono(m: nat, n: nat, k: nat)
    requires m <= n
    ensures Times(m, k) <= Times(n, k)
  {
    if m < n {
      TimesMono(m, n - 1, k);
    }
  }

  lemma {:induction false} TimesIsProduct(n: nat, k: nat)
    ensures Times(n, k) == n * k
  {
    if n > 0 {
      TimesIsProduct(n - 1, k);
      Distribute(n - 1, 1, k);
    }
  }
}
