/** Division with remainder, as the counters and hashes need it. */
module Remainders {

  lemma MulMonotone(n: nat, x: nat, y: nat)
    requires x <= y
    ensures n * x <= n * y
  {
  }

  lemma DivModUnique(m: nat, n: nat, q: nat, r: nat)
    requires n > 0 && r < n && m == n * q + r
    ensures m / n == q && m % n == r
  {
    var q', r' := m / n, m % n;
    assert m == n * q' + r';
    if q' < q {
      MulMonotone(n, q' + 1, q);
    } else if q < q' {
      MulMonotone(n, q + 1, q');
    }
  }

  /** Of any n consecutive numbers exactly one leaves a given remainder. */
  lemma OneInWindow(start: nat, n: nat, i: nat) returns (x: nat)
    requires i < n
    ensures start <= x < start + n && forall y | start <= y < start + n :: y % n == i <==> y == x
  {
    var r := start % n;
    x := if r <= i then start + (i - r) else start + (n + i - r);
    forall y | start <= y < start + n ensures y % n == i <==> y == x {
      InWindow(start, n, y - start);
    }
  }

  lemma InWindow(start: nat, n: nat, d: nat)
    requires d < n
    ensures var e := start % n + d; (start + d) % n == if e < n then e else e - n
  {
    var q, r := start / n, start % n;
    assert start == n * q + r;
    RemainderOf(n, q, r + d);
  }

  lemma RemainderOf(n: nat, q: nat, d: nat)
    requires n > 0 && d < 2 * n
    ensures (n * q + d) % n == if d < n then d else d - n
  {
    var e := if d < n then d else d - n;
    var p := if d < n then q else q + 1;
    assert n * q + d == n * p + e;
    DivModUnique(n * p + e, n, p, e);
  }
}
