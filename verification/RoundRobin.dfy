/** The choice of worker in CCommonServer::__HandlePkt: a running counter, truncated to 32 bits, modulo the
    number of workers. */
module RoundRobin {
  import opened Remainders

  /** The number of values of an unsigned int. */
  const WRAP: nat := 0x1_0000_0000

  const MAX_THREAD_NUM: nat := 64

  function WorkerOf(count: nat, n: nat): (w: nat)
    requires n > 0
    ensures w < n
  {
    count % WRAP % n
  }

  /** The counter itself modulo n, until it restarts after 2^32 dispatches; then the same again. */
  lemma WorkerIsCounterModN(count: nat, n: nat)
    requires n > 0
    ensures count < 0x1_0000_0000 ==> WorkerOf(count, n) == count % n
    ensures WorkerOf(count + 0x1_0000_0000, n) == WorkerOf(count, n)
  {
    var q, r := count / 0x1_0000_0000, count % 0x1_0000_0000;
    assert count + 0x1_0000_0000 == 0x1_0000_0000 * (q + 1) + r;
    DivModUnique(count + 0x1_0000_0000, 0x1_0000_0000, q + 1, r);
  }

  /** How many of the dispatches numbered a .. b-1 go to worker i. */
  function Hits(i: nat, a: nat, b: nat, n: nat): nat
    requires n > 0
  {
    if b <= a then 0 else Hits(i, a, b - 1, n) + if WorkerOf(b - 1, n) == i then 1 else 0
  }

  /** How often the truncated counter restarts from zero inside the window a .. b-1. */
  function Wraps(a: nat, b: nat): nat {
    if b <= a then 0 else (b - 1) / WRAP - a / WRAP
  }

  /** How many of 0 .. m-1 are congruent to i modulo n. */
  function Residues(m: nat, i: nat, n: nat): nat
    requires n > 0
  {
    m / n + if m % n > i then 1 else 0
  }

  lemma DivModStep(m: nat, n: nat)
    requires n > 0
    ensures if m % n == n - 1 then (m + 1) / n == m / n + 1 && (m + 1) % n == 0
            else (m + 1) / n == m / n && (m + 1) % n == m % n + 1
  {
    var q, r := m / n, m % n;
    assert m == n * q + r;
    if r == n - 1 {
      assert m + 1 == n * (q + 1);
      DivModUnique(m + 1, n, q + 1, 0);
    } else {
      DivModUnique(m + 1, n, q, r + 1);
    }
  }

  lemma ResiduesStep(m: nat, i: nat, n: nat)
    requires i < n
    ensures Residues(m + 1, i, n) == Residues(m, i, n) + if m % n == i then 1 else 0
  {
    DivModStep(m, n);
  }

  lemma {:induction false} HitsAppend(i: nat, a: nat, b: nat, c: nat, n: nat)
    requires n > 0 && a <= b <= c
    ensures Hits(i, a, c, n) == Hits(i, a, b, n) + Hits(i, b, c, n)
  {
    if b < c {
      HitsAppend(i, a, b, c - 1, n);
    }
  }

  /** Between two restarts the worker's share is a difference of residue counts. */
  lemma {:induction false} HitsInEpoch(i: nat, epoch: nat, a: nat, b: nat, n: nat)
    requires i < n && a <= b <= WRAP
    ensures Hits(i, epoch * WRAP + a, epoch * WRAP + b, n) == Residues(b, i, n) - Residues(a, i, n)
  {
    if a < b {
      HitsInEpoch(i, epoch, a, b - 1, n);
      ResiduesStep(b - 1, i, n);
      DivModUnique(epoch * WRAP + b - 1, WRAP, epoch, b - 1);
      hide Residues;
    }
  }

  /** Any two workers' shares of any window differ by at most one more than the number of restarts in it. */
  lemma {:induction false} Balance(i: nat, j: nat, a: nat, b: nat, n: nat)
    requires i < n && j < n
    ensures Hits(i, a, b, n) - Hits(j, a, b, n) <= Wraps(a, b) + 1
    decreases b
  {
    if a < b {
      var epoch := (b - 1) / WRAP;
      var base := epoch * WRAP;
      if a >= base {
        HitsInEpoch(i, epoch, a - base, b - base, n);
        HitsInEpoch(j, epoch, a - base, b - base, n);
      } else {
        HitsAppend(i, a, base, b, n);
        HitsAppend(j, a, base, b, n);
        Balance(i, j, a, base, n);
        HitsInEpoch(i, epoch, 0, b - base, n);
        HitsInEpoch(j, epoch, 0, b - base, n);
        assert Wraps(a, b) == Wraps(a, base) + 1;
      }
    }
  }

  /** When n divides 2^32 the truncation is invisible. */
  lemma {:induction false} HitsWhenDividing(i: nat, a: nat, b: nat, n: nat)
    requires i < n && WRAP % n == 0 && a <= b
    ensures Hits(i, a, b, n) == Residues(b, i, n) - Residues(a, i, n)
  {
    if a < b {
      HitsWhenDividing(i, a, b - 1, n);
      ResiduesStep(b - 1, i, n);
      ModModDividing(b - 1, n);
    }
  }

  lemma ModModDividing(m: nat, n: nat)
    requires n > 0 && WRAP % n == 0
    ensures m % WRAP % n == m % n
  {
    var q, r, k := m / WRAP, m % WRAP, WRAP / n;
    assert WRAP == n * k;
    assert m == WRAP * q + r;
    assert r == n * (r / n) + r % n;
    assert m == n * (k * q + r / n) + r % n by {
      assert WRAP * q == n * k * q == n * (k * q);
    }
    DivModUnique(m, n, k * q + r / n, r % n);
  }

  /** The workers' shares stay within one of each other on every window exactly when n divides 2^32. */
  lemma PerfectBalance(n: nat)
    requires 0 < n < 0x1_0000_0000
    ensures (forall i: nat, j: nat, a: nat, b: nat | i < n && j < n ::
               Hits(i, a, b, n) - Hits(j, a, b, n) <= 1) <==> 0x1_0000_0000 % n == 0
  {
    if WRAP % n == 0 {
      forall i: nat, j: nat, a: nat, b: nat | i < n && j < n ensures Hits(i, a, b, n) - Hits(j, a, b, n) <= 1 {
        if a <= b {
          HitsWhenDividing(i, a, b, n);
          HitsWhenDividing(j, a, b, n);
        }
      }
    } else {
      var r := WRAP % n;
      UnevenRestart(n);
      assert Hits(r - 1, WRAP - 1, WRAP + r, n) - Hits(r, WRAP - 1, WRAP + r, n) == 2;
    }
  }

  /** Otherwise the restart visits one worker twice before visiting the next once. */
  lemma UnevenRestart(n: nat)
    requires 0 < n < WRAP && WRAP % n != 0
    ensures var r := WRAP % n;
      r > 0 && Hits(r - 1, WRAP - 1, WRAP + r, n) == 2 && Hits(r, WRAP - 1, WRAP + r, n) == 0
  {
    var r, q := WRAP % n, WRAP / n;
    assert WRAP == n * q + r;
    DivModUnique(WRAP - 1, n, q, r - 1);
    HitsInEpoch(r - 1, 1, 0, r, n);
    HitsInEpoch(r, 1, 0, r, n);
    DivModUnique(r, n, 0, r);
    DivModUnique(0, n, 0, 0);
    HitsAppend(r - 1, WRAP - 1, WRAP, WRAP + r, n);
    HitsAppend(r, WRAP - 1, WRAP, WRAP + r, n);
  }
}
