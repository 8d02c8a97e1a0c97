/** Modular index arithmetic shared by every model of the ring. */
module RingMath {

  /** Number of steps from index `a` forward to index `b` on a ring of `n` slots. */
  function Dist(n: nat, a: nat, b: nat): nat
    requires a < n && b < n
  {
    if b >= a then b - a else b - a + n
  }

  /** The source's increment: add one, or wrap to zero at the last slot. */
  function Next(n: nat, i: nat): nat
    requires n > 0
  {
    if i < n - 1 then i + 1 else 0
  }

  lemma ModInjective(n: nat, a: nat, b: nat)
    requires n > 0 && a <= b < a + n && a % n == b % n
    ensures a == b
  {
    var q := b / n - a / n;
    assert b - a == n * q;
  }

  lemma ModDistinct(n: nat, a: nat, b: nat)
    requires n > 0 && a < b < a + n
    ensures a % n != b % n
  {
    if a % n == b % n { ModInjective(n, a, b); }
  }

  lemma ModSmall(n: nat, r: nat, q: int)
    requires n > 0 && r < n
    ensures (n * q + r) % n == r
  {
    var x := n * q + r;
    assert x == n * (x / n) + x % n;
    var d := q - x / n;
    assert n * d == x % n - r;
  }

  lemma ModSucc(n: nat, a: nat)
    requires n > 0
    ensures (a + 1) % n == Next(n, a % n)
  {
    if a % n < n - 1 {
      ModSmall(n, a % n + 1, a / n);
    } else {
      assert n * (a / n + 1) == n * (a / n) + n;
      ModSmall(n, 0, a / n + 1);
    }
  }

  lemma ModAdd(n: nat, a: nat, i: nat)
    requires n > 0
    ensures (a % n + i) % n == (a + i) % n
  {
    var r := (a % n + i) % n;
    assert a + i == n * (a / n) + n * ((a % n + i) / n) + r;
    assert n * (a / n) + n * ((a % n + i) / n) == n * (a / n + (a % n + i) / n);
    ModSmall(n, r, a / n + (a % n + i) / n);
  }

  lemma DistOf(n: nat, a: nat, b: nat)
    requires n > 0 && a <= b < a + n
    ensures Dist(n, a % n, b % n) == b - a
  {
    ModAdd(n, a, b - a);
    var s := a % n + (b - a);
    if s < n {
      ModSmall(n, s, 0);
    } else {
      ModSmall(n, s - n, 1);
    }
  }

  /** One slot short of a lap ahead is exactly what the writer's check sees as full. */
  lemma FullIff(n: nat, h: nat, t: nat)
    requires n > 0 && t <= h < t + n
    ensures (h % n + 1) % n == t % n <==> h + 1 == t + n
  {
    ModAdd(n, h, 1);
    if h + 1 == t + n {
      ModSmall(n, t % n, t / n + 1);
      assert h + 1 == n * (t / n + 1) + t % n;
    } else {
      ModDistinct(n, t, h + 1);
    }
  }

  lemma EmptyIff(n: nat, h: nat, t: nat)
    requires n > 0 && t <= h < t + n
    ensures t % n == h % n <==> h == t
  {
    if t < h { ModDistinct(n, t, h); }
  }
}
