/** Little-endian loads and stores in a stretch of bytes. */
module SegmentBytes {
  import opened Basics

  function Power(k: nat): nat { if k == 0 then 1 else 256 * Power(k - 1) }

  function Load(m: seq<Byte>, a: nat, k: nat): nat
    requires a + k <= |m|
    decreases k
  {
    if k == 0 then 0 else m[a] + 256 * Load(m, a + 1, k - 1)
  }

  function Store(m: seq<Byte>, a: nat, k: nat, v: nat): (r: seq<Byte>)
    requires a + k <= |m|
    ensures |r| == |m|
    decreases k
  {
    if k == 0 then m else Store(m[a := v % 256], a + 1, k - 1, v / 256)
  }

  lemma PowerIs()
    ensures Power(4) == 0x1_0000_0000 && Power(8) == WIDTH
  {
    assert Power(1) == 256 && Power(2) == 0x1_0000 && Power(3) == 0x100_0000;
    assert Power(4) == 0x1_0000_0000 && Power(5) == 0x100_0000_0000 && Power(6) == 0x1_0000_0000_0000;
    assert Power(7) == 0x100_0000_0000_0000;
  }

  /** A store changes its own bytes and no others. */
  lemma {:induction false} StoreFrame(m: seq<Byte>, a: nat, k: nat, v: nat)
    requires a + k <= |m|
    ensures forall i :: 0 <= i < |m| && !(a <= i < a + k) ==> Store(m, a, k, v)[i] == m[i]
    decreases k
  {
    if k > 0 { StoreFrame(m[a := v % 256], a + 1, k - 1, v / 256); }
  }

  lemma {:induction false} LoadSame(m: seq<Byte>, n: seq<Byte>, a: nat, k: nat)
    requires a + k <= |m| && a + k <= |n| && forall i :: a <= i < a + k ==> m[i] == n[i]
    ensures Load(m, a, k) == Load(n, a, k)
    decreases k
  {
    if k > 0 { LoadSame(m, n, a + 1, k - 1); }
  }

  lemma {:induction false} LoadBound(m: seq<Byte>, a: nat, k: nat)
    requires a + k <= |m|
    ensures Load(m, a, k) < Power(k)
    decreases k
  {
    if k > 0 { LoadBound(m, a + 1, k - 1); }
  }

  /** What was stored is loaded, if it fits. */
  lemma {:induction false} LoadStore(m: seq<Byte>, a: nat, k: nat, v: nat)
    requires a + k <= |m| && v < Power(k)
    ensures Load(Store(m, a, k, v), a, k) == v
    decreases k
  {
    if k > 0 {
      var m' := m[a := v % 256];
      LoadStore(m', a + 1, k - 1, v / 256);
      StoreFrame(m', a + 1, k - 1, v / 256);
    }
  }

  lemma FirstByte(m: seq<Byte>, a: nat, k: nat, v: nat)
    requires a + k <= |m| && k > 0
    ensures Load(m, a, k) % 256 == m[a] && Store(m, a, k, v)[a] == v % 256
  {
    StoreFrame(m[a := v % 256], a + 1, k - 1, v / 256);
  }

  lemma {:induction false} LoadZero(m: seq<Byte>, a: nat, k: nat)
    requires a + k <= |m| && forall i :: a <= i < a + k ==> m[i] == 0
    ensures Load(m, a, k) == 0
    decreases k
  {
    if k > 0 { LoadZero(m, a + 1, k - 1); }
  }

  lemma {:induction false} StoreZero(m: seq<Byte>, a: nat, k: nat)
    requires a + k <= |m|
    ensures forall i :: a <= i < a + k ==> Store(m, a, k, 0)[i] == 0
    decreases k
  {
    if k > 0 {
      StoreZero(m[a := 0], a + 1, k - 1);
      StoreFrame(m[a := 0], a + 1, k - 1, 0);
    }
  }

  /** x++ on 64 bits. */
  function Bumped(m: seq<Byte>, a: nat): seq<Byte>
    requires a + 8 <= |m|
  {
    Store(m, a, 8, (Load(m, a, 8) + 1) % WIDTH)
  }

  /** It always changes its first byte, touches no other eight, and counts. */
  lemma BumpedOnce(m: seq<Byte>, a: nat)
    requires a + 8 <= |m|
    ensures |Bumped(m, a)| == |m| && Bumped(m, a)[a] != m[a]
    ensures forall i :: 0 <= i < |m| && !(a <= i < a + 8) ==> Bumped(m, a)[i] == m[i]
    ensures Load(Bumped(m, a), a, 8) == (Load(m, a, 8) + 1) % WIDTH
  {
    var x := Load(m, a, 8);
    PowerIs();
    LoadBound(m, a, 8);
    StoreFrame(m, a, 8, (x + 1) % WIDTH);
    FirstByte(m, a, 8, (x + 1) % WIDTH);
    LoadStore(m, a, 8, (x + 1) % WIDTH);
    NextDiffers(x);
  }

  lemma NextDiffers(x: nat)
    requires x < WIDTH
    ensures (x + 1) % WIDTH % 256 != x % 256
  {
    if x + 1 < WIDTH {
      assert (x + 1) % WIDTH == x + 1;
    }
  }
}
