/** Attaching to a queue's segment: the constructor's size check, and whether all attached handles agree on the ring. */
module RingAttach {

  const UINT: nat := 0x1_0000_0000
  const HEAD_BYTES: nat := 7 * 4
  const MESSAGE_BYTES: nat := 0x1000
  const MAX_AGREED: nat := 0x10_0000

  /** The byte size of a queue of n slots, as a 64-bit size_t. */
  function Size(n: nat): nat { HEAD_BYTES + MESSAGE_BYTES * n }

  /** What the segment's unsigned int keeps of it. */
  function Kept(n: nat): nat { Size(n) % UINT }

  /** m_queueSize of a handle, or a process that has exited. */
  datatype Handle = Attached(queueSize: nat) | Exited

  /** The constructor, under the static semaphore: `size` is the segment's field, 0 in a fresh segment. */
  function Attach(size: nat, n: nat): (nat, Handle) {
    if size == 0 then (Kept(n), Attached(n))
    else if size != Size(n) then (size, Exited)
    else (size, Attached(n))
  }

  /** The segment's field after the constructors ran one after another, and their handles. */
  function AttachAll(ns: seq<nat>): (nat, seq<Handle>) {
    if ns == [] then (0, [])
    else
      var (size, hs) := AttachAll(ns[..|ns| - 1]);
      var (size', h) := Attach(size, ns[|ns| - 1]);
      (size', hs + [h])
  }

  lemma KeptWhole(n: nat)
    ensures Kept(n) != 0
    ensures n < MAX_AGREED <==> Kept(n) == Size(n)
  {
    if n >= MAX_AGREED { assert Size(n) >= UINT; }
  }

  lemma {:induction false} FirstDecides(ns: seq<nat>)
    requires ns != []
    ensures AttachAll(ns).0 == Kept(ns[0]) && |AttachAll(ns).1| == |ns| && AttachAll(ns).1[0] == Attached(ns[0])
    ensures forall i :: 1 <= i < |ns| ==>
              AttachAll(ns).1[i] == if Size(ns[i]) == Kept(ns[0]) then Attached(ns[i]) else Exited
  {
    KeptWhole(ns[0]);
    if |ns| > 1 {
      FirstDecides(ns[..|ns| - 1]);
    } else {
      assert AttachAll(ns[..0]) == (0, []);
    }
  }

  /** Below 2^20 slots, whoever attaches has the size the first one gave, and only those with that size attach. */
  lemma HandlesAgree(ns: seq<nat>, i: nat)
    requires i < |ns| && ns[0] < MAX_AGREED
    ensures |AttachAll(ns).1| == |ns| && (AttachAll(ns).1[i].Attached? <==> ns[i] == ns[0])
    ensures AttachAll(ns).1[i].Attached? ==> AttachAll(ns).1[i].queueSize == ns[0]
  {
    FirstDecides(ns);
    KeptWhole(ns[0]);
  }

  /**
   The bound is exact: some later caller attaches with another size if and only if the first asked for 2^20 or more.
   */
  lemma AgreementIff(n: nat)
    ensures (forall k :: AttachAll([n, k]).1 == [Attached(n), Attached(k)] ==> k == n) <==> n < MAX_AGREED
  {
    if n < MAX_AGREED {
      forall k | AttachAll([n, k]).1 == [Attached(n), Attached(k)]
        ensures k == n
      {
        HandlesAgree([n, k], 1);
      }
    } else {
      var k := n % MAX_AGREED;
      assert Size(n) == Size(k) + UINT * (n / MAX_AGREED);
      assert Size(k) < UINT;
      KeptWhole(k);
      WholeTurns(Size(k), n / MAX_AGREED);
      FirstDecides([n, k]);
      assert AttachAll([n, k]).1 == [Attached(n), Attached(k)];
    }
  }

  /** Where slot `i` of the segment begins, and where it ends. */
  function SlotStart(i: nat): nat { HEAD_BYTES + MESSAGE_BYTES * i }

  function SlotEnd(i: nat): nat { SlotStart(i + 1) }

  /**
   Every slot lies in the bytes the system was asked for, an unsigned int of them, if and only if there are fewer than
   2^20.
   */
  lemma SlotsFitIff(n: nat)
    ensures (forall i :: 0 <= i < n ==> SlotEnd(i) <= Kept(n)) <==> n < MAX_AGREED
  {
    KeptWhole(n);
    if n >= MAX_AGREED {
      assert Size(n) >= UINT > Kept(n);
      assert SlotEnd(n - 1) == Size(n);
    }
  }

  lemma WholeTurns(r: nat, q: nat)
    requires r < UINT
    ensures (r + UINT * q) % UINT == r
  {
  }
}
