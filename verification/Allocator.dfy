/** The Allocator object in place, and what two passes over the same requests give. */
module Allocator {
  import opened Basics
  import opened AllocationForest
  import opened BumpAllocator

  /** The state after a list of requests, and what each of them returned. */
  datatype Placed = Placed(m: Memory, a: Alloc, answers: seq<Answer>)

  function PlaceAll(m: Memory, a: Alloc, sizes: seq<nat>, ats: seq<Addr>): Placed
    requires |sizes| == |ats|
  {
    if sizes == [] then Placed(m, a, [])
    else
      var n := |sizes| - 1;
      var p := PlaceAll(m, a, sizes[..n], ats[..n]);
      Placed(NewMemory(p.m, p.a, sizes[n], ats[n]), NewAlloc(p.m, p.a, sizes[n], ats[n]),
             p.answers + [NewAnswer(p.m, p.a, sizes[n], ats[n])])
  }

  lemma {:induction false} SumMonotone(sizes: seq<nat>, k: nat)
    requires k <= |sizes|
    ensures Sum(sizes[..k]) <= Sum(sizes)
  {
    if k < |sizes| {
      SumMonotone(sizes[..|sizes| - 1], k);
      assert sizes[..|sizes| - 1][..k] == sizes[..k];
    } else {
      assert sizes[..k] == sizes;
    }
  }

  /** What allocatedSize() returns: the counter squeezed into a 32-bit int. */
  function AllocatedSize(a: Alloc): int {
    var low := a.used % 0x1_0000_0000;
    if low < 0x8000_0000 then low else low - 0x1_0000_0000
  }

  /** It is an int, and the counter modulo 2^32. */
  lemma SizeIsInt(a: Alloc)
    ensures -0x8000_0000 <= AllocatedSize(a) < 0x8000_0000
    ensures exists k: int :: AllocatedSize(a) == a.used - 0x1_0000_0000 * k
  {
    var k := if AllocatedSize(a) >= 0 then a.used / 0x1_0000_0000 else a.used / 0x1_0000_0000 + 1;
    assert AllocatedSize(a) == a.used - 0x1_0000_0000 * k;
  }

  /**
   The first pass measures: for any hint the counter ends as the sum of all requested sizes, no request is refused, and
   allocatedSize() reports that sum if and only if it fits an int.
   */
  lemma {:induction false} Measures(m: Memory, source: Addr, hint: nat, sizes: seq<nat>, ats: seq<Addr>)
    requires |sizes| == |ats| && Sum(sizes) < WIDTH && (source == 0 || source in m.roots) && 0 !in ats
    ensures var p := PlaceAll(m, Start(source, hint), sizes, ats);
      && p.a.used == Sum(sizes) && |p.answers| == |sizes|
      && (if sizes == [] then p.m == m && p.a == Start(source, hint) else !First(p.a) && p.a.source in p.m.roots)
      && (forall i :: 0 <= i < |sizes| ==> p.answers[i].Got? && p.answers[i].r.size == sizes[i])
      && (AllocatedSize(p.a) == Sum(sizes) <==> Sum(sizes) < 0x8000_0000)
  {
    if sizes != [] {
      var n := |sizes| - 1;
      Measures(m, source, hint, sizes[..n], ats[..n]);
      assert ats[n] in ats;
      var p := PlaceAll(m, Start(source, hint), sizes[..n], ats[..n]);
      MeasureStep(p.m, p.a, sizes[n], ats[n]);
    }
  }

  /** One request adds its size to the counter, wherever it is served from. */
  lemma MeasureStep(m: Memory, a: Alloc, size: nat, at: Addr)
    requires (a.source == 0 || a.source in m.roots) && at != 0 && a.used + size < WIDTH && (First(a) ==> a.used == 0)
    ensures var m', a', ans := NewMemory(m, a, size, at), NewAlloc(m, a, size, at), NewAnswer(m, a, size, at);
      a'.used == a.used + size && !First(a') && a'.source in m'.roots && ans.Got? && ans.r.size == size
  {
  }

  /**
   The second pass places: with that sum or more as a positive hint, one block comes from the manager and the i-th
   object lies in it at the sum of the sizes before it.
   */
  lemma {:induction false} PlacesInOneBlock(m: Memory, source: Addr, hint: nat, sizes: seq<nat>, ats: seq<Addr>)
    requires |sizes| == |ats| > 0 && Sum(sizes) <= hint < WIDTH && hint > 0 && (source == 0 || source in m.roots)
    requires 0 !in ats
    ensures var p := PlaceAll(m, Start(source, hint), sizes, ats);
      && p.m == MgrMemory(m, Start(source, hint), hint, ats[0])
      && InHead(p.a, hint, ats[0], Sum(sizes)) && SideBySide(p.answers, ats[0], sizes)
  {
    var n := |sizes| - 1;
    var p := PlaceAll(m, Start(source, hint), sizes[..n], ats[..n]);
    if n == 0 {
      assert sizes[..0] == [] && p == Placed(m, Start(source, hint), []);
      FirstPlace(m, source, hint, sizes[0], ats[0]);
    } else {
      PlacesInOneBlock(m, source, hint, sizes[..n], ats[..n]);
      SideBySidePush(p.answers, ats[0], sizes);
      NextPlace(p.m, p.a, hint, ats[0], Sum(sizes[..n]), sizes[n], ats[n]);
    }
  }

  /** The i-th answer is the object at the sum of the sizes before it. */
  ghost predicate SideBySide(answers: seq<Answer>, head: Addr, sizes: seq<nat>) {
    |answers| == |sizes| && forall i :: 0 <= i < |sizes| ==> answers[i] == Got(Region(head, Sum(sizes[..i]), sizes[i]))
  }

  lemma SideBySidePush(answers: seq<Answer>, head: Addr, sizes: seq<nat>)
    requires |sizes| > 0 && SideBySide(answers, head, sizes[..|sizes| - 1])
    ensures SideBySide(answers + [Got(Region(head, Sum(sizes[..|sizes| - 1]), sizes[|sizes| - 1]))], head, sizes)
  {
    assert forall i :: 0 <= i < |sizes| - 1 ==> sizes[..|sizes| - 1][..i] == sizes[..i];
  }

  ghost predicate InHead(a: Alloc, hint: nat, head: Addr, used: nat) {
    a.head == head && a.source != 0 && head != 0 && a.used == used && a.hint == hint
  }

  lemma FirstPlace(m: Memory, source: Addr, hint: nat, size: nat, at: Addr)
    requires (source == 0 || source in m.roots) && at != 0 && size <= hint
    ensures var a := Start(source, hint);
      NewMemory(m, a, size, at) == MgrMemory(m, a, hint, at) && InHead(NewAlloc(m, a, size, at), hint, at, size) &&
      NewAnswer(m, a, size, at) == Got(Region(at, 0, size))
  {
  }

  lemma NextPlace(m: Memory, a: Alloc, hint: nat, head: Addr, used: nat, size: nat, at: Addr)
    requires InHead(a, hint, head, used) && used + size <= hint < WIDTH && hint > 0
    ensures NewMemory(m, a, size, at) == m && InHead(NewAlloc(m, a, size, at), hint, head, used + size)
    ensures NewAnswer(m, a, size, at) == Got(Region(head, used, size))
  {
  }

  /** Measure with any hint, then place with what was measured: one block more, and the objects side by side in it. */
  lemma MeasureThenPlace(m1: Memory, hint1: nat, ats1: seq<Addr>, m2: Memory, source: Addr, ats2: seq<Addr>,
                         sizes: seq<nat>)
    requires |sizes| == |ats1| == |ats2| && 0 < Sum(sizes) < 0x8000_0000 && 0 !in ats1 && 0 !in ats2
    requires source == 0 || source in m2.roots
    requires Fresh(m2, ats2[0], Sum(sizes))
    ensures var hint := AllocatedSize(PlaceAll(m1, Start(0, hint1), sizes, ats1).a);
      hint >= 0 &&
      var p := PlaceAll(m2, Start(source, hint), sizes, ats2);
      p.m.heap == m2.heap[ats2[0] := Zeros(Sum(sizes))] && ats2[0] !in m2.heap && SideBySide(p.answers, ats2[0], sizes)
  {
    Measures(m1, 0, hint1, sizes, ats1);
    PlacesInOneBlock(m2, source, Sum(sizes), sizes, ats2);
    FreshIsNew(m2, ats2[0], Sum(sizes));
  }

  /** Malloc does its part for one request: it is asked for nothing, or finds a fresh block of what it is asked for. */
  ghost predicate Served(m: Memory, a: Alloc, size: nat, at: Addr) {
    Carves(a, size) || Refuses(m, a) || Fresh(m, at, Asked(a, size))
  }

  ghost predicate ServedAt(m: Memory, a: Alloc, sizes: seq<nat>, ats: seq<Addr>, k: nat)
    requires |sizes| == |ats| && k < |sizes|
  {
    var p := PlaceAll(m, a, sizes[..k], ats[..k]);
    Served(p.m, p.a, sizes[k], ats[k])
  }

  /** And for each request of a list, in the memory that the requests before it have left. */
  ghost predicate ServedAll(m: Memory, a: Alloc, sizes: seq<nat>, ats: seq<Addr>)
    requires |sizes| == |ats|
  {
    forall k :: 0 <= k < |sizes| ==> ServedAt(m, a, sizes, ats, k)
  }

  class Allocator {
    const mgr: Manager
    const sourceWasNull: bool
    var source: Addr
    var headPtr: Addr
    const sizeHint: nat
    var allocatedSize: nat

    constructor (mgr: Manager, pSource: Addr, iSizeHint: nat)
      ensures this.mgr == mgr && Fields() == Start(pSource, iSizeHint)
    {
      this.mgr := mgr;
      sourceWasNull := pSource == 0;
      source := pSource;
      headPtr := 0;
      sizeHint := iSizeHint;
      allocatedSize := 0;
    }

    function Fields(): Alloc
      reads this
    {
      Alloc(sourceWasNull, source, headPtr, sizeHint, allocatedSize)
    }

    /** A refused request is the exception that checkAndAssert throws. */
    method MgrAllocate(ulSize: nat, at: Addr) returns (ans: Answer)
      requires Refuses(mgr.Model(), Fields()) || Fresh(mgr.Model(), at, ulSize)
      modifies this, mgr
      ensures mgr.Model() == MgrMemory(old(mgr.Model()), old(Fields()), ulSize, at)
      ensures Refuses(old(mgr.Model()), old(Fields())) <==> ans.Refused?
      ensures ans.Refused? ==> Fields() == old(Fields())
      ensures ans.Got? ==> ans.r == Region(at, 0, ulSize) && Fields() == MgrAlloc(old(Fields()), ulSize, at)
    {
      var hr, res;
      if source != 0 {
        hr, res := mgr.LFMAllocateMore(ulSize, source, true, at);
        if hr != LFS_SUCCESS {
          return Refused;
        }
        if headPtr == 0 {
          headPtr := res;
        }
        allocatedSize := Wrap(allocatedSize + ulSize);
      } else {
        hr, res := mgr.LFMAllocateBuffer(ulSize, true, at);
        source := res;
        headPtr := res;
        allocatedSize := Wrap(allocatedSize + ulSize);
      }
      return Got(Region(res, 0, ulSize));
    }

    method Allocate(ulSize: nat, at: Addr) returns (ans: Answer)
      requires Served(mgr.Model(), Fields(), ulSize, at)
      modifies this, mgr
      ensures mgr.Model() == NewMemory(old(mgr.Model()), old(Fields()), ulSize, at)
      ensures Fields() == NewAlloc(old(mgr.Model()), old(Fields()), ulSize, at)
      ensures ans == NewAnswer(old(mgr.Model()), old(Fields()), ulSize, at)
    {
      if source == 0 || headPtr == 0 {
        var reqSize := if sizeHint > ulSize then sizeHint else ulSize;
        ans := MgrAllocate(reqSize, at);
        if ans.Got? {
          allocatedSize := ulSize;
          ans := Got(Region(ans.r.block, 0, ulSize));
        }
        return;
      }
      if sizeHint > 0 && headPtr != 0 && Wrap(allocatedSize + ulSize) <= sizeHint {
        ans := Got(Region(headPtr, allocatedSize, ulSize));
        allocatedSize := Wrap(allocatedSize + ulSize);
        return;
      }
      ans := MgrAllocate(ulSize, at);
    }

    /**
     createArray: a table of pointers, then the items it points to. A refusal of either is an exception that ends the
     call.
     */
    method CreateArray(n: nat, nullTerminated: bool, createItems: bool, ptrSize: nat, itemSize: nat, ats: seq<Addr>)
      returns (table: Answer, items: seq<Answer>)
      requires |ats| == if createItems then n + 1 else 1
      requires ServedAll(mgr.Model(), Fields(),
                         ArraySizes(TableSize(n, nullTerminated, ptrSize), itemSize, |ats| - 1), ats)
      modifies this, mgr
      ensures if table.Refused? || !createItems then items == [] else UpToRefusal(items, n)
      ensures table.Got? && ptrSize > 0 ==>
        forall i :: 0 <= i ==> (PointerInside(table.r, i, ptrSize) <==> i < n || (nullTerminated && i == n))
      ensures OfSize(items, itemSize)
      ensures Placed(mgr.Model(), Fields(), [table] + items) ==
        PlaceAll(old(mgr.Model()), old(Fields()),
                 ArraySizes(TableSize(n, nullTerminated, ptrSize), itemSize, |items|), ats[..|items| + 1])
    {
      ghost var m0, a0 := mgr.Model(), Fields();
      var tableSize := TableSize(n, nullTerminated, ptrSize);
      ServedStep(m0, a0, tableSize, itemSize, |ats| - 1, ats, 0);
      table := Allocate(tableSize, ats[0]);
      items := [];
      if table.Got? && ptrSize > 0 { TableHoldsAll(table.r, n, nullTerminated, ptrSize); }
      OneRequest(m0, a0, tableSize, itemSize, ats);
      assert [table] + [] == [table];
      assert ArraySoFar(mgr.Model(), Fields(), table, items, m0, a0, tableSize, itemSize, ats);
      if table.Got? && createItems {
        items := CreateItems(n, itemSize, ats, m0, a0, tableSize, table);
      }
    }

    /** The items of an array, after its table. */
    method CreateItems(n: nat, itemSize: nat, ats: seq<Addr>, ghost m0: Memory, ghost a0: Alloc,
                       ghost tableSize: nat, ghost table: Answer)
      returns (items: seq<Answer>)
      requires |ats| == n + 1 && ServedAll(m0, a0, ArraySizes(tableSize, itemSize, n), ats)
      requires ArraySoFar(mgr.Model(), Fields(), table, [], m0, a0, tableSize, itemSize, ats)
      modifies this, mgr
      ensures OfSize(items, itemSize)
      ensures UpToRefusal(items, n) && ArraySoFar(mgr.Model(), Fields(), table, items, m0, a0, tableSize, itemSize, ats)
    {
      items := [];
      var refused := false;
      while |items| < n && !refused
        invariant |items| <= n && (refused <==> items != [] && items[|items| - 1].Refused?)
        invariant OfSize(items, itemSize) && forall i :: 0 <= i < |items| - 1 ==> items[i].Got?
        invariant ArraySoFar(mgr.Model(), Fields(), table, items, m0, a0, tableSize, itemSize, ats)
        decreases n - |items|
      {
        ghost var m, a := mgr.Model(), Fields();
        ItemNext(m, a, table, items, m0, a0, tableSize, itemSize, ats);
        var item := Allocate(itemSize, ats[|items| + 1]);
        items := items + [item];
        refused := item.Refused?;
      }
    }
  }

  /** Whatever was handed out is as long as it should be. */
  ghost predicate OfSize(answers: seq<Answer>, size: nat) {
    forall i :: 0 <= i < |answers| && answers[i].Got? ==> answers[i].r.size == size
  }

  /** Memory and fields are those after the table and these items. */
  ghost predicate ArraySoFar(m: Memory, a: Alloc, table: Answer, items: seq<Answer>, m0: Memory, a0: Alloc,
                             tableSize: nat, itemSize: nat, ats: seq<Addr>)
    requires |items| < |ats|
  {
    Placed(m, a, [table] + items) == PlaceAll(m0, a0, ArraySizes(tableSize, itemSize, |items|), ats[..|items| + 1])
  }

  /** The next item can be served, and leads one further. */
  lemma ItemNext(m: Memory, a: Alloc, table: Answer, items: seq<Answer>, m0: Memory, a0: Alloc,
                 tableSize: nat, itemSize: nat, ats: seq<Addr>)
    requires |items| + 1 < |ats| && ServedAll(m0, a0, ArraySizes(tableSize, itemSize, |ats| - 1), ats)
    requires ArraySoFar(m, a, table, items, m0, a0, tableSize, itemSize, ats)
    ensures var at := ats[|items| + 1];
      && Served(m, a, itemSize, at)
      && ArraySoFar(NewMemory(m, a, itemSize, at), NewAlloc(m, a, itemSize, at),
                    table, items + [NewAnswer(m, a, itemSize, at)], m0, a0, tableSize, itemSize, ats)
  {
    var item := NewAnswer(m, a, itemSize, ats[|items| + 1]);
    ServedStep(m0, a0, tableSize, itemSize, |ats| - 1, ats, |items| + 1);
    OneMoreRequest(m0, a0, tableSize, itemSize, |items|, ats);
    assert [table] + items + [item] == [table] + (items + [item]);
  }

  /** The answers to `n` requests, of which the first that is refused is the last that is made. */
  ghost predicate UpToRefusal(items: seq<Answer>, n: nat) {
    |items| <= n && (|items| < n ==> items != [] && items[|items| - 1].Refused?) &&
    forall i :: 0 <= i < |items| - 1 ==> items[i].Got?
  }

  /** Bytes of a table of n pointers. */
  function TableSize(n: nat, nullTerminated: bool, ptrSize: nat): nat { ptrSize * if nullTerminated then n + 1 else n }

  /** Pointer i of a table lies inside a region. */
  predicate PointerInside(r: Region, i: nat, ptrSize: nat) { i * ptrSize + ptrSize <= r.size }

  /** The table holds its n pointers, the terminator behind them where there is one, and no more. */
  lemma TableHolds(r: Region, n: nat, nullTerminated: bool, ptrSize: nat, i: nat)
    requires ptrSize > 0 && r.size == TableSize(n, nullTerminated, ptrSize)
    ensures PointerInside(r, i, ptrSize) <==> i < n || (nullTerminated && i == n)
  {
    var k := if nullTerminated then n + 1 else n;
    assert r.size == ptrSize * k;
    if i < k {
      assert ptrSize * (i + 1) <= ptrSize * k;
    } else {
      assert ptrSize * (i + 1) > ptrSize * k;
    }
    assert i * ptrSize + ptrSize == ptrSize * (i + 1);
  }

  lemma TableHoldsAll(r: Region, n: nat, nullTerminated: bool, ptrSize: nat)
    requires ptrSize > 0 && r.size == TableSize(n, nullTerminated, ptrSize)
    ensures forall i :: 0 <= i ==> (PointerInside(r, i, ptrSize) <==> i < n || (nullTerminated && i == n))
  {
    forall i | 0 <= i
      ensures PointerInside(r, i, ptrSize) <==> i < n || (nullTerminated && i == n)
    {
      TableHolds(r, n, nullTerminated, ptrSize, i);
    }
  }

  /** The requests of an array call: the table and k items. */
  function ArraySizes(tableSize: nat, itemSize: nat, k: nat): seq<nat> { [tableSize] + seq(k, _ => itemSize) }

  /** What malloc owes to request `k` of an array call of `n` items. */
  lemma ServedStep(m: Memory, a: Alloc, tableSize: nat, itemSize: nat, n: nat, ats: seq<Addr>, k: nat)
    requires |ats| == n + 1 && k <= n && ServedAll(m, a, ArraySizes(tableSize, itemSize, n), ats)
    ensures k == 0 ==> Served(m, a, tableSize, ats[0])
    ensures k > 0 ==>
      var p := PlaceAll(m, a, ArraySizes(tableSize, itemSize, k - 1), ats[..k]); Served(p.m, p.a, itemSize, ats[k])
  {
    var sizes := ArraySizes(tableSize, itemSize, n);
    assert ServedAt(m, a, sizes, ats, k);
    if k == 0 {
      assert PlaceAll(m, a, sizes[..0], ats[..0]) == Placed(m, a, []);
    } else {
      assert sizes[..k] == ArraySizes(tableSize, itemSize, k - 1);
    }
  }

  lemma OneRequest(m: Memory, a: Alloc, size: nat, itemSize: nat, ats: seq<Addr>)
    requires |ats| > 0
    ensures PlaceAll(m, a, ArraySizes(size, itemSize, 0), ats[..1])
            == Placed(NewMemory(m, a, size, ats[0]), NewAlloc(m, a, size, ats[0]), [NewAnswer(m, a, size, ats[0])])
  {
    var sizes := ArraySizes(size, itemSize, 0);
    assert sizes[..0] == [] && ats[..1][..0] == [];
    assert PlaceAll(m, a, sizes[..0], ats[..1][..0]) == Placed(m, a, []);
  }

  lemma OneMoreRequest(m: Memory, a: Alloc, tableSize: nat, size: nat, k: nat, ats: seq<Addr>)
    requires k + 1 < |ats|
    ensures var p, at := PlaceAll(m, a, ArraySizes(tableSize, size, k), ats[..k + 1]), ats[k + 1];
      PlaceAll(m, a, ArraySizes(tableSize, size, k + 1), ats[..k + 2]) ==
      Placed(NewMemory(p.m, p.a, size, at), NewAlloc(p.m, p.a, size, at), p.answers + [NewAnswer(p.m, p.a, size, at)])
  {
    assert ArraySizes(tableSize, size, k + 1)[..k + 1] == ArraySizes(tableSize, size, k);
    assert ats[..k + 2][..k + 1] == ats[..k + 1];
  }
}
