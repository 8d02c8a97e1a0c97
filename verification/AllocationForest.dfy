/**
 The manager's memory: blocks handed out by malloc, and a map from each root to the blocks attached to it. `Memory` and
 its functions are the specification; the class does the same in place, freeing block by block.
 */
module AllocationForest {
  import opened Basics

  type Addr = nat

  /** Live blocks by base address, and the allocation map. */
  datatype Memory = Memory(heap: map<Addr, seq<Byte>>, roots: map<Addr, seq<Addr>>)

  /** Addresses a block of n bytes keeps for itself; malloc(0) has an address of its own too. */
  function Extent(n: nat): nat { if n == 0 then 1 else n }

  ghost predicate Apart(a: Addr, n: nat, b: Addr, k: nat) { a + Extent(n) <= b || b + Extent(k) <= a }

  /** What malloc promises of an address: not null, and clear of every live block. */
  ghost predicate Fresh(m: Memory, at: Addr, n: nat) {
    at != 0 && forall b :: b in m.heap ==> Apart(at, n, b, |m.heap[b]|)
  }

  /** What malloc may return: a fresh block, or null where nothing was asked for. */
  ghost predicate Mallocs(m: Memory, at: Addr, n: nat) { Fresh(m, at, n) || (at == 0 && n == 0) }

  function Zeros(n: nat): seq<Byte> { seq(n, _ => 0) }

  function AddRoot(m: Memory, n: nat, at: Addr): Memory { Memory(m.heap[at := Zeros(n)], m.roots[at := []]) }

  function AddChild(m: Memory, n: nat, root: Addr, at: Addr): Memory
    requires root in m.roots
  {
    Memory(m.heap[at := Zeros(n)], m.roots[root := m.roots[root] + [at]])
  }

  /** A root and everything attached to it. */
  function Group(m: Memory, root: Addr): set<Addr>
    requires root in m.roots
  {
    {root} + set a | a in m.roots[root]
  }

  function Release(m: Memory, root: Addr): Memory
    requires root in m.roots
  {
    Memory(m.heap - Group(m, root), m.roots - {root})
  }

  /** The calls, with the address malloc finds; `Poke` is a client writing into memory it was given. */
  datatype Call =
    | AllocateBuffer(size: nat, at: Addr)
    | AllocateMore(size: nat, original: Addr, at: Addr)
    | FreeBuffer(data: Addr)
    | Poke(block: Addr, off: nat, b: Byte)

  function SetByte(bytes: seq<Byte>, off: nat, b: Byte): seq<Byte>
    requires off < |bytes|
  {
    bytes[..off] + [b] + bytes[off + 1..]
  }

  ghost function Apply(m: Memory, c: Call): Memory {
    match c
    case AllocateBuffer(size, at) => if Fresh(m, at, size) then AddRoot(m, size, at) else m
    case AllocateMore(size, original, at) =>
      if original in m.roots && Fresh(m, at, size) then AddChild(m, size, original, at) else m
    case FreeBuffer(data) => if data in m.roots then Release(m, data) else m
    case Poke(block, off, b) =>
      if block in m.heap && off < |m.heap[block]|
      then m.(heap := m.heap[block := SetByte(m.heap[block], off, b)]) else m
  }

  ghost function Run(m: Memory, calls: seq<Call>): Memory {
    if calls == [] then m else Apply(Run(m, calls[..|calls| - 1]), calls[|calls| - 1])
  }

  // ---- the forest

  ghost predicate NoRepeats(m: Memory) {
    forall r, i, j :: r in m.roots && 0 <= i < j < |m.roots[r]| ==> m.roots[r][i] != m.roots[r][j]
  }

  /** No block has two places in the map. */
  ghost predicate OnePlace(m: Memory) {
    (forall r, i :: r in m.roots && 0 <= i < |m.roots[r]| ==> m.roots[r][i] !in m.roots) &&
    (forall r, q, i, j :: r in m.roots && q in m.roots && 0 <= i < |m.roots[r]| && 0 <= j < |m.roots[q]| && r != q ==>
       m.roots[r][i] != m.roots[q][j])
  }

  ghost predicate Places(m: Memory, a: Addr) {
    a in m.roots || exists r, i :: r in m.roots && 0 <= i < |m.roots[r]| && m.roots[r][i] == a
  }

  /** The live blocks are exactly the roots and their children, each in one place, and none overlaps another. */
  ghost predicate Forest(m: Memory) {
    && NoRepeats(m) && OnePlace(m)
    && (forall a :: a in m.heap <==> Places(m, a))
    && 0 !in m.heap
    && (forall a, b :: a in m.heap && b in m.heap && a != b ==> Apart(a, |m.heap[a]|, b, |m.heap[b]|))
  }

  lemma FreshIsNew(m: Memory, at: Addr, n: nat)
    requires Fresh(m, at, n)
    ensures at !in m.heap
  {
  }

  lemma AddRootForest(m: Memory, n: nat, at: Addr)
    requires Forest(m) && Fresh(m, at, n)
    ensures Forest(AddRoot(m, n, at))
  {
    FreshIsNew(m, at, n);
    var m' := AddRoot(m, n, at);
    assert !Places(m, at);
    forall a
      ensures a in m'.heap <==> Places(m', a)
    {
      if Places(m, a) && a !in m.roots {
        var r, i :| r in m.roots && 0 <= i < |m.roots[r]| && m.roots[r][i] == a;
        assert r in m'.roots && m'.roots[r][i] == a;
      }
      if Places(m', a) && a !in m'.roots {
        var r, i :| r in m'.roots && 0 <= i < |m'.roots[r]| && m'.roots[r][i] == a;
        assert r in m.roots && m.roots[r][i] == a;
      }
    }
  }

  lemma AddChildForest(m: Memory, n: nat, root: Addr, at: Addr)
    requires Forest(m) && root in m.roots && Fresh(m, at, n)
    ensures Forest(AddChild(m, n, root, at))
  {
    FreshIsNew(m, at, n);
    var m' := AddChild(m, n, root, at);
    assert !Places(m, at);
    forall a
      ensures a in m'.heap <==> Places(m', a)
    {
      if Places(m, a) && a !in m.roots {
        var r, i :| r in m.roots && 0 <= i < |m.roots[r]| && m.roots[r][i] == a;
        assert r in m'.roots && m'.roots[r][i] == a;
      }
      assert m'.roots[root][|m.roots[root]|] == at;
      if Places(m', a) && a !in m'.roots && a != at {
        var r, i :| r in m'.roots && 0 <= i < |m'.roots[r]| && m'.roots[r][i] == a;
        assert r in m.roots && m.roots[r][i] == a;
      }
    }
  }

  /** Freeing a root takes its whole group and nothing else, and what stays is a forest. */
  lemma ReleaseForest(m: Memory, root: Addr)
    requires Forest(m) && root in m.roots
    ensures Forest(Release(m, root)) && Group(m, root) <= m.heap.Keys
    ensures Release(m, root).heap.Keys == m.heap.Keys - Group(m, root)
    ensures forall a :: a in Release(m, root).heap ==> Release(m, root).heap[a] == m.heap[a]
    ensures forall r :: r in m.roots && r != root ==>
              r in Release(m, root).roots && Group(Release(m, root), r) == Group(m, r)
  {
    var m' := Release(m, root);
    forall a | a in Group(m, root)
      ensures a in m.heap
    {
      assert Places(m, a);
    }
    forall a
      ensures a in m'.heap <==> Places(m', a)
    {
      if a in m.heap && a !in Group(m, root) && a !in m.roots {
        var r, i :| r in m.roots && 0 <= i < |m.roots[r]| && m.roots[r][i] == a;
        assert r in m'.roots && m'.roots[r][i] == a;
      }
      if Places(m', a) {
        if a !in m'.roots {
          var r, i :| r in m'.roots && 0 <= i < |m'.roots[r]| && m'.roots[r][i] == a;
          assert r in m.roots && m.roots[r][i] == a;
        }
        assert Places(m, a);
      }
    }
  }

  lemma ApplyForest(m: Memory, c: Call)
    requires Forest(m)
    ensures Forest(Apply(m, c))
  {
    match c {
      case AllocateBuffer(size, at) => if Fresh(m, at, size) { AddRootForest(m, size, at); }
      case AllocateMore(size, original, at) =>
        if original in m.roots && Fresh(m, at, size) { AddChildForest(m, size, original, at); }
      case FreeBuffer(data) => if data in m.roots { ReleaseForest(m, data); }
      case Poke(block, off, b) =>
        var m' := Apply(m, c);
        assert forall a :: a in m.heap ==> a in m'.heap && |m'.heap[a]| == |m.heap[a]|;
        assert forall a :: Places(m', a) <==> Places(m, a);
    }
  }

  /** Over every run of calls, with addresses reused as malloc sees fit, the live blocks form a forest. */
  lemma {:induction false} RunForest(calls: seq<Call>)
    ensures Forest(Run(Memory(map[], map[]), calls))
  {
    if calls != [] {
      RunForest(calls[..|calls| - 1]);
      ApplyForest(Run(Memory(map[], map[]), calls[..|calls| - 1]), calls[|calls| - 1]);
    }
  }

  // ---- in place

  class Manager {
    var heap: map<Addr, seq<Byte>>
    var allocMap: map<Addr, seq<Addr>>

    constructor ()
      ensures Model() == Memory(map[], map[])
    {
      heap, allocMap := map[], map[];
    }

    function Model(): Memory
      reads this
    {
      Memory(heap, allocMap)
    }

    /**
     `hasOut` says whether the caller passed an out pointer; `at` is what malloc returned, zeroed by the memset, which
     comes before the test for null and so survives a null only when there is nothing to zero.
     */
    method LFMAllocateBuffer(ulSize: nat, hasOut: bool, at: Addr) returns (hr: int, p: Addr)
      requires hasOut ==> Mallocs(Model(), at, ulSize)
      modifies this
      ensures hr == if !hasOut then LFS_ERR_INVALID_POINTER else if at == 0 then LFS_ERR_OUT_OF_MEMORY else LFS_SUCCESS
      ensures Model() == if hr == LFS_SUCCESS then AddRoot(old(Model()), ulSize, at) else old(Model())
      ensures hasOut ==> p == at
    {
      if !hasOut {
        return LFS_ERR_INVALID_POINTER, 0;
      }
      if at == 0 {
        return LFS_ERR_OUT_OF_MEMORY, 0;
      }
      heap := heap[at := Zeros(ulSize)];
      allocMap := allocMap[at := []];
      return LFS_SUCCESS, at;
    }

    method LFMAllocateMore(ulSize: nat, original: Addr, hasOut: bool, at: Addr) returns (hr: int, p: Addr)
      requires hasOut && original in allocMap ==> Mallocs(Model(), at, ulSize)
      modifies this
      ensures hr == if !hasOut then LFS_ERR_INVALID_POINTER
                    else if original !in old(allocMap) then LFS_ERR_INVALID_ADDRESS
                    else if at == 0 then LFS_ERR_OUT_OF_MEMORY else LFS_SUCCESS
      ensures Model() == if hr == LFS_SUCCESS then AddChild(old(Model()), ulSize, original, at) else old(Model())
      ensures hasOut && original in old(allocMap) ==> p == at
    {
      if !hasOut {
        return LFS_ERR_INVALID_POINTER, 0;
      }
      if original !in allocMap {
        return LFS_ERR_INVALID_ADDRESS, 0;
      }
      if at == 0 {
        return LFS_ERR_OUT_OF_MEMORY, 0;
      }
      heap := heap[at := Zeros(ulSize)];
      allocMap := allocMap[original := allocMap[original] + [at]];
      return LFS_SUCCESS, at;
    }

    /** free(): only ever called on a live block, so no block is freed twice. */
    method Free(p: Addr)
      requires p in heap
      modifies this`heap
      ensures heap == old(heap) - {p}
    {
      heap := heap - {p};
    }

    /** The loop over a root's children. */
    method FreeAll(children: seq<Addr>)
      requires forall i :: 0 <= i < |children| ==> children[i] in heap
      requires forall i, j :: 0 <= i < j < |children| ==> children[i] != children[j]
      modifies this`heap
      ensures heap == old(heap) - set a | a in children
    {
      var i := 0;
      while i < |children|
        invariant 0 <= i <= |children|
        invariant heap.Keys == old(heap.Keys) - set a | a in children[..i]
        invariant forall a :: a in heap ==> heap[a] == old(heap)[a]
      {
        assert children[..i + 1] == children[..i] + [children[i]];
        Free(children[i]);
        i := i + 1;
      }
      assert children[..i] == children;
    }

    method LFMFreeBuffer(data: Addr) returns (hr: int)
      requires Forest(Model())
      modifies this
      ensures hr == if data == 0 then LFS_ERR_INVALID_POINTER
                    else if data !in old(allocMap) then LFS_ERR_INVALID_BUFFER else LFS_SUCCESS
      ensures Model() == if hr == LFS_SUCCESS then Release(old(Model()), data) else old(Model())
    {
      if data == 0 {
        return LFS_ERR_INVALID_POINTER;
      }
      if data !in allocMap {
        return LFS_ERR_INVALID_BUFFER;
      }
      var children := allocMap[data];
      forall i | 0 <= i < |children|
        ensures children[i] in heap
      {
        assert Places(Model(), children[i]);
      }
      assert Places(Model(), data);
      FreeAll(children);
      Free(data);
      allocMap := allocMap - {data};
      assert heap == old(heap) - Group(old(Model()), data);
      return LFS_SUCCESS;
    }
  }
}
