/**
 Allocator: objects carved out of one head block while the size hint allows, extra blocks attached to the root after
 that. The functions say what one request does to the manager's memory; the class does it in place.
 */
module BumpAllocator {
  import opened Basics
  import opened AllocationForest

  function Wrap(n: nat): nat { n % WIDTH }

  /** The fields of an Allocator; 0 is the null pointer, and `used` is _allocatedSize. */
  datatype Alloc = Alloc(sourceWasNull: bool, source: Addr, head: Addr, hint: nat, used: nat)

  /** What a request returns: an offset into a block. */
  datatype Region = Region(block: Addr, off: nat, size: nat)

  datatype Answer = Got(r: Region) | Refused

  function Start(source: Addr, hint: nat): Alloc { Alloc(source == 0, source, 0, hint, 0) }

  /** Nothing is carved yet: the first request goes to the manager. */
  predicate First(a: Alloc) { a.source == 0 || a.head == 0 }

  predicate Carves(a: Alloc, size: nat) { !First(a) && a.hint > 0 && Wrap(a.used + size) <= a.hint }

  /** Bytes asked of the manager when the request is not carved. */
  function Asked(a: Alloc, size: nat): nat { if First(a) && a.hint > size then a.hint else size }

  function MgrMemory(m: Memory, a: Alloc, n: nat, at: Addr): Memory {
    if a.source == 0 then AddRoot(m, n, at)
    else if a.source in m.roots then AddChild(m, n, a.source, at)
    else m
  }

  /** A source that is no root makes WFMAllocateMore fail, and the request throws before it changes anything. */
  predicate Refuses(m: Memory, a: Alloc) { a.source != 0 && a.source !in m.roots }

  function MgrAlloc(a: Alloc, n: nat, at: Addr): Alloc {
    a.(source := if a.source == 0 then at else a.source,
       head := if a.source == 0 || a.head == 0 then at else a.head,
       used := Wrap(a.used + n))
  }

  function NewMemory(m: Memory, a: Alloc, size: nat, at: Addr): Memory {
    if Carves(a, size) then m else MgrMemory(m, a, Asked(a, size), at)
  }

  function NewAlloc(m: Memory, a: Alloc, size: nat, at: Addr): Alloc {
    if Carves(a, size) then a.(used := Wrap(a.used + size))
    else if Refuses(m, a) then a
    else if First(a) then MgrAlloc(a, Asked(a, size), at).(used := size)
    else MgrAlloc(a, size, at)
  }

  function NewAnswer(m: Memory, a: Alloc, size: nat, at: Addr): Answer {
    if Carves(a, size) then Got(Region(a.head, a.used, size))
    else if Refuses(m, a) then Refused
    else Got(Region(at, 0, size))
  }

  /**
   What a request costs: nothing while it fits under the hint, otherwise one zeroed block, of the hint when it is the
   first and the hint is larger, and of just its own size else.
   */
  lemma RequestCosts(m: Memory, a: Alloc, size: nat, at: Addr)
    requires !Refuses(m, a)
    ensures var fits := a.source != 0 && a.head != 0 && a.hint > 0 && (a.used + size) % WIDTH <= a.hint;
      var n := if (a.source == 0 || a.head == 0) && a.hint > size then a.hint else size;
      && (NewAnswer(m, a, size, at) == if fits then Got(Region(a.head, a.used, size)) else Got(Region(at, 0, size)))
      && (fits ==> NewMemory(m, a, size, at) == m)
      && (!fits && Fresh(m, at, n) ==>
            && NewMemory(m, a, size, at).heap == m.heap[at := Zeros(n)] && at !in m.heap
            && (a.source == 0 ==> NewMemory(m, a, size, at).roots == m.roots[at := []])
            && (a.source != 0 ==> NewMemory(m, a, size, at).roots == m.roots[a.source := m.roots[a.source] + [at]]))
  {
    var n := if (a.source == 0 || a.head == 0) && a.hint > size then a.hint else size;
    if Fresh(m, at, n) { FreshIsNew(m, at, n); }
  }

  // ---- runs: requests among the calls of other clients and the writes of the objects' owners

  datatype World = World(m: Memory, a: Alloc, regions: seq<Region>, obtained: set<Addr>)

  datatype Event =
    | Request(size: nat, at: Addr)
    | Other(call: Call)
    | WriteOwn(i: nat, off: nat, b: Byte)

  function Sizes(rs: seq<Region>): seq<nat> { seq(|rs|, i requires 0 <= i < |rs| => rs[i].size) }

  /**
   Other clients keep out of this allocator's blocks: they neither free its root, nor attach to a root of its own, nor
   write there.
   */
  predicate KeepsOut(w: World, c: Call) {
    match c
    case AllocateBuffer(_, _) => true
    case AllocateMore(_, original, _) => w.a.sourceWasNull ==> original != w.a.source
    case FreeBuffer(data) => data != w.a.source
    case Poke(block, _, _) => block !in w.obtained
  }

  /** A request that can happen: malloc succeeds and the sizes do not overflow. */
  ghost predicate Possible(w: World, e: Event) {
    match e
    case Request(size, at) =>
      w.a.used + size < WIDTH && (Carves(w.a, size) || Fresh(w.m, at, Asked(w.a, size)))
    case Other(call) => KeepsOut(w, call)
    case WriteOwn(i, off, b) => i < |w.regions| && off < w.regions[i].size
  }

  ghost function Step(w: World, e: Event): World {
    if !Possible(w, e) then w
    else
      match e
      case Request(size, at) =>
        var ans := NewAnswer(w.m, w.a, size, at);
        World(NewMemory(w.m, w.a, size, at), NewAlloc(w.m, w.a, size, at),
              if ans.Got? then w.regions + [ans.r] else w.regions,
              if ans.Got? then w.obtained + {ans.r.block} else w.obtained)
      case Other(call) => w.(m := Apply(w.m, call))
      case WriteOwn(i, off, b) => w.(m := Apply(w.m, Poke(w.regions[i].block, w.regions[i].off + off, b)))
  }

  ghost function RunEvents(w: World, es: seq<Event>): World {
    if es == [] then w else Step(RunEvents(w, es[..|es| - 1]), es[|es| - 1])
  }

  ghost predicate Inside(m: Memory, r: Region) { r.block in m.heap && r.off + r.size <= |m.heap[r.block]| }

  /** No byte belongs to both. */
  ghost predicate Disjoint(r: Region, q: Region) {
    r.block + r.off + r.size <= q.block + q.off || q.block + q.off + q.size <= r.block + r.off
  }

  /** The blocks a region lies in, before addresses are compared. */
  ghost predicate Separate(r: Region, q: Region) {
    r.block == q.block ==> r.off + r.size <= q.off || q.off + q.size <= r.off
  }

  ghost predicate AllZero(bytes: seq<Byte>, from: nat, upto: nat) {
    forall i :: from <= i < upto && i < |bytes| ==> bytes[i] == 0
  }

  /** The object's bytes, as the caller finds them. */
  ghost predicate Zeroed(m: Memory, r: Region) { r.block in m.heap && AllZero(m.heap[r.block], r.off, r.off + r.size) }

  ghost predicate Regions(w: World) {
    (forall i :: 0 <= i < |w.regions| ==> w.regions[i].block in w.obtained && Inside(w.m, w.regions[i])) &&
    (forall i, j :: 0 <= i < j < |w.regions| ==> Separate(w.regions[i], w.regions[j]))
  }

  /** What lies in the head block past the counter is untouched, and the head block is as long as the hint. */
  ghost predicate HeadOk(w: World) {
    w.a.head != 0 ==>
      w.a.source != 0 && w.a.head in w.obtained && w.a.head in w.m.heap &&
      (w.a.used <= w.a.hint ==> w.a.hint <= |w.m.heap[w.a.head]|) &&
      AllZero(w.m.heap[w.a.head], w.a.used, |w.m.heap[w.a.head]|) &&
      (forall i :: 0 <= i < |w.regions| && w.regions[i].block == w.a.head ==>
         w.regions[i].off + w.regions[i].size <= w.a.used)
  }

  /** An allocator that was given no source owns exactly one group; otherwise its blocks are children of the source. */
  ghost predicate Owns(w: World, m: Memory) {
    if w.a.sourceWasNull then
      w.a.source == w.a.head &&
      if w.a.source == 0 then w.obtained == {} else w.a.source in m.roots && Group(m, w.a.source) == w.obtained
    else
      w.a.source != 0 &&
      (w.obtained != {} ==> w.a.source in m.roots && forall b :: b in w.obtained ==> b in m.roots[w.a.source])
  }

  /** The allocator's side of the invariant. */
  ghost predicate Books(w: World) {
    && w.obtained <= w.m.heap.Keys && 0 !in w.obtained
    && w.a.hint < WIDTH && w.a.used == Sum(Sizes(w.regions)) < WIDTH
    && (w.a.head == 0 ==> w.regions == [] && w.obtained == {})
    && Regions(w) && HeadOk(w) && Owns(w, w.m)
  }

  ghost predicate WorldOk(w: World) { Forest(w.m) && Books(w) }

  // ---- steps

  lemma TotalPush(rs: seq<Region>, r: Region)
    ensures Sum(Sizes(rs + [r])) == Sum(Sizes(rs)) + r.size
  {
    assert Sizes(rs + [r]) == Sizes(rs) + [r.size];
    SumPush(Sizes(rs), r.size);
  }

  /** One more object, in a block that was there or one that is new. */
  lemma OneMore(w: World, w': World, r: Region)
    requires Books(w) && w'.regions == w.regions + [r] && w'.obtained == w.obtained + {r.block}
    requires forall a :: a in w.obtained ==> a in w'.m.heap && |w'.m.heap[a]| == |w.m.heap[a]|
    requires Inside(w'.m, r)
    requires forall i :: 0 <= i < |w.regions| ==> Separate(w.regions[i], r)
    ensures Regions(w') && Sum(Sizes(w'.regions)) == Sum(Sizes(w.regions)) + r.size
  {
    TotalPush(w.regions, r);
    forall i | 0 <= i < |w'.regions|
      ensures w'.regions[i].block in w'.obtained && Inside(w'.m, w'.regions[i])
    {
      if i < |w.regions| { assert w'.regions[i] == w.regions[i] && Inside(w.m, w.regions[i]); }
    }
  }

  lemma CarveStep(w: World, size: nat, at: Addr)
    requires Books(w) && w.a.used + size < WIDTH && Carves(w.a, size)
    ensures var w', r := Step(w, Request(size, at)), Region(w.a.head, w.a.used, size);
      w'.m == w.m && Books(w') && w'.regions == w.regions + [r] && Zeroed(w'.m, r)
  {
    var w', r := Step(w, Request(size, at)), Region(w.a.head, w.a.used, size);
    assert w'.obtained == w.obtained;
    OneMore(w, w', r);
  }

  /** The manager's memory after a request it had to serve. */
  lemma NewBlock(w: World, n: nat, at: Addr)
    requires WorldOk(w) && !Refuses(w.m, w.a) && Fresh(w.m, at, n)
    ensures var m' := MgrMemory(w.m, w.a, n, at);
      Forest(m') && m'.heap == w.m.heap[at := Zeros(n)] && at !in w.m.heap && at !in w.obtained
    ensures w.a.source == 0 ==> at in MgrMemory(w.m, w.a, n, at).roots && Group(MgrMemory(w.m, w.a, n, at), at) == {at}
    ensures w.a.source != 0 ==> w.a.source in MgrMemory(w.m, w.a, n, at).roots
    ensures w.a.source != 0 ==> MgrMemory(w.m, w.a, n, at).roots[w.a.source] == w.m.roots[w.a.source] + [at]
  {
    FreshIsNew(w.m, at, n);
    if w.a.source == 0 { AddRootForest(w.m, n, at); } else { AddChildForest(w.m, n, w.a.source, at); }
  }

  lemma BlockOwned(w: World, w': World, at: Addr)
    requires Books(w) && !Refuses(w.m, w.a)
    requires w.a.source == 0 ==> at in w'.m.roots && Group(w'.m, at) == {at}
    requires w.a.source != 0 ==> w.a.source in w'.m.roots && w'.m.roots[w.a.source] == w.m.roots[w.a.source] + [at]
    requires w'.a.source == (if w.a.source == 0 then at else w.a.source) && w'.a.sourceWasNull == w.a.sourceWasNull
    requires w'.a.head == (if First(w.a) then at else w.a.head) && w'.obtained == w.obtained + {at} && at != 0
    ensures Owns(w', w'.m)
  {
    if w.a.sourceWasNull && w.a.source != 0 {
      assert Group(w'.m, w.a.source) == Group(w.m, w.a.source) + {at};
    }
  }

  /** The head block is the new one, or the old one untouched. */
  lemma BlockHead(w: World, w': World, at: Addr, n: nat, size: nat)
    requires Books(w) && at !in w.obtained && at != 0 && size <= n
    requires w'.m.heap == w.m.heap[at := Zeros(n)] && w'.regions == w.regions + [Region(at, 0, size)]
    requires w'.obtained == w.obtained + {at} && w'.a.hint == w.a.hint && w'.a.source != 0
    requires if First(w.a) then w.regions == [] && w'.a.head == at && w'.a.used == size && n >= w.a.hint
             else w'.a.head == w.a.head && w'.a.used == w.a.used + size
    ensures HeadOk(w')
  {
  }

  lemma BlockStep(w: World, size: nat, at: Addr)
    requires WorldOk(w) && w.a.used + size < WIDTH && !Carves(w.a, size) && !Refuses(w.m, w.a)
    requires Fresh(w.m, at, Asked(w.a, size))
    ensures var w', r := Step(w, Request(size, at)), Region(at, 0, size);
      WorldOk(w') && w'.regions == w.regions + [r] && Zeroed(w'.m, r)
  {
    var n, r := Asked(w.a, size), Region(at, 0, size);
    NewBlock(w, n, at);
    var w' := World(MgrMemory(w.m, w.a, n, at), NewAlloc(w.m, w.a, size, at), w.regions + [r], w.obtained + {at});
    assert w' == Step(w, Request(size, at));
    BlockBooks(w, w', size, at);
  }

  lemma BlockBooks(w: World, w': World, size: nat, at: Addr)
    requires Books(w) && w.a.used + size < WIDTH && !Carves(w.a, size) && !Refuses(w.m, w.a) && at != 0
    requires w'.m.heap == w.m.heap[at := Zeros(Asked(w.a, size))] && at !in w.m.heap
    requires w.a.source == 0 ==> at in w'.m.roots && Group(w'.m, at) == {at}
    requires w.a.source != 0 ==> w.a.source in w'.m.roots && w'.m.roots[w.a.source] == w.m.roots[w.a.source] + [at]
    requires w' == World(w'.m, NewAlloc(w.m, w.a, size, at), w.regions + [Region(at, 0, size)], w.obtained + {at})
    ensures Books(w') && Zeroed(w'.m, Region(at, 0, size))
  {
    OneMore(w, w', Region(at, 0, size));
    BlockOwned(w, w', at);
    if First(w.a) { assert w.regions == []; }
    BlockHead(w, w', at, Asked(w.a, size), size);
  }

  /** A change elsewhere in the manager's memory. */
  lemma OtherKeeps(w: World, m': Memory)
    requires WorldOk(w) && Forest(m') && Owns(w, m')
    requires forall a :: a in w.obtained ==> a in m'.heap && m'.heap[a] == w.m.heap[a]
    ensures WorldOk(w.(m := m'))
  {
  }

  lemma GroupsApart(m: Memory, r: Addr, q: Addr)
    requires Forest(m) && r in m.roots && q in m.roots && r != q
    ensures Group(m, r) !! Group(m, q)
  {
  }

  lemma OtherFrees(w: World, data: Addr)
    requires WorldOk(w) && data != w.a.source && data in w.m.roots
    ensures Owns(w, Release(w.m, data)) && w.obtained !! Group(w.m, data)
  {
    ReleaseForest(w.m, data);
    if w.a.source in w.m.roots { GroupsApart(w.m, w.a.source, data); }
    if !w.a.sourceWasNull && w.obtained != {} { assert w.obtained <= Group(w.m, w.a.source); }
  }

  lemma OtherAllocates(w: World, c: Call)
    requires WorldOk(w) && KeepsOut(w, c) && (c.AllocateBuffer? || c.AllocateMore?)
    ensures Owns(w, Apply(w.m, c))
    ensures forall a :: a in w.m.heap ==> a in Apply(w.m, c).heap && Apply(w.m, c).heap[a] == w.m.heap[a]
  {
    if Fresh(w.m, c.at, c.size) { FreshIsNew(w.m, c.at, c.size); }
    assert forall r :: r in w.m.roots ==> Places(w.m, r);
  }

  lemma OtherStep(w: World, c: Call)
    requires WorldOk(w) && KeepsOut(w, c)
    ensures WorldOk(Step(w, Other(c)))
  {
    ApplyForest(w.m, c);
    if c.AllocateBuffer? || c.AllocateMore? {
      OtherAllocates(w, c);
    } else if c.FreeBuffer? && c.data in w.m.roots {
      ReleaseForest(w.m, c.data);
      OtherFrees(w, c.data);
    }
    OtherKeeps(w, Apply(w.m, c));
  }

  lemma PokeKeeps(m: Memory, block: Addr, off: nat, b: Byte)
    requires block in m.heap && off < |m.heap[block]|
    ensures var m' := Apply(m, Poke(block, off, b));
      m'.roots == m.roots && m'.heap.Keys == m.heap.Keys &&
      (forall a :: a in m.heap ==> |m'.heap[a]| == |m.heap[a]|) &&
      (forall a :: a in m.heap && a != block ==> m'.heap[a] == m.heap[a]) &&
      (forall i :: 0 <= i < |m.heap[block]| && i != off ==> m'.heap[block][i] == m.heap[block][i])
  {
  }

  lemma WriteBooks(w: World, i: nat, off: nat, w': World)
    requires Books(w) && i < |w.regions| && off < w.regions[i].size && w' == w.(m := w'.m)
    requires w'.m.roots == w.m.roots && w'.m.heap.Keys == w.m.heap.Keys
    requires forall a :: a in w.m.heap ==> |w'.m.heap[a]| == |w.m.heap[a]|
    requires forall a :: a in w.m.heap && a != w.regions[i].block ==> w'.m.heap[a] == w.m.heap[a]
    requires w.regions[i].block in w.m.heap
    requires forall k :: 0 <= k < |w.m.heap[w.regions[i].block]| && k != w.regions[i].off + off ==>
               w'.m.heap[w.regions[i].block][k] == w.m.heap[w.regions[i].block][k]
    ensures Books(w')
  {
    forall j | 0 <= j < |w.regions|
      ensures Inside(w'.m, w.regions[j])
    {
      assert Inside(w.m, w.regions[j]);
    }
  }

  lemma StepOwn(w: World, i: nat, off: nat, b: Byte)
    requires i < |w.regions| && off < w.regions[i].size
    ensures Step(w, WriteOwn(i, off, b)) == w.(m := Apply(w.m, Poke(w.regions[i].block, w.regions[i].off + off, b)))
  {
  }

  lemma WriteTo(w: World, i: nat, off: nat, b: Byte)
    requires Books(w) && i < |w.regions| && off < w.regions[i].size
    ensures Books(w.(m := Apply(w.m, Poke(w.regions[i].block, w.regions[i].off + off, b))))
  {
    var r := w.regions[i];
    assert Inside(w.m, r);
    PokeKeeps(w.m, r.block, r.off + off, b);
    WriteBooks(w, i, off, w.(m := Apply(w.m, Poke(r.block, r.off + off, b))));
  }

  /** An owner writing into its object changes no length and leaves the uncarved rest zero. */
  lemma WriteStep(w: World, i: nat, off: nat, b: Byte)
    requires WorldOk(w) && i < |w.regions| && off < w.regions[i].size
    ensures WorldOk(Step(w, WriteOwn(i, off, b)))
  {
    var call := Poke(w.regions[i].block, w.regions[i].off + off, b);
    StepOwn(w, i, off, b);
    ApplyForest(w.m, call);
    WriteTo(w, i, off, b);
    var m' := Apply(w.m, call);
    assert Forest(m') && Books(w.(m := m'));
  }

  lemma RequestStep(w: World, size: nat, at: Addr)
    requires WorldOk(w) && Possible(w, Request(size, at))
    ensures WorldOk(Step(w, Request(size, at)))
    ensures var w', ans := Step(w, Request(size, at)), NewAnswer(w.m, w.a, size, at);
      if ans.Got? then w'.regions == w.regions + [ans.r] && ans.r.size == size && Zeroed(w'.m, ans.r) else w' == w
  {
    if Carves(w.a, size) { CarveStep(w, size, at); }
    else if !Refuses(w.m, w.a) { BlockStep(w, size, at); }
  }

  lemma {:induction false} RunOk(w: World, es: seq<Event>)
    requires WorldOk(w)
    ensures WorldOk(RunEvents(w, es))
  {
    if es != [] {
      var mid := RunEvents(w, es[..|es| - 1]);
      RunOk(w, es[..|es| - 1]);
      if Possible(mid, es[|es| - 1]) {
        match es[|es| - 1] {
          case Request(size, at) => RequestStep(mid, size, at);
          case Other(call) => OtherStep(mid, call);
          case WriteOwn(i, off, b) => WriteStep(mid, i, off, b);
        }
      }
    }
  }

  lemma NoSharedByte(w: World, i: nat, j: nat)
    requires WorldOk(w) && i < j < |w.regions|
    ensures Disjoint(w.regions[i], w.regions[j])
  {
    var r, q := w.regions[i], w.regions[j];
    assert Separate(r, q) && Inside(w.m, r) && Inside(w.m, q);
    if r.block != q.block { assert Apart(r.block, |w.m.heap[r.block]|, q.block, |w.m.heap[q.block]|); }
  }

  lemma StartOk(m: Memory, source: Addr, hint: nat)
    requires Forest(m) && hint < WIDTH
    ensures WorldOk(World(m, Start(source, hint), [], {}))
  {
  }

  /**
   Every object lies inside a block the manager gave to this allocator, no two share a byte, and a fresh one is all
   zero: for every list of requests without size overflow, among other clients' calls and the owners' own writes.
   */
  lemma RegionsAreSafe(m: Memory, source: Addr, hint: nat, es: seq<Event>)
    requires Forest(m) && hint < WIDTH
    ensures var w := RunEvents(World(m, Start(source, hint), [], {}), es);
      (forall i :: 0 <= i < |w.regions| ==> w.regions[i].block in w.obtained && Inside(w.m, w.regions[i])) &&
      (forall i, j :: 0 <= i < j < |w.regions| ==> Disjoint(w.regions[i], w.regions[j])) &&
      (forall size, at :: Possible(w, Request(size, at)) && NewAnswer(w.m, w.a, size, at).Got? ==>
         Zeroed(Step(w, Request(size, at)).m, NewAnswer(w.m, w.a, size, at).r))
  {
    StartOk(m, source, hint);
    RunOk(World(m, Start(source, hint), [], {}), es);
    var w := RunEvents(World(m, Start(source, hint), [], {}), es);
    forall i, j | 0 <= i < j < |w.regions|
      ensures Disjoint(w.regions[i], w.regions[j])
    {
      NoSharedByte(w, i, j);
    }
    forall size, at | Possible(w, Request(size, at)) && NewAnswer(w.m, w.a, size, at).Got?
      ensures Zeroed(Step(w, Request(size, at)).m, NewAnswer(w.m, w.a, size, at).r)
    {
      RequestStep(w, size, at);
    }
  }

  /** A carved object lies inside the head block exactly when the sum of sizes has not wrapped. */
  lemma CarveInsideIff(w: World, size: nat)
    requires WorldOk(w) && size < WIDTH && Carves(w.a, size) && |w.m.heap[w.a.head]| < WIDTH
    ensures Inside(w.m, NewAnswer(w.m, w.a, size, 0).r) <==> w.a.used + size < WIDTH
  {
  }

  /** The first request of a new allocator with a hint. */
  lemma FirstRequest(hint: nat, size: nat, at: Addr)
    requires size <= hint < WIDTH && at != 0
    ensures var m := Memory(map[], map[]);
      RunEvents(World(m, Start(0, hint), [], {}), [Request(size, at)]) ==
      World(AddRoot(m, hint, at), Alloc(true, at, at, hint, size), [Region(at, 0, size)], {at})
  {
    var w := World(Memory(map[], map[]), Start(0, hint), [], {});
    assert [Request(size, at)][..0] == [];
    assert RunEvents(w, [Request(size, at)]) == Step(RunEvents(w, []), Request(size, at));
    assert Possible(w, Request(size, at));
  }

  /**
   And it does wrap: after any first request of at least one byte some second request is carved although it reaches
   past the head block, such as 50 bytes and then 2^64 - 20 under a hint of 100.
   */
  lemma WrapIsReachable(hint: nat, size: nat, more: nat, at: Addr)
    requires 0 < size <= hint < WIDTH && at != 0 && WIDTH - size <= more < WIDTH && more - (WIDTH - size) <= hint
    ensures var w := RunEvents(World(Memory(map[], map[]), Start(0, hint), [], {}), [Request(size, at)]);
      && Carves(w.a, more) && NewAnswer(w.m, w.a, more, 0) == Got(Region(at, size, more))
      && !Inside(w.m, Region(at, size, more))
  {
    FirstRequest(hint, size, at);
    WrapsTo(size + more);
  }

  lemma WrapsTo(n: nat)
    requires WIDTH <= n < 2 * WIDTH
    ensures Wrap(n) == n - WIDTH
  {
  }

  // ---- release

  /**
   Freeing headPtr() of an allocator that was given no source releases every block it obtained and no other, whatever
   happened before, also when malloc had reused addresses.
   */
  lemma ReleasesExactly(m: Memory, hint: nat, es: seq<Event>)
    requires Forest(m) && hint < WIDTH
    ensures var w := RunEvents(World(m, Start(0, hint), [], {}), es); var p := HeadPtr(w.a);
      p != 0 ==> Apply(w.m, FreeBuffer(p)).heap == w.m.heap - w.obtained && w.obtained <= w.m.heap.Keys
  {
    StartOk(m, 0, hint);
    RunOk(World(m, Start(0, hint), [], {}), es);
    RunKeepsStart(World(m, Start(0, hint), [], {}), es);
  }

  function HeadPtr(a: Alloc): Addr { if a.sourceWasNull then a.source else a.head }

  lemma {:induction false} RunKeepsStart(w: World, es: seq<Event>)
    ensures RunEvents(w, es).a.sourceWasNull == w.a.sourceWasNull && RunEvents(w, es).a.hint == w.a.hint
  {
    if es != [] { RunKeepsStart(w, es[..|es| - 1]); }
  }

  /**
   The first object lies at the start of the block that the head names, and there is a head once there is an object.
   */
  ghost predicate HeadFirst(w: World) {
    && (w.a.head == 0 <==> w.regions == []) && (w.a.head != 0 ==> w.a.source != 0)
    && (w.regions != [] ==> w.regions[0].block == w.a.head && w.regions[0].off == 0)
    && (w.a.sourceWasNull ==> w.a.source == w.a.head)
  }

  lemma {:induction false} RunHeadFirst(w: World, es: seq<Event>)
    requires HeadFirst(w)
    ensures HeadFirst(RunEvents(w, es))
  {
    if es != [] { RunHeadFirst(w, es[..|es| - 1]); }
  }

  /** headPtr() is the first object, whoever else allocates or frees, and null as long as there is none. */
  lemma HeadPtrIsFirst(m: Memory, source: Addr, hint: nat, es: seq<Event>)
    ensures var w := RunEvents(World(m, Start(source, hint), [], {}), es);
      if w.regions == [] then HeadPtr(w.a) == 0
      else w.regions[0].block == HeadPtr(w.a) && w.regions[0].off == 0
  {
    RunHeadFirst(World(m, Start(source, hint), [], {}), es);
    RunKeepsStart(World(m, Start(source, hint), [], {}), es);
  }

  /**
   With a source, headPtr() is a child and the manager refuses to free it: release works if and only if the source was
   null.
   */
  lemma HeadPtrFreesIff(w: World)
    requires WorldOk(w) && w.a.head != 0
    ensures HeadPtr(w.a) in w.m.roots <==> w.a.sourceWasNull
  {
  }
}
