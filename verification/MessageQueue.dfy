/**
 CMessageQueue as one caller runs it, in place over the shared segment. While the caller waits inside a lock, the other
 side moves: a wait is answered by what readers took or writers added, and by the posts before and after its end.
 `contents` is the abstract queue of the step system: `InMemory` reads it from the same slots.
 */
module MessageQueue {
  import opened Basics
  import opened RingMath
  import opened QueueMachine
  import opened QueueSafety
  import RingAttach

  datatype Mode = Asynchronous | Block

  /**
   What happens to the count of a wake-up semaphore around one wait: posts of others before it ends, a token used up
   unless it ends by recovery, and posts after it.
   */
  datatype Tokens = Tokens(before: nat, used: bool, after: nat)

  /**
   How a wake-up wait of a writer or of a reader ends, with what the other side did to the queue by the next check.
   */
  datatype Wake = SemError | Woke(taken: nat, tokens: Tokens)
  datatype Arrival = NoSemaphore | Came(added: seq<Msg>, tokens: Tokens)

  datatype Outcome = Returned(code: int) | StillBlocked

  /** The queue after readers took some messages, or after writers added as many as fit. */
  function TakenFrom(q: seq<Msg>, w: Wake): seq<Msg> {
    if !w.Woke? then q else if w.taken <= |q| then q[w.taken..] else []
  }

  function AddedTo(n: nat, q: seq<Msg>, ms: seq<Msg>): (r: seq<Msg>)
    ensures q <= r
    decreases |ms|
  {
    if ms == [] || |q| + 1 >= n || !LengthOk(ms[0]) then q else AddedTo(n, q + [ms[0]], ms[1..])
  }

  /** Readers take from the front, as many as they are said to and there are. */
  lemma TakenIs(q: seq<Msg>, w: Wake)
    requires w.Woke?
    ensures |TakenFrom(q, w)| == if w.taken <= |q| then |q| - w.taken else 0
    ensures TakenFrom(q, w) == q[|q| - |TakenFrom(q, w)|..]
  {
  }

  /** Writers add behind, in order, up to the first message that is no message or finds no room. */
  lemma {:induction false} AddedIs(n: nat, q: seq<Msg>, ms: seq<Msg>) returns (k: nat)
    requires |q| < n
    ensures k <= |ms| && AddedTo(n, q, ms) == q + ms[..k] && |q| + k <= n - 1
    ensures forall i :: 0 <= i < k ==> LengthOk(ms[i])
    ensures k < |ms| ==> !LengthOk(ms[k]) || |q| + k == n - 1
    decreases |ms|
  {
    if ms == [] || |q| + 1 >= n || !LengthOk(ms[0]) {
      k := 0;
    } else {
      var j := AddedIs(n, q + [ms[0]], ms[1..]);
      k := j + 1;
      assert ms[..k] == [ms[0]] + ms[1..][..j];
    }
  }

  function AfterWakes(q: seq<Msg>, ws: seq<Wake>): seq<Msg> {
    if ws == [] then q else TakenFrom(AfterWakes(q, ws[..|ws| - 1]), ws[|ws| - 1])
  }

  function AfterArrivals(n: nat, q: seq<Msg>, xs: seq<Arrival>): seq<Msg> {
    if xs == [] then q
    else
      var p := AfterArrivals(n, q, xs[..|xs| - 1]);
      if xs[|xs| - 1].Came? then AddedTo(n, p, xs[|xs| - 1].added) else p
  }

  function Posts(c: Config, v: nat, k: nat): nat { if k == 0 then v else Post(c, Posts(c, v, k - 1)) }

  /** No saturation in the way of a count that was this high before. */
  predicate Uncapped(c: Config, v: nat) { c.cap == 0 || v <= c.cap }

  /** Every post counts, up to the cap. */
  lemma {:induction false} PostsCount(c: Config, v: nat, k: nat)
    requires Uncapped(c, v)
    ensures Posts(c, v, k) == if c.cap == 0 || v + k <= c.cap then v + k else c.cap
    decreases k
  {
    if k > 0 { PostsCount(c, v, k - 1); }
  }

  /** The count after a wait. One that finds no token can only have ended by recovery. */
  function AfterWait(c: Config, v: nat, t: Tokens): nat {
    var w := Posts(c, v, t.before);
    Posts(c, if t.used && w > 0 then w - 1 else w, t.after)
  }

  /** Without a cap nothing is lost: posts come in, and the wait uses up one token if it is to and finds one. */
  lemma WaitCounts(c: Config, v: nat, t: Tokens)
    requires c.cap == 0
    ensures AfterWait(c, v, t) == v + t.before + t.after - (if t.used && v + t.before > 0 then 1 else 0)
  {
    PostsCount(c, v, t.before);
    PostsCount(c, if t.used && v + t.before > 0 then v + t.before - 1 else v + t.before, t.after);
  }

  function TokensAfterWakes(c: Config, v: nat, ws: seq<Wake>): nat {
    if ws == [] then v
    else
      var v' := TokensAfterWakes(c, v, ws[..|ws| - 1]);
      if ws[|ws| - 1].Woke? then AfterWait(c, v', ws[|ws| - 1].tokens) else v'
  }

  function TokensAfterArrivals(c: Config, v: nat, xs: seq<Arrival>): nat {
    if xs == [] then v
    else
      var v' := TokensAfterArrivals(c, v, xs[..|xs| - 1]);
      if xs[|xs| - 1].Came? then AfterWait(c, v', xs[|xs| - 1].tokens) else v'
  }

  /**
   How the wait for a lock ends: with its token once there is one, by recovery, which uses up none, or with an error.
   */
  datatype Grant = Token | Stolen | LockError

  predicate Locks(count: nat, g: Grant) { g == Stolen || (g == Token && count > 0) }

  function Locked(count: nat, g: Grant): nat
    requires Locks(count, g)
  {
    if g == Token then count - 1 else count
  }

  /** Taking the lock by its token uses the token up; no other way of getting it does. */
  lemma LockCosts(c: Config, count: nat, g: Grant)
    requires Locks(count, g) && Uncapped(c, count)
    ensures Locked(count, g) + (if g == Token then 1 else 0) == count
    ensures g == Token ==> Post(c, Locked(count, g)) == count
  {
  }

  /** How a wait inside a lock ends: the check passes, the semaphore fails, or nothing more has happened yet. */
  datatype Waited = Ready | Broken | Pending

  /** After `i` waits the ring was still full. */
  ghost predicate FullAt(n: nat, q: seq<Msg>, wakes: seq<Wake>, i: nat)
    requires i <= |wakes|
  {
    |AfterWakes(q, wakes[..i])| == n - 1
  }

  ghost predicate EmptyAt(n: nat, q: seq<Msg>, arrivals: seq<Arrival>, i: nat)
    requires i <= |arrivals|
  {
    AfterArrivals(n, q, arrivals[..i]) == []
  }

  /** The writer went through `used` wake-ups, each while the ring was full and none before the last an error. */
  ghost predicate FullUntil(n: nat, q: seq<Msg>, wakes: seq<Wake>, used: nat) {
    used <= |wakes| &&
    (forall i :: 0 <= i < used ==> FullAt(n, q, wakes, i)) &&
    (forall i :: 0 <= i < used - 1 ==> wakes[i].Woke?)
  }

  ghost predicate EmptyUntil(n: nat, q: seq<Msg>, arrivals: seq<Arrival>, used: nat) {
    used <= |arrivals| &&
    (forall i :: 0 <= i < used ==> EmptyAt(n, q, arrivals, i)) &&
    (forall i :: 0 <= i < used - 1 ==> arrivals[i].Came?)
  }

  /** Queue and wake-up count as the first `used` waits of a writer leave them. */
  ghost predicate WokeThrough(c: Config, q: seq<Msg>, v: nat, ws: seq<Wake>, used: nat, now: seq<Msg>, tokens: nat) {
    used <= |ws| && now == AfterWakes(q, ws[..used]) && tokens == TokensAfterWakes(c, v, ws[..used])
  }

  lemma OneMoreWake(c: Config, q: seq<Msg>, v: nat, ws: seq<Wake>, used: nat, now: seq<Msg>, tokens: nat)
    requires FullUntil(c.n, q, ws, used) && used < |ws| && forall i :: 0 <= i < used ==> ws[i].Woke?
    requires WokeThrough(c, q, v, ws, used, now, tokens) && |now| == c.n - 1
    ensures FullUntil(c.n, q, ws, used + 1)
    ensures ws[used].Woke? ==>
      WokeThrough(c, q, v, ws, used + 1, TakenFrom(now, ws[used]), AfterWait(c, tokens, ws[used].tokens))
    ensures ws[used].SemError? ==> WokeThrough(c, q, v, ws, used + 1, now, tokens)
  {
    assert ws[..used + 1][..used] == ws[..used];
  }

  /** Queue and wake-up count as the first `used` waits of a reader leave them. */
  ghost predicate WentThrough(c: Config, q: seq<Msg>, v: nat, xs: seq<Arrival>, used: nat, now: seq<Msg>, tokens: nat) {
    used <= |xs| && now == AfterArrivals(c.n, q, xs[..used]) && tokens == TokensAfterArrivals(c, v, xs[..used])
  }

  lemma OneMoreArrival(c: Config, q: seq<Msg>, v: nat, xs: seq<Arrival>, used: nat, tokens: nat)
    requires EmptyUntil(c.n, q, xs, used) && used < |xs| && forall i :: 0 <= i < used ==> xs[i].Came?
    requires WentThrough(c, q, v, xs, used, [], tokens)
    ensures EmptyUntil(c.n, q, xs, used + 1)
    ensures xs[used].Came? ==>
      WentThrough(c, q, v, xs, used + 1, AddedTo(c.n, [], xs[used].added), AfterWait(c, tokens, xs[used].tokens))
    ensures xs[used].NoSemaphore? ==> WentThrough(c, q, v, xs, used + 1, [], tokens)
  {
    assert xs[..used + 1][..used] == xs[..used];
  }

  // ---- indices and contents

  lemma HeadIndex(n: nat, tail: nat, head: nat)
    requires n > 0 && tail < n && head < n
    ensures (tail + Dist(n, tail, head)) % n == head
    ensures (head + 1) % n == tail <==> Dist(n, tail, head) == n - 1
    ensures Dist(n, tail, head) < n - 1 ==> Dist(n, tail, Next(n, head)) == Dist(n, tail, head) + 1
    ensures Dist(n, tail, head) > 0 ==> Dist(n, Next(n, tail), head) == Dist(n, tail, head) - 1
  {
    if tail <= head { ModSmall(n, head, 0); } else { ModSmall(n, head, 1); }
    ModSmall(n, head, 0);
    ModSucc(n, head);
  }

  /** The `j`-th slot from `tail` on. */
  function Place(n: nat, tail: nat, j: nat): nat
    requires n > 0
  {
    (tail + j) % n
  }

  /** The slot at the head is none of the live slots. */
  lemma HeadIsFree(n: nat, tail: nat, head: nat)
    requires n > 0 && tail < n && head < n
    ensures forall j :: 0 <= j < Dist(n, tail, head) ==> Place(n, tail, j) != head
  {
    HeadIndex(n, tail, head);
    forall j | 0 <= j < Dist(n, tail, head)
      ensures Place(n, tail, j) != head
    {
      ModDistinct(n, tail + j, tail + Dist(n, tail, head));
    }
  }

  lemma PlaceNext(n: nat, tail: nat)
    requires n > 0 && tail < n
    ensures Place(n, tail, 0) == tail
    ensures forall j: nat :: Place(n, Next(n, tail), j) == Place(n, tail, j + 1)
  {
    ModSmall(n, tail, 0);
    ModSucc(n, tail);
    forall j: nat
      ensures Place(n, Next(n, tail), j) == Place(n, tail, j + 1)
    {
      ModAdd(n, tail + 1, j);
      assert tail + 1 + j == tail + (j + 1);
    }
  }

  /** CSharedMemoryHead with its slots, and the four named semaphores that go with it. */
  class Segment {
    const c: Config
    var size: nat
    var head: nat
    var tail: nat
    var semWrite: nat
    var semRead: nat
    var semWaitRead: nat
    var semWaitWrite: nat
    const data: array<Slot>
    ghost var contents: seq<Msg>

    ghost predicate Valid()
      reads this, data
    {
      && c.n > 0 && data.Length == c.n && head < c.n && tail < c.n
      && (size == 0 || size == RingAttach.Kept(c.n))
      && (forall i :: 0 <= i < c.n ==> |data[i].bytes| == MAX_MESSAGE_SIZE)
      && |contents| == Dist(c.n, tail, head)
      && (forall j :: 0 <= j < |contents| ==> LengthOk(contents[j]) && Holds(data[Place(c.n, tail, j)], contents[j]))
    }

    /** The contents are the slots from tail to head, as the step system reads them. */
    lemma InMemory()
      requires Valid()
      ensures contents == Slots(c, data[..], tail, Dist(c.n, tail, head))
    {
      var mem := Slots(c, data[..], tail, Dist(c.n, tail, head));
      forall j | 0 <= j < |contents|
        ensures mem[j] == contents[j]
      {
        var sl := data[Place(c.n, tail, j)];
        assert Holds(sl, contents[j]);
        assert mem[j] == Message(SlotAt(data[..], (tail + j) % c.n)) == Message(sl);
      }
    }

    /** What the system hands to the first that asks: zeroed memory and semaphores at 1. */
    constructor (c: Config)
      requires c.n > 0
      ensures Valid() && this.c == c && contents == [] && size == 0 && fresh(data)
      ensures semWrite == semRead == semWaitRead == semWaitWrite == 1
    {
      this.c := c;
      size, head, tail := 0, 0, 0;
      semWrite, semRead, semWaitRead, semWaitWrite := 1, 1, 1, 1;
      data := new Slot[c.n](_ => Slot(0, seq(MAX_MESSAGE_SIZE, _ => 0)));
      contents := [];
    }
  }

  class CMessageQueue {
    const base: Segment
    const queueSize: nat
    var modeBlock: Mode

    ghost predicate Valid()
      reads this, base, base.data
    {
      base.Valid() && queueSize == base.c.n
    }

    constructor (base: Segment, n: nat)
      ensures this.base == base && queueSize == n && modeBlock == Block
    {
      this.base := base;
      queueSize := n;
      modeBlock := Block;
    }

    /**
     The source's constructor: attach to the segment, or exit where its size is another. The first one's size is the
     one the system made the segment with.
     */
    static method Open(base: Segment, n: nat) returns (q: CMessageQueue?)
      requires base.Valid() && (base.size == 0 ==> n == base.c.n)
      modifies base`size
      ensures base.Valid() && base.size == RingAttach.Kept(base.c.n)
      ensures q != null <==> old(base.size) == 0 || RingAttach.Size(n) == RingAttach.Kept(base.c.n)
      ensures q != null ==> fresh(q) && q.base == base && q.queueSize == n && q.modeBlock == Block
      ensures base.c.n < RingAttach.MAX_AGREED ==> (q != null <==> n == base.c.n) && (q != null ==> q.Valid())
    {
      RingAttach.KeptWhole(base.c.n);
      if base.size == 0 {
        base.size := RingAttach.Size(n) % RingAttach.UINT;
      } else if base.size != RingAttach.Size(n) {
        return null;
      }
      q := new CMessageQueue(base, n);
    }

    method SetMode(mode: Mode) returns (m: Mode)
      requires Valid()
      modifies this`modeBlock
      ensures Valid() && modeBlock == m == mode
    {
      modeBlock := if mode == Asynchronous then Asynchronous else Block;
      m := modeBlock;
    }

    /** One free slot is kept: a ring of n slots holds at most n - 1 messages. */
    method IsWrite() returns (b: bool)
      requires Valid()
      ensures b <==> |base.contents| < queueSize - 1
    {
      HeadIndex(queueSize, base.tail, base.head);
      b := (base.head + 1) % queueSize != base.tail;
    }

    method IsRead() returns (b: bool)
      requires Valid()
      ensures b <==> base.contents != []
    {
      b := base.tail != base.head;
    }

    /** Length, bytes and head store of Write. */
    method Store(buf: Msg)
      requires Valid() && LengthOk(buf) && |base.contents| < queueSize - 1
      modifies base`head, base`contents, base.data
      ensures Valid() && base.contents == old(base.contents) + [buf]
    {
      HeadIndex(queueSize, base.tail, base.head);
      HeadIsFree(queueSize, base.tail, base.head);
      FillSlot(buf);
      base.contents := base.contents + [buf];
      base.head := if base.head < queueSize - 1 then base.head + 1 else 0;
    }

    /** Length and bytes alone: the slot at the head, and no other. */
    method FillSlot(buf: Msg)
      requires Valid() && LengthOk(buf)
      modifies base.data
      ensures Holds(base.data[base.head], buf) && |base.data[base.head].bytes| == MAX_MESSAGE_SIZE
      ensures forall j :: 0 <= j < queueSize && j != base.head ==> base.data[j] == old(base.data[j])
    {
      var data, head := base.data, base.head;
      data[head] := data[head].(len := |buf|);
      var i := 0;
      while i < |buf|
        invariant 0 <= i <= |buf|
        invariant data[head].len == |buf| && |data[head].bytes| == MAX_MESSAGE_SIZE && data[head].bytes[..i] == buf[..i]
        invariant forall j :: 0 <= j < queueSize && j != head ==> data[j] == old(data[j])
      {
        ghost var done := data[head].bytes[..i];
        data[head] := data[head].(bytes := data[head].bytes[i := buf[i]]);
        assert data[head].bytes[..i + 1] == done + [buf[i]] == buf[..i + 1];
        i := i + 1;
      }
    }

    /** Bytes and tail store of Read. */
    method Fetch() returns (buf: Msg)
      requires Valid() && base.contents != []
      modifies base`tail, base`contents
      ensures Valid() && [buf] + base.contents == old(base.contents)
    {
      HeadIndex(queueSize, base.tail, base.head);
      PlaceNext(queueSize, base.tail);
      assert Holds(base.data[Place(queueSize, base.tail, 0)], base.contents[0]);
      var slot := base.data[base.tail];
      buf := [];
      while |buf| < slot.len
        invariant |buf| <= slot.len && buf == slot.bytes[..|buf|]
      {
        buf := buf + [slot.bytes[|buf|]];
      }
      base.contents := base.contents[1..];
      base.tail := if base.tail < queueSize - 1 then base.tail + 1 else 0;
    }

    /** What readers take while a writer waits. */
    method ReadersTake(wake: Wake)
      requires Valid() && wake.Woke?
      modifies base`tail, base`contents
      ensures Valid() && base.contents == TakenFrom(old(base.contents), wake)
    {
      var i := 0;
      var more := IsRead();
      while i < wake.taken && more
        invariant Valid() && i <= wake.taken && (more <==> base.contents != [])
        invariant i <= old(|base.contents|) && base.contents == old(base.contents)[i..]
        decreases wake.taken - i
      {
        var _ := Fetch();
        i := i + 1;
        more := IsRead();
      }
    }

    /** What writers add while a reader waits. */
    method WritersAdd(ms: seq<Msg>)
      requires Valid()
      modifies base`head, base`contents, base.data
      ensures Valid() && base.contents == AddedTo(queueSize, old(base.contents), ms)
    {
      var i := 0;
      var more := IsWrite();
      while i < |ms| && more && LengthOk(ms[i])
        invariant Valid() && i <= |ms| && (more <==> |base.contents| < queueSize - 1)
        invariant AddedTo(queueSize, base.contents, ms[i..]) == AddedTo(queueSize, old(base.contents), ms)
        decreases |ms| - i
      {
        Store(ms[i]);
        assert ms[i..][1..] == ms[i + 1..];
        i := i + 1;
        more := IsWrite();
      }
    }

    /** A wait that ends without an error, and the check that follows it. */
    method WaitForReaders(wake: Wake) returns (free: bool)
      requires Valid() && wake.Woke?
      modifies base`tail, base`contents, base`semWaitRead
      ensures Valid() && base.contents == TakenFrom(old(base.contents), wake)
      ensures free <==> |base.contents| < queueSize - 1
      ensures base.semWaitRead == AfterWait(base.c, old(base.semWaitRead), wake.tokens)
    {
      ReadersTake(wake);
      base.semWaitRead := AfterWait(base.c, base.semWaitRead, wake.tokens);
      free := IsWrite();
    }

    method WaitForWriters(a: Arrival) returns (some: bool)
      requires Valid() && a.Came?
      modifies base`head, base`contents, base`semWaitWrite, base.data
      ensures Valid() && base.contents == AddedTo(queueSize, old(base.contents), a.added)
      ensures some <==> base.contents != []
      ensures base.semWaitWrite == AfterWait(base.c, old(base.semWaitWrite), a.tokens)
    {
      WritersAdd(a.added);
      base.semWaitWrite := AfterWait(base.c, base.semWaitWrite, a.tokens);
      some := IsRead();
    }

    /** The loop on IsWrite inside the write lock. */
    method AwaitRoom(wakes: seq<Wake>) returns (w: Waited, used: nat)
      requires Valid()
      modifies base`tail, base`contents, base`semWaitRead
      ensures Valid() && FullUntil(queueSize, old(base.contents), wakes, used)
      ensures WokeThrough(base.c, old(base.contents), old(base.semWaitRead), wakes, used,
                          base.contents, base.semWaitRead)
      ensures w.Broken? <==> used > 0 && wakes[used - 1].SemError?
      ensures w.Ready? ==> |base.contents| < queueSize - 1
      ensures w.Pending? ==> used == |wakes| && |base.contents| == queueSize - 1
    {
      used := 0;
      ghost var q, v := base.contents, base.semWaitRead;
      var free := IsWrite();
      while !free && used < |wakes|
        invariant Valid() && FullUntil(base.c.n, q, wakes, used)
        invariant forall i :: 0 <= i < used ==> wakes[i].Woke?
        invariant free <==> |base.contents| < queueSize - 1
        invariant WokeThrough(base.c, q, v, wakes, used, base.contents, base.semWaitRead)
        decreases |wakes| - used
      {
        var wake := wakes[used];
        OneMoreWake(base.c, q, v, wakes, used, base.contents, base.semWaitRead);
        used := used + 1;
        if wake.SemError? {
          return Broken, used;
        }
        free := WaitForReaders(wake);
      }
      w := if free then Ready else Pending;
    }

    /**
     `used` is how many of the offered wake-ups the call went through. A broken wait keeps the lock, as a pending one
     does.
     */
    method Write(buf: Msg, lock: Grant, wakes: seq<Wake>) returns (r: Outcome, used: nat)
      requires Valid()
      modifies base`head, base`tail, base`semWrite, base`semWaitRead, base`semWaitWrite, base`contents, base.data
      ensures Valid() && FullUntil(queueSize, old(base.contents), wakes, used)
      ensures r == Returned(0) <==> modeBlock == Asynchronous && |old(base.contents)| == queueSize - 1
      ensures r == Returned(-1) <==>
        r != Returned(0) && (!LengthOk(buf) || lock.LockError? || (used > 0 && wakes[used - 1].SemError?))
      ensures r == StillBlocked <==>
        r !in {Returned(0), Returned(-1)} &&
        ((lock == Token && old(base.semWrite) == 0) || |AfterWakes(old(base.contents), wakes[..used])| == queueSize - 1)
      ensures r == StillBlocked && used < |wakes| ==> lock == Token && old(base.semWrite) == 0
      ensures r.Returned? ==> r.code in {-1, 0, |buf|}
      ensures used > 0 || (r.Returned? && r.code > 0) ==> lock == Stolen || (lock == Token && old(base.semWrite) > 0)
      ensures lock == Token && Uncapped(base.c, old(base.semWrite)) && old(base.semWrite) > 0 ==>
        base.semWrite == old(base.semWrite) -
          (if LengthOk(buf) && (r == Returned(-1) || r == StillBlocked) then 1 else 0)
      ensures var put := r.Returned? && r.code > 0;
        && base.contents == AfterWakes(old(base.contents), wakes[..used]) + (if put then [buf] else [])
        && base.semWaitWrite == (if put then Post(base.c, old(base.semWaitWrite)) else old(base.semWaitWrite))
        && base.semWrite ==
             (if r == Returned(0) || !LengthOk(buf) || !Locks(old(base.semWrite), lock) then old(base.semWrite)
              else if put then Post(base.c, Locked(old(base.semWrite), lock)) else Locked(old(base.semWrite), lock))
      ensures base.semWaitRead == TokensAfterWakes(base.c, old(base.semWaitRead), wakes[..used])
    {
      HeadIndex(queueSize, base.tail, base.head);
      var free := IsWrite();
      if modeBlock == Asynchronous && !free {
        return Returned(0), 0;
      }
      if |buf| > MAX_MESSAGE_SIZE || |buf| == 0 {
        return Returned(-1), 0;
      }
      if lock.LockError? {
        return Returned(-1), 0;
      }
      if lock == Token && base.semWrite == 0 {
        return StillBlocked, 0;
      }
      base.semWrite := Locked(base.semWrite, lock);
      var w;
      w, used := AwaitRoom(wakes);
      if w.Broken? {
        return Returned(-1), used;
      }
      if w.Pending? {
        return StillBlocked, used;
      }
      Store(buf);
      base.semWaitWrite := Post(base.c, base.semWaitWrite);
      base.semWrite := Post(base.c, base.semWrite);
      r := Returned(|buf|);
    }

    /** The loop on IsRead inside the read lock. */
    method AwaitMessage(arrivals: seq<Arrival>) returns (w: Waited, used: nat)
      requires Valid()
      modifies base`head, base`contents, base`semWaitWrite, base.data
      ensures Valid() && EmptyUntil(queueSize, old(base.contents), arrivals, used)
      ensures WentThrough(base.c, old(base.contents), old(base.semWaitWrite), arrivals, used,
                          base.contents, base.semWaitWrite)
      ensures w.Broken? <==> used > 0 && arrivals[used - 1].NoSemaphore?
      ensures w.Ready? ==> base.contents != []
      ensures w.Pending? ==> used == |arrivals| && base.contents == []
    {
      used := 0;
      ghost var q, v := base.contents, base.semWaitWrite;
      var some := IsRead();
      while !some && used < |arrivals|
        invariant Valid() && EmptyUntil(base.c.n, q, arrivals, used)
        invariant forall i :: 0 <= i < used ==> arrivals[i].Came?
        invariant some <==> base.contents != []
        invariant WentThrough(base.c, q, v, arrivals, used, base.contents, base.semWaitWrite)
        decreases |arrivals| - used
      {
        var a := arrivals[used];
        OneMoreArrival(base.c, q, v, arrivals, used, base.semWaitWrite);
        used := used + 1;
        if a.NoSemaphore? {
          return Broken, used;
        }
        some := WaitForWriters(a);
      }
      w := if some then Ready else Pending;
    }

    /** From the length check to the end of Read, with a message there and the lock held. */
    method Deliver(len: nat) returns (code: int, buf: Msg)
      requires Valid() && base.contents != []
      modifies base`tail, base`semRead, base`semWaitRead, base`contents
      ensures Valid() && base.semRead == Post(base.c, old(base.semRead))
      ensures code == -1 <==> len < |old(base.contents)[0]|
      ensures code == -1 ==>
        base.contents == old(base.contents) && base.semWaitRead == old(base.semWaitRead) && buf == []
      ensures code != -1 ==> [buf] + base.contents == old(base.contents) && 0 < code == |buf| <= len
      ensures code != -1 ==> base.semWaitRead == Post(base.c, old(base.semWaitRead))
    {
      PlaceNext(queueSize, base.tail);
      assert Holds(base.data[Place(queueSize, base.tail, 0)], base.contents[0]);
      if len < base.data[base.tail].len {
        base.semRead := Post(base.c, base.semRead);
        return -1, [];
      }
      buf := Fetch();
      base.semWaitRead := Post(base.c, base.semWaitRead);
      base.semRead := Post(base.c, base.semRead);
      code := |buf|;
    }

    /** Read from the moment it has the lock. */
    method ReadLocked(len: nat, arrivals: seq<Arrival>) returns (r: Outcome, buf: Msg, used: nat)
      requires Valid()
      modifies base`head, base`tail, base`semRead, base`semWaitRead, base`semWaitWrite, base`contents, base.data
      ensures Valid() && EmptyUntil(queueSize, old(base.contents), arrivals, used)
      ensures var q := AfterArrivals(base.c.n, old(base.contents), arrivals[..used]);
        && (r == Returned(-1) <==> (used > 0 && arrivals[used - 1].NoSemaphore?) || (q != [] && len < |q[0]|))
        && q == (if r.Returned? && r.code > 0 then [buf] else []) + base.contents
      ensures r.Returned? ==> r.code == -1 || 0 < r.code == |buf| <= len
      ensures r == StillBlocked <==>
        r != Returned(-1) && AfterArrivals(base.c.n, old(base.contents), arrivals[..used]) == []
      ensures r == StillBlocked ==> used == |arrivals|
      ensures base.semWaitRead ==
        if r.Returned? && r.code > 0 then Post(base.c, old(base.semWaitRead)) else old(base.semWaitRead)
      ensures base.semRead ==
        if r == StillBlocked || (used > 0 && arrivals[used - 1].NoSemaphore?) then old(base.semRead)
        else Post(base.c, old(base.semRead))
      ensures base.semWaitWrite == TokensAfterArrivals(base.c, old(base.semWaitWrite), arrivals[..used])
    {
      var w;
      w, used := AwaitMessage(arrivals);
      if w.Broken? {
        return Returned(-1), [], used;
      }
      if w.Pending? {
        return StillBlocked, [], used;
      }
      var code;
      code, buf := Deliver(len);
      r := Returned(code);
    }

    /**
     `used` is how many of the offered wake-ups the call went through. A buffer that is too small gives the lock back.
     */
    method Read(len: nat, lock: Grant, arrivals: seq<Arrival>) returns (r: Outcome, buf: Msg, used: nat)
      requires Valid()
      modifies base`head, base`tail, base`semRead, base`semWaitRead, base`semWaitWrite, base`contents, base.data
      ensures Valid() && EmptyUntil(queueSize, old(base.contents), arrivals, used)
      ensures r == Returned(0) <==> modeBlock == Asynchronous && old(base.contents) == []
      ensures var q := AfterArrivals(base.c.n, old(base.contents), arrivals[..used]);
        && (r == Returned(-1) <==>
             r != Returned(0) && (lock.LockError? || (Locks(old(base.semRead), lock) &&
               ((used > 0 && arrivals[used - 1].NoSemaphore?) || (q != [] && len < |q[0]|)))))
        && q == (if r.Returned? && r.code > 0 then [buf] else []) + base.contents
      ensures r == StillBlocked <==>
        r !in {Returned(0), Returned(-1)} &&
        ((lock == Token && old(base.semRead) == 0) ||
         AfterArrivals(base.c.n, old(base.contents), arrivals[..used]) == [])
      ensures r == StillBlocked && used < |arrivals| ==> lock == Token && old(base.semRead) == 0
      ensures used > 0 || (r.Returned? && r.code > 0) ==> lock == Stolen || (lock == Token && old(base.semRead) > 0)
      ensures r.Returned? && r.code > 0 ==> r.code == |buf| <= len
      ensures lock == Token && Uncapped(base.c, old(base.semRead)) && old(base.semRead) > 0 ==>
        base.semRead == old(base.semRead) -
          (if r == StillBlocked || (used > 0 && arrivals[used - 1].NoSemaphore?) then 1 else 0)
      ensures r.Returned? ==> r.code >= -1
      ensures base.semWaitRead ==
        if r.Returned? && r.code > 0 then Post(base.c, old(base.semWaitRead)) else old(base.semWaitRead)
      ensures base.semRead ==
        if r == Returned(0) || !Locks(old(base.semRead), lock) then old(base.semRead)
        else if r == StillBlocked || (used > 0 && arrivals[used - 1].NoSemaphore?) then Locked(old(base.semRead), lock)
        else Post(base.c, Locked(old(base.semRead), lock))
      ensures base.semWaitWrite == TokensAfterArrivals(base.c, old(base.semWaitWrite), arrivals[..used])
    {
      var some := IsRead();
      if modeBlock == Asynchronous && !some {
        return Returned(0), [], 0;
      }
      if lock.LockError? {
        return Returned(-1), [], 0;
      }
      if lock == Token && base.semRead == 0 {
        return StillBlocked, [], 0;
      }
      base.semRead := Locked(base.semRead, lock);
      r, buf, used := ReadLocked(len, arrivals);
    }

    /**
     Clear waits for the read lock like any reader, but goes on without it when the wait fails, and posts it all the
     same.
     */
    method Clear(lock: Grant) returns (done: bool)
      requires Valid()
      modifies base`tail, base`semRead, base`semWaitRead, base`contents
      ensures Valid() && (done <==> lock != Token || old(base.semRead) > 0)
      ensures base.contents == if done then [] else old(base.contents)
      ensures base.semWaitRead == if done then Post(base.c, old(base.semWaitRead)) else old(base.semWaitRead)
      ensures lock == Token && done && Uncapped(base.c, old(base.semRead)) ==> base.semRead == old(base.semRead)
      ensures lock != Token && base.c.cap == 0 ==> base.semRead == old(base.semRead) + 1
      ensures base.semRead ==
        if !done then 0
        else Post(base.c, if lock.LockError? then old(base.semRead) else Locked(old(base.semRead), lock))
    {
      if lock == Token && base.semRead == 0 {
        return false;
      }
      if !lock.LockError? { base.semRead := Locked(base.semRead, lock); }
      base.tail := base.head;
      base.contents := [];
      base.semWaitRead := Post(base.c, base.semWaitRead);
      base.semRead := Post(base.c, base.semRead);
      done := true;
    }
  }
}
