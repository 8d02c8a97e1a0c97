/** The inductive invariant of the queue, kept by every sound step of every thread, crashes and recoveries included. */
module QueueSafety {
  import opened Basics
  import opened RingMath
  import opened QueueMachine

  ghost predicate Holds(sl: Slot, m: Msg) { sl.len == |m| && |m| <= |sl.bytes| && sl.bytes[..|m|] == m }

  /** The shared memory against the history: `consumed` is a prefix of `written`, and the rest lies in the slots. */
  ghost predicate Ring(c: Config, s: State)
    requires c.n > 0
  {
    && |s.data| == c.n
    && (forall i :: 0 <= i < |s.data| ==> |s.data[i].bytes| == MAX_MESSAGE_SIZE)
    && |s.consumed| <= |s.written| <= |s.consumed| + c.n - 1
    && |s.author| == |s.written| && |s.taker| == |s.consumed|
    && s.head == |s.written| % c.n
    && s.tail == |s.consumed| % c.n
    && s.consumed == s.written[..|s.consumed|]
    && (forall k :: |s.consumed| <= k < |s.written| ==> LengthOk(s.written[k]) && Holds(s.data[k % c.n], s.written[k]))
  }

  ghost function WHolders(pc: map<Tid, Pc>): set<Tid> { set t | t in pc && HoldsW(pc[t]) }

  ghost function RHolders(pc: map<Tid, Pc>): set<Tid> { set t | t in pc && HoldsR(pc[t]) }

  /** Each lock's value, its holders and its lost tokens add up to one. */
  ghost predicate Tokens(s: State) {
    && s.semWrite + s.lostWrite + |WHolders(s.pc)| == 1
    && s.semRead + s.lostRead + |RHolders(s.pc)| == 1
  }

  /** At least one free slot besides the one that is never filled. */
  ghost predicate Room(c: Config, s: State) { |s.written| - |s.consumed| <= c.n - 2 }

  ghost predicate NonEmpty(s: State) { |s.consumed| < |s.written| }

  ghost predicate HeadSample(c: Config, s: State, h: Sample)
    requires c.n > 0
  {
    h.Read? ==> h.val == h.at % c.n && h.at <= |s.written|
  }

  ghost predicate TailSample(c: Config, s: State, t: Sample)
    requires c.n > 0
  {
    t.Read? ==> t.val == t.at % c.n && t.at <= |s.consumed|
  }

  /**
   Inside the write lock the head is exact and the tail may be stale; inside the read lock it is the other way round.
   */
  ghost predicate WriterSamples(c: Config, s: State, h: Sample, t: Sample)
    requires c.n > 0
  {
    HeadSample(c, s, h) && TailSample(c, s, t) &&
    (h.Read? ==> h.at == |s.written|) && (t.Read? ==> |s.written| - t.at <= c.n - 1)
  }

  ghost predicate ReaderSamples(c: Config, s: State, h: Sample, t: Sample)
    requires c.n > 0
  {
    HeadSample(c, s, h) && TailSample(c, s, t) &&
    (t.Read? ==> t.at == |s.consumed|) && (h.Read? ==> |s.consumed| <= h.at < |s.consumed| + c.n)
  }

  /** What a thread at `p` may rely on. */
  ghost predicate Local(c: Config, s: State, p: Pc)
    requires c.n > 0
  {
    match p
    case WLock(m, _) => LengthOk(m)
    case WCheck(m, _, h, t) => LengthOk(m) && WriterSamples(c, s, h, t)
    case WWait(m, _) => LengthOk(m)
    case WLen(m) => LengthOk(m) && Room(c, s)
    case WCopy(m, i) =>
      LengthOk(m) && Room(c, s) && i < |m| &&
      SlotAt(s.data, s.head).len == |m| && |m| <= |SlotAt(s.data, s.head).bytes| &&
      SlotAt(s.data, s.head).bytes[..i] == m[..i]
    case WAdvance(m) => LengthOk(m) && Room(c, s) && Holds(SlotAt(s.data, s.head), m)
    case RCheck(_, _, h, t) => ReaderSamples(c, s, h, t)
    case RCompare(_) => NonEmpty(s)
    case RLen => NonEmpty(s)
    case RCopy(len, buf) =>
      NonEmpty(s) && len == |s.written[|s.consumed|]| && |buf| <= len && buf == s.written[|s.consumed|][..|buf|]
    case RAdvance(buf) => NonEmpty(s) && buf == s.written[|s.consumed|]
    case CStore(h) => h.Read? && ReaderSamples(c, s, h, Unread)
    case _ => true
  }

  ghost predicate Locals(c: Config, s: State)
    requires c.n > 0
  {
    forall u :: u in s.pc ==> Local(c, s, s.pc[u])
  }

  ghost predicate Inv(c: Config, s: State)
    requires c.n > 0
  {
    Ring(c, s) && Tokens(s) && Locals(c, s)
  }

  // ---- lock tokens

  lemma SetUpdate(a: set<Tid>, b: set<Tid>, t: Tid, now: bool)
    requires forall u :: u != t ==> (u in b <==> u in a)
    requires t in b <==> now
    ensures |b| == |a| - Count(t in a) + Count(now)
  {
    assert b - {t} == a - {t};
    if t in a { assert a == (a - {t}) + {t}; } else { assert a == a - {t}; }
    if t in b { assert b == (b - {t}) + {t}; } else { assert b == b - {t}; }
  }

  lemma WHoldersUpdate(pc: map<Tid, Pc>, t: Tid, p: Pc)
    ensures |WHolders(pc[t := p])| == |WHolders(pc)| - Count(t in pc && HoldsW(pc[t])) + Count(HoldsW(p))
  {
    SetUpdate(WHolders(pc), WHolders(pc[t := p]), t, HoldsW(p));
  }

  lemma RHoldersUpdate(pc: map<Tid, Pc>, t: Tid, p: Pc)
    ensures |RHolders(pc[t := p])| == |RHolders(pc)| - Count(t in pc && HoldsR(pc[t])) + Count(HoldsR(p))
  {
    SetUpdate(RHolders(pc), RHolders(pc[t := p]), t, HoldsR(p));
  }

  lemma SubsetCard<T>(a: set<T>, b: set<T>)
    requires a <= b
    ensures |a| <= |b|
  {
    assert b == a + (b - a);
  }

  lemma AtMostOne<T>(a: set<T>, x: T, y: T)
    requires |a| <= 1 && x in a && y in a
    ensures x == y
  {
    if x != y {
      assert {x, y} <= a;
      SubsetCard({x, y}, a);
    }
  }

  /** No two threads hold the same lock. */
  lemma Exclusive(s: State, t: Tid, u: Tid)
    requires Tokens(s) && t in s.pc && u in s.pc
    ensures HoldsW(s.pc[t]) && HoldsW(s.pc[u]) ==> t == u
    ensures HoldsR(s.pc[t]) && HoldsR(s.pc[u]) ==> t == u
  {
    if HoldsW(s.pc[t]) && HoldsW(s.pc[u]) { AtMostOne(WHolders(s.pc), t, u); }
    if HoldsR(s.pc[t]) && HoldsR(s.pc[u]) { AtMostOne(RHolders(s.pc), t, u); }
  }

  lemma HolderCounts(s: State, t: Tid)
    requires t in s.pc
    ensures HoldsW(s.pc[t]) ==> |WHolders(s.pc)| >= 1
    ensures HoldsR(s.pc[t]) ==> |RHolders(s.pc)| >= 1
  {
    if HoldsW(s.pc[t]) { assert t in WHolders(s.pc); }
    if HoldsR(s.pc[t]) { assert t in RHolders(s.pc); }
  }

  ghost function WSum(s: State, t: Tid): int { s.semWrite + s.lostWrite + Count(HoldsW(At(s, t))) }

  ghost function RSum(s: State, t: Tid): int { s.semRead + s.lostRead + Count(HoldsR(At(s, t))) }

  ghost predicate Flow(s: State, s': State, t: Tid) { WSum(s', t) == WSum(s, t) && RSum(s', t) == RSum(s, t) }

  lemma FlowWrite(c: Config, s: State, t: Tid)
    requires c.n > 0 && InWrite(At(s, t)) && s.semWrite == 0
    ensures Flow(s, WriteGo(c, s, t), t)
  {
  }

  lemma FlowRead(c: Config, s: State, t: Tid)
    requires c.n > 0 && InRead(At(s, t)) && s.semRead == 0
    ensures Flow(s, ReadGo(c, s, t), t)
  {
  }

  lemma FlowClear(c: Config, s: State, t: Tid)
    requires c.n > 0 && InClear(At(s, t)) && s.semRead == 0
    ensures Flow(s, ClearGo(c, s, t), t)
  {
  }

  lemma FlowTake(c: Config, s: State, st: Step)
    requires c.n > 0 && Enabled(c, s, st) && (st.Acquire? || st.Wake? || st.Spurious? || st.Recover?)
    ensures Flow(s, Do(c, s, st), st.who)
  {
  }

  lemma FlowLeave(c: Config, s: State, st: Step)
    requires c.n > 0 && Enabled(c, s, st) && Sound(s, st) && (st.Fail? || st.Crash?)
    ensures Flow(s, Do(c, s, st), st.who)
  {
  }

  lemma FlowLocal(c: Config, s: State, st: Step)
    requires c.n > 0 && Enabled(c, s, st)
    requires st.BeginWrite? || st.BeginRead? || st.BeginClear? || st.LoadHead? || st.LoadTail? || st.Decide?
    ensures Flow(s, Do(c, s, st), st.who)
  {
  }

  /** A step moves tokens between a lock's value, its lost tokens and the acting thread. */
  lemma TokenFlow(c: Config, s: State, st: Step)
    requires c.n > 0 && Enabled(c, s, st) && Sound(s, st)
    requires HoldsW(At(s, st.who)) ==> s.semWrite == 0
    requires HoldsR(At(s, st.who)) ==> s.semRead == 0
    ensures Flow(s, Do(c, s, st), st.who)
  {
    if st.Go? {
      if InWrite(At(s, st.who)) { FlowWrite(c, s, st.who); }
      else if InRead(At(s, st.who)) { FlowRead(c, s, st.who); }
      else { FlowClear(c, s, st.who); }
    } else if st.Acquire? || st.Wake? || st.Spurious? || st.Recover? {
      FlowTake(c, s, st);
    } else if st.Fail? || st.Crash? {
      FlowLeave(c, s, st);
    } else {
      FlowLocal(c, s, st);
    }
  }

  lemma TokensStep(c: Config, s: State, st: Step)
    requires c.n > 0 && Tokens(s) && Enabled(c, s, st) && Sound(s, st)
    ensures Tokens(Do(c, s, st))
  {
    var t := st.who;
    if t in s.pc { HolderCounts(s, t); }
    TokenFlow(c, s, st);
    Footprint(c, s, st);
    var p := At(Do(c, s, st), t);
    WHoldersUpdate(s.pc, t, p);
    RHoldersUpdate(s.pc, t, p);
  }

  // ---- what the other threads see of a step

  ghost predicate Unmoved(s: State, s': State, t: Tid) {
    && (!HoldsW(At(s, t)) ==>
          s'.data == s.data && s'.head == s.head && s'.written == s.written && s'.author == s.author)
    && (!HoldsR(At(s, t)) ==> s'.tail == s.tail && s'.consumed == s.consumed && s'.taker == s.taker)
    && s.written <= s'.written && s.consumed <= s'.consumed
    && t in s'.pc && s'.pc == s.pc[t := s'.pc[t]]
  }

  lemma UnmovedWrite(c: Config, s: State, t: Tid)
    requires c.n > 0 && InWrite(At(s, t))
    ensures Unmoved(s, WriteGo(c, s, t), t)
  {
  }

  lemma UnmovedRead(c: Config, s: State, t: Tid)
    requires c.n > 0 && InRead(At(s, t))
    ensures Unmoved(s, ReadGo(c, s, t), t)
  {
  }

  lemma UnmovedClear(c: Config, s: State, t: Tid)
    requires c.n > 0 && InClear(At(s, t))
    ensures Unmoved(s, ClearGo(c, s, t), t)
  {
  }

  lemma SameMemory(c: Config, s: State, st: Step)
    requires c.n > 0 && Enabled(c, s, st) && !st.Go?
    ensures var s' := Do(c, s, st);
      s'.head == s.head && s'.tail == s.tail && s'.data == s.data &&
      s'.written == s.written && s'.author == s.author && s'.consumed == s.consumed && s'.taker == s.taker
    ensures st.who in Do(c, s, st).pc && Do(c, s, st).pc == s.pc[st.who := Do(c, s, st).pc[st.who]]
  {
  }

  /** A step of a thread outside the write lock leaves the writer's side alone, and the same for the read lock. */
  lemma Footprint(c: Config, s: State, st: Step)
    requires c.n > 0 && Enabled(c, s, st)
    ensures Unmoved(s, Do(c, s, st), st.who)
  {
    if !st.Go? { SameMemory(c, s, st); }
    else if InWrite(At(s, st.who)) { UnmovedWrite(c, s, st.who); }
    else if InRead(At(s, st.who)) { UnmovedRead(c, s, st.who); }
    else { UnmovedClear(c, s, st.who); }
  }

  /** The slot being filled is none of the slots from tail to head. */
  lemma HeadSlotFree(c: Config, s: State, k: nat)
    requires c.n > 0 && Ring(c, s) && Room(c, s) && |s.consumed| <= k < |s.written|
    ensures s.head < c.n && k % c.n != s.head
  {
    ModDistinct(c.n, k, |s.written|);
  }

  // ---- the ring

  lemma AdvanceHead(c: Config, s: State, t: Tid, m: Msg)
    requires c.n > 0 && Ring(c, s) && At(s, t) == WAdvance(m) && Local(c, s, At(s, t))
    ensures Ring(c, GoState(c, s, t))
  {
    ModSucc(c.n, |s.written|);
  }

  lemma AdvanceTail(c: Config, s: State, t: Tid, buf: Msg)
    requires c.n > 0 && Ring(c, s) && At(s, t) == RAdvance(buf) && Local(c, s, At(s, t))
    ensures Ring(c, GoState(c, s, t))
  {
    ModSucc(c.n, |s.consumed|);
  }

  lemma SlotIsWritten(c: Config, s: State, j: nat)
    requires c.n > 0 && Ring(c, s) && |s.consumed| + j < |s.written|
    ensures Message(SlotAt(s.data, (s.tail + j) % c.n)) == s.written[|s.consumed| + j]
  {
    ModAdd(c.n, |s.consumed|, j);
    assert Holds(s.data[(|s.consumed| + j) % c.n], s.written[|s.consumed| + j]);
  }

  /** Memory and history agree on any stretch of the live slots. */
  lemma SlotsAreWritten(c: Config, s: State, b: nat)
    requires c.n > 0 && Ring(c, s) && |s.consumed| <= b <= |s.written|
    ensures b % c.n < c.n && Dist(c.n, s.tail, b % c.n) == b - |s.consumed|
    ensures Slots(c, s.data, s.tail, b - |s.consumed|) == s.written[|s.consumed|..b]
  {
    DistOf(c.n, |s.consumed|, b);
    var part := Slots(c, s.data, s.tail, b - |s.consumed|);
    forall j | 0 <= j < |part|
      ensures part[j] == s.written[|s.consumed|..b][j]
    {
      SlotIsWritten(c, s, j);
    }
  }

  lemma ClearTail(c: Config, s: State, t: Tid, h: Sample)
    requires c.n > 0 && Ring(c, s) && At(s, t) == CStore(h) && Local(c, s, At(s, t))
    ensures Ring(c, GoState(c, s, t)) && |GoState(c, s, t).consumed| == h.at
  {
    SlotsAreWritten(c, s, h.at);
    var s' := GoState(c, s, t);
    assert s'.consumed == s.written[..|s.consumed|] + s.written[|s.consumed|..h.at] == s.written[..h.at];
  }

  lemma FillSlot(c: Config, s: State, t: Tid)
    requires c.n > 0 && Ring(c, s) && (At(s, t).WLen? || At(s, t).WCopy?) && Local(c, s, At(s, t))
    ensures Ring(c, GoState(c, s, t))
    ensures forall k :: 0 <= k < c.n && k != s.head ==> GoState(c, s, t).data[k] == s.data[k]
  {
    var s' := GoState(c, s, t);
    forall k | |s.consumed| <= k < |s.written|
      ensures Holds(s'.data[k % c.n], s'.written[k])
    {
      HeadSlotFree(c, s, k);
    }
  }

  lemma RingWrite(c: Config, s: State, t: Tid)
    requires c.n > 0 && Ring(c, s) && InWrite(At(s, t)) && Local(c, s, At(s, t))
    ensures Ring(c, GoState(c, s, t))
  {
    match At(s, t) {
      case WLen(_) => FillSlot(c, s, t);
      case WCopy(_, _) => FillSlot(c, s, t);
      case WAdvance(m) => AdvanceHead(c, s, t, m);
      case _ =>
    }
  }

  lemma RingRead(c: Config, s: State, t: Tid)
    requires c.n > 0 && Ring(c, s) && InRead(At(s, t)) && Local(c, s, At(s, t))
    ensures Ring(c, GoState(c, s, t))
  {
    if At(s, t).RAdvance? { AdvanceTail(c, s, t, At(s, t).buf); }
  }

  lemma RingClear(c: Config, s: State, t: Tid)
    requires c.n > 0 && Ring(c, s) && InClear(At(s, t)) && Local(c, s, At(s, t))
    ensures Ring(c, GoState(c, s, t))
  {
    if At(s, t).CStore? { ClearTail(c, s, t, At(s, t).h); }
  }

  lemma RingStep(c: Config, s: State, st: Step)
    requires c.n > 0 && Ring(c, s) && Enabled(c, s, st) && Local(c, s, At(s, st.who))
    ensures Ring(c, Do(c, s, st))
  {
    if st.Go? {
      if InWrite(At(s, st.who)) { RingWrite(c, s, st.who); }
      else if InRead(At(s, st.who)) { RingRead(c, s, st.who); }
      else { RingClear(c, s, st.who); }
    } else {
      SameMemory(c, s, st);
    }
  }

  // ---- the acting thread

  /** The two checks decide correctly although one of their indices may be stale. */
  lemma DecideSafe(c: Config, s: State, p: Pc)
    requires c.n > 0 && Ring(c, s) && Local(c, s, p)
    requires (p.WCheck? || p.RCheck?) && p.h.Read? && p.t.Read?
    ensures DecidePc(c, p).WLen? ==> Room(c, s)
    ensures DecidePc(c, p).RCompare? ==> NonEmpty(s)
    ensures DecidePc(c, p).WWait? ==> p.h.at + 1 == p.t.at + c.n
    ensures DecidePc(c, p).RWait? ==> p.h.at == p.t.at
  {
    if p.WCheck? { FullIff(c.n, p.h.at, p.t.at); } else { EmptyIff(c.n, p.h.at, p.t.at); }
  }

  lemma CopyIn(c: Config, s: State, t: Tid)
    requires c.n > 0 && Ring(c, s) && At(s, t).WCopy? && Local(c, s, At(s, t))
    ensures Local(c, GoState(c, s, t), At(GoState(c, s, t), t))
  {
    var WCopy(m, i) := At(s, t);
    var sl := s.data[s.head];
    var sl' := StoreByte(s.data, s.head, i, m[i])[s.head];
    assert sl'.bytes[..i + 1] == sl.bytes[..i] + [m[i]] == m[..i + 1];
  }

  lemma CopyOut(c: Config, s: State, t: Tid)
    requires c.n > 0 && Ring(c, s) && At(s, t).RCopy? && Local(c, s, At(s, t))
    ensures Local(c, GoState(c, s, t), At(GoState(c, s, t), t))
  {
    var RCopy(len, buf) := At(s, t);
    var m := s.written[|s.consumed|];
    assert Holds(s.data[|s.consumed| % c.n], m);
    if |buf| < len {
      assert s.data[s.tail].bytes[|buf|] == s.data[s.tail].bytes[..len][|buf|];
      assert buf + [m[|buf|]] == m[..|buf| + 1];
    }
  }

  ghost predicate Settled(c: Config, s: State, t: Tid)
    requires c.n > 0
  {
    Local(c, s, At(s, t))
  }

  lemma SelfWrite(c: Config, s: State, t: Tid)
    requires c.n > 0 && Ring(c, s) && InWrite(At(s, t)) && Local(c, s, At(s, t))
    ensures Settled(c, WriteGo(c, s, t), t)
  {
    if At(s, t).WCopy? { CopyIn(c, s, t); }
  }

  lemma SelfRead(c: Config, s: State, t: Tid)
    requires c.n > 0 && Ring(c, s) && InRead(At(s, t)) && Local(c, s, At(s, t))
    ensures Settled(c, ReadGo(c, s, t), t)
  {
    if At(s, t).RCopy? {
      CopyOut(c, s, t);
    } else if At(s, t).RLen? {
      assert Holds(s.data[|s.consumed| % c.n], s.written[|s.consumed|]);
    }
  }

  lemma SelfClear(c: Config, s: State, t: Tid)
    requires c.n > 0 && Ring(c, s) && InClear(At(s, t)) && Local(c, s, At(s, t))
    ensures Settled(c, ClearGo(c, s, t), t)
  {
  }

  lemma SelfDecide(c: Config, s: State, t: Tid)
    requires c.n > 0 && Ring(c, s) && Enabled(c, s, Decide(t)) && Local(c, s, At(s, t))
    ensures Settled(c, Do(c, s, Decide(t)), t)
  {
    var p := At(s, t);
    if p.WCheck? || p.RCheck? { DecideSafe(c, s, p); }
    assert Local(c, s, DecidePc(c, p));
  }

  lemma SelfLoad(c: Config, s: State, st: Step)
    requires c.n > 0 && Ring(c, s) && Enabled(c, s, st) && Local(c, s, At(s, st.who)) && (st.LoadHead? || st.LoadTail?)
    ensures Settled(c, Do(c, s, st), st.who)
  {
  }

  lemma SelfBegin(c: Config, s: State, st: Step)
    requires c.n > 0 && Ring(c, s) && Enabled(c, s, st) && (st.BeginWrite? || st.BeginRead? || st.BeginClear?)
    ensures Settled(c, Do(c, s, st), st.who)
  {
  }

  lemma SelfLeave(c: Config, s: State, st: Step)
    requires c.n > 0 && Ring(c, s) && Enabled(c, s, st) && Sound(s, st) && (st.Fail? || st.Crash?)
    ensures Settled(c, Do(c, s, st), st.who)
  {
  }

  lemma SelfTake(c: Config, s: State, st: Step)
    requires c.n > 0 && Ring(c, s) && Enabled(c, s, st) && Local(c, s, At(s, st.who))
    requires st.Acquire? || st.Wake? || st.Spurious? || st.Recover?
    ensures Settled(c, Do(c, s, st), st.who)
  {
  }

  lemma SelfStep(c: Config, s: State, st: Step)
    requires c.n > 0 && Ring(c, s) && Enabled(c, s, st) && Sound(s, st) && Local(c, s, At(s, st.who))
    ensures Settled(c, Do(c, s, st), st.who)
  {
    var t := st.who;
    if st.Decide? {
      SelfDecide(c, s, t);
    } else if st.LoadHead? || st.LoadTail? {
      SelfLoad(c, s, st);
    } else if st.BeginWrite? || st.BeginRead? || st.BeginClear? {
      SelfBegin(c, s, st);
    } else if st.Fail? || st.Crash? {
      SelfLeave(c, s, st);
    } else if !st.Go? {
      SelfTake(c, s, st);
    } else if InWrite(At(s, t)) {
      SelfWrite(c, s, t);
    } else if InRead(At(s, t)) {
      SelfRead(c, s, t);
    } else {
      SelfClear(c, s, t);
    }
  }

  // ---- the other threads

  /** A write-lock holder keeps what it relies on while others step. */
  lemma WriterUndisturbed(c: Config, s: State, st: Step, p: Pc)
    requires c.n > 0 && Ring(c, s) && Enabled(c, s, st) && Ring(c, Do(c, s, st))
    requires HoldsW(p) && !HoldsW(At(s, st.who)) && Local(c, s, p)
    ensures Local(c, Do(c, s, st), p)
  {
    Footprint(c, s, st);
  }

  /** So does a read-lock holder, even while a writer fills the slot at the head. */
  lemma ReaderUndisturbed(c: Config, s: State, st: Step, p: Pc)
    requires c.n > 0 && Ring(c, s) && Enabled(c, s, st) && Ring(c, Do(c, s, st))
    requires !HoldsW(p) && (HoldsR(p) ==> !HoldsR(At(s, st.who))) && Local(c, s, p)
    ensures Local(c, Do(c, s, st), p)
  {
    Footprint(c, s, st);
  }

  lemma InvStep(c: Config, s: State, st: Step)
    requires c.n > 0 && Inv(c, s) && Enabled(c, s, st) && Sound(s, st)
    ensures Inv(c, Do(c, s, st))
  {
    var s' := Do(c, s, st);
    var t := st.who;
    assert Local(c, s, At(s, t));
    TokensStep(c, s, st);
    RingStep(c, s, st);
    SelfStep(c, s, st);
    Footprint(c, s, st);
    forall u | u in s'.pc
      ensures Local(c, s', s'.pc[u])
    {
      if u != t {
        if t in s.pc { Exclusive(s, t, u); }
        if HoldsW(s.pc[u]) {
          WriterUndisturbed(c, s, st, s.pc[u]);
        } else {
          ReaderUndisturbed(c, s, st, s.pc[u]);
        }
      }
    }
  }

  lemma InvInit(c: Config)
    requires c.n > 0
    ensures Inv(c, Init(c))
  {
    assert WHolders(map[]) == {} && RHolders(map[]) == {};
    ModSmall(c.n, 0, 0);
  }

  lemma {:induction false} InvExec(c: Config, s: State, steps: seq<Step>)
    requires c.n > 0 && Inv(c, s)
    ensures Inv(c, Exec(c, s, steps))
  {
    if steps != [] {
      var n := |steps| - 1;
      InvExec(c, s, steps[..n]);
      var mid := Exec(c, s, steps[..n]);
      if Enabled(c, mid, steps[n]) && Sound(mid, steps[n]) { InvStep(c, mid, steps[n]); }
    }
  }

  lemma InvReachable(c: Config, s: State)
    requires c.n > 0 && Reachable(c, s)
    ensures Inv(c, s)
  {
    var steps :| s == Exec(c, Init(c), steps);
    InvInit(c);
    InvExec(c, Init(c), steps);
  }
}
