/** What the queue promises under every interleaving: FIFO order, separate slots, conserved locks, atomic crashes. */
module QueueTheorems {
  import opened Basics
  import opened RingMath
  import opened QueueMachine
  import opened QueueSafety
  import RingAttach

  // ---- first in, first out

  /** The messages written are those taken or cleared, in order, followed by the slots from tail to head. */
  lemma FifoOrder(c: Config, s: State)
    requires c.n > 0 && Reachable(c, s)
    ensures s.head < c.n && s.tail < c.n
    ensures s.written == s.consumed + Contents(c, s)
    ensures |Contents(c, s)| <= c.n - 1
  {
    InvReachable(c, s);
    SlotsAreWritten(c, s, |s.written|);
    assert s.written == s.written[..|s.consumed|] + s.written[|s.consumed|..|s.written|];
  }

  /** What one step means to a user of the queue. */
  datatype Event = Silent | Put(m: Msg) | Take(m: Msg) | Drop(k: nat)

  function EventOf(c: Config, s: State, st: Step): Event
    requires c.n > 0
  {
    var p := At(s, st.who);
    if !st.Go? then Silent
    else match p
      case WAdvance(m) => Put(m)
      case RAdvance(buf) => Take(buf)
      case CStore(h) => if h.Read? && s.tail < c.n && h.val < c.n then Drop(Dist(c.n, s.tail, h.val)) else Silent
      case _ => Silent
  }

  datatype Queue = Holding(q: seq<Msg>) | Impossible

  /** The queue a user believes in. */
  function Spec(c: Config, a: Queue, e: Event): Queue {
    match a
    case Impossible => Impossible
    case Holding(q) =>
      match e
      case Silent => a
      case Put(m) => if |q| < c.n - 1 then Holding(q + [m]) else Impossible
      case Take(m) => if |q| > 0 && m == q[0] then Holding(q[1..]) else Impossible
      case Drop(k) => if k <= |q| then Holding(q[k..]) else Impossible
  }

  function SpecRun(c: Config, es: seq<Event>): Queue {
    if es == [] then Holding([]) else Spec(c, SpecRun(c, es[..|es| - 1]), es[|es| - 1])
  }

  /** What a step adds to the log of written messages. */
  ghost function Puts(s: State, st: Step): seq<Msg> {
    if st.Go? && At(s, st.who).WAdvance? then [At(s, st.who).m] else []
  }

  /** What a step adds to the log of consumed messages. */
  ghost function Takes(c: Config, s: State, st: Step): seq<Msg>
    requires |s.consumed| <= |s.written|
  {
    var p := At(s, st.who);
    if st.Go? && p.RAdvance? then [p.buf]
    else if st.Go? && p.CStore? && p.h.Read? && |s.consumed| <= p.h.at <= |s.written| then
      s.written[|s.consumed|..p.h.at]
    else []
  }

  /** The logs grow by these and nothing else. */
  ghost predicate Logged(c: Config, s: State, st: Step, s': State)
    requires |s.consumed| <= |s.written|
  {
    && s'.written == s.written + Puts(s, st)
    && s'.author == s.author + seq(|Puts(s, st)|, _ => st.who)
    && s'.consumed == s.consumed + Takes(c, s, st)
    && s'.taker == s.taker + seq(|Takes(c, s, st)|, _ => st.who)
  }

  lemma LoggedWrite(c: Config, s: State, t: Tid)
    requires c.n > 0 && Ring(c, s) && InWrite(At(s, t))
    ensures Logged(c, s, Go(t), WriteGo(c, s, t))
  {
  }

  lemma LoggedRead(c: Config, s: State, t: Tid)
    requires c.n > 0 && Ring(c, s) && InRead(At(s, t))
    ensures Logged(c, s, Go(t), ReadGo(c, s, t))
  {
  }

  lemma LoggedClear(c: Config, s: State, t: Tid)
    requires c.n > 0 && Ring(c, s) && InClear(At(s, t)) && Local(c, s, At(s, t))
    ensures Logged(c, s, Go(t), ClearGo(c, s, t))
  {
    if At(s, t).CStore? { SlotsAreWritten(c, s, At(s, t).h.at); }
  }

  lemma LoggedStep(c: Config, s: State, st: Step)
    requires c.n > 0 && Inv(c, s) && Enabled(c, s, st)
    ensures Logged(c, s, st, Do(c, s, st))
  {
    var t := st.who;
    assert Local(c, s, At(s, t));
    if !st.Go? { SameMemory(c, s, st); }
    else if InWrite(At(s, t)) { LoggedWrite(c, s, t); }
    else if InRead(At(s, t)) { LoggedRead(c, s, t); }
    else { LoggedClear(c, s, t); }
  }

  lemma ContentsAre(c: Config, s: State)
    requires c.n > 0 && Ring(c, s)
    ensures s.head < c.n && s.tail < c.n && Contents(c, s) == s.written[|s.consumed|..]
  {
    SlotsAreWritten(c, s, |s.written|);
    assert s.written[|s.consumed|..|s.written|] == s.written[|s.consumed|..];
  }

  lemma EventTakes(c: Config, s: State, st: Step)
    requires c.n > 0 && Inv(c, s) && Enabled(c, s, st)
    ensures EventOf(c, s, st).Put? <==> Puts(s, st) != []
    ensures EventOf(c, s, st).Put? ==> Room(c, s) && Puts(s, st) == [EventOf(c, s, st).m] && Takes(c, s, st) == []
    ensures EventOf(c, s, st).Take? ==> NonEmpty(s) && Takes(c, s, st) == [EventOf(c, s, st).m]
    ensures EventOf(c, s, st).Take? ==> EventOf(c, s, st).m == s.written[|s.consumed|]
    ensures EventOf(c, s, st).Drop? ==> |Takes(c, s, st)| == EventOf(c, s, st).k <= |s.written| - |s.consumed|
    ensures EventOf(c, s, st).Silent? ==> Takes(c, s, st) == []
  {
    assert Local(c, s, At(s, st.who));
    if st.Go? && At(s, st.who).CStore? { SlotsAreWritten(c, s, At(s, st.who).h.at); }
  }

  /** Both ends of a log's tail at once: entries added behind, entries taken in front. */
  lemma TailMoves(log: seq<Msg>, k: nat, more: seq<Msg>, taken: nat)
    requires k + taken <= |log|
    ensures (log + more)[k + taken..] == log[k..][taken..] + more
  {
  }

  lemma ContentsStep(c: Config, s: State, st: Step)
    requires c.n > 0 && Inv(c, s) && Enabled(c, s, st) && Inv(c, Do(c, s, st))
    requires |Takes(c, s, st)| <= |s.written| - |s.consumed|
    ensures s.head < c.n && s.tail < c.n && Do(c, s, st).head < c.n && Do(c, s, st).tail < c.n
    ensures Contents(c, s) == s.written[|s.consumed|..]
    ensures Contents(c, Do(c, s, st)) == s.written[|s.consumed|..][|Takes(c, s, st)|..] + Puts(s, st)
  {
    ContentsAre(c, s);
    ContentsAre(c, Do(c, s, st));
    LoggedStep(c, s, st);
    TailMoves(s.written, |s.consumed|, Puts(s, st), |Takes(c, s, st)|);
  }

  lemma RefineStep(c: Config, s: State, st: Step)
    requires c.n > 0 && Inv(c, s) && Enabled(c, s, st) && Inv(c, Do(c, s, st))
    ensures s.head < c.n && s.tail < c.n && Do(c, s, st).head < c.n && Do(c, s, st).tail < c.n
    ensures Spec(c, Holding(Contents(c, s)), EventOf(c, s, st)) == Holding(Contents(c, Do(c, s, st)))
  {
    EventTakes(c, s, st);
    ContentsStep(c, s, st);
    var q := Contents(c, s);
    assert q + [] == q && q[0..] == q;
  }

  /** Every step of every thread is one step of the abstract queue, and only the three commit points are not silent. */
  lemma StepRefines(c: Config, s: State, st: Step)
    requires c.n > 0 && Reachable(c, s) && Enabled(c, s, st) && Sound(s, st)
    ensures s.head < c.n && s.tail < c.n && Do(c, s, st).head < c.n && Do(c, s, st).tail < c.n
    ensures Spec(c, Holding(Contents(c, s)), EventOf(c, s, st)) == Holding(Contents(c, Do(c, s, st)))
  {
    InvReachable(c, s);
    InvStep(c, s, st);
    RefineStep(c, s, st);
  }

  /** The events of a schedule, in order; a step that is not possible makes none. */
  ghost function Trace(c: Config, s: State, steps: seq<Step>): seq<Event>
    requires c.n > 0
  {
    if steps == [] then []
    else
      var n := |steps| - 1;
      var mid := Exec(c, s, steps[..n]);
      Trace(c, s, steps[..n]) +
      [if Enabled(c, mid, steps[n]) && Sound(mid, steps[n]) then EventOf(c, mid, steps[n]) else Silent]
  }

  /** A whole schedule is a run of the abstract queue, from empty to the slots in memory. */
  lemma {:induction false} RunRefines(c: Config, steps: seq<Step>)
    requires c.n > 0
    ensures var s := Exec(c, Init(c), steps);
      s.head < c.n && s.tail < c.n && SpecRun(c, Trace(c, Init(c), steps)) == Holding(Contents(c, s))
  {
    InvInit(c);
    InvExec(c, Init(c), steps);
    ContentsAre(c, Exec(c, Init(c), steps));
    if steps != [] {
      var n := |steps| - 1;
      RunRefines(c, steps[..n]);
      var mid := Exec(c, Init(c), steps[..n]);
      InvExec(c, Init(c), steps[..n]);
      var es := Trace(c, Init(c), steps);
      assert es[..|es| - 1] == Trace(c, Init(c), steps[..n]);
      if Enabled(c, mid, steps[n]) && Sound(mid, steps[n]) { RefineStep(c, mid, steps[n]); }
    }
  }

  // ---- slots and bytes

  predicate Filling(p: Pc) { p.WLen? || p.WCopy? || p.WAdvance? }

  predicate Reading(p: Pc) { p.RCompare? || p.RLen? || p.RCopy? || p.RAdvance? }

  /**
   From a writer's passing check to its head store there is a slot to spare, so that the ring does not look empty once
   it is full, and the slot it fills is not the one any reader has in hand.
   */
  lemma NoSlotShared(c: Config, s: State, w: Tid, r: Tid)
    requires c.n > 0 && Reachable(c, s) && Filling(At(s, w))
    ensures s.head < c.n && s.tail < c.n && |Contents(c, s)| <= c.n - 2 && Next(c.n, s.head) != s.tail
    ensures Reading(At(s, r)) ==>
      s.head != s.tail && SlotAt(Do(c, s, Go(w)).data, s.tail) == SlotAt(s.data, s.tail)
  {
    InvReachable(c, s);
    assert Local(c, s, At(s, w)) && Local(c, s, At(s, r));
    ContentsAre(c, s);
    ModSucc(c.n, |s.written|);
    FullIff(c.n, |s.written|, |s.consumed|);
    EmptyIff(c.n, |s.written|, |s.consumed|);
    FillsHeadOnly(c, s, w);
  }

  /** A writer past its check touches no slot but the one at the head. */
  lemma FillsHeadOnly(c: Config, s: State, w: Tid)
    requires c.n > 0 && Filling(At(s, w))
    ensures forall i :: 0 <= i < |s.data| && i != s.head ==> SlotAt(WriteGo(c, s, w).data, i) == SlotAt(s.data, i)
  {
  }

  /** A reader past its check reads a live slot, and what it hands over is the oldest message, byte for byte. */
  lemma DeliversOldest(c: Config, s: State, r: Tid)
    requires c.n > 0 && Reachable(c, s)
    requires At(s, r).RCompare? || At(s, r).RLen? || At(s, r).RCopy? || At(s, r).RAdvance?
    ensures s.head < c.n && s.tail < c.n && |Contents(c, s)| > 0
    ensures At(s, r).RCopy? ==> At(s, r).len == |Contents(c, s)[0]| && At(s, r).buf <= Contents(c, s)[0]
    ensures At(s, r).RAdvance? ==> At(s, r).buf == Contents(c, s)[0]
  {
    InvReachable(c, s);
    assert Local(c, s, At(s, r));
    ContentsAre(c, s);
  }

  /** The byte of the segment where byte `k` of the message in slot `i` lies, behind the slot's length. */
  function ByteAt(i: nat, k: nat): nat { RingAttach.SlotStart(i) + 4 + k }

  /**
   No load or store of a message falls outside the shared array, nor, on a ring of fewer than 2^20 slots, outside of the
   bytes the segment was made with.
   */
  lemma InRange(c: Config, s: State, t: Tid)
    requires c.n > 0 && Reachable(c, s)
    ensures |s.data| == c.n && s.head < |s.data| && s.tail < |s.data|
    ensures At(s, t).WCopy? ==> At(s, t).i < |At(s, t).m| <= |s.data[s.head].bytes|
    ensures At(s, t).RCopy? ==> At(s, t).len <= |s.data[s.tail].bytes|
    ensures c.n < RingAttach.MAX_AGREED ==>
      && (At(s, t).WCopy? ==> ByteAt(s.head, At(s, t).i) < RingAttach.Kept(c.n))
      && (At(s, t).RCopy? && |At(s, t).buf| < At(s, t).len ==> ByteAt(s.tail, |At(s, t).buf|) < RingAttach.Kept(c.n))
  {
    InvReachable(c, s);
    assert Local(c, s, At(s, t));
    if At(s, t).RCopy? { assert Holds(s.data[|s.consumed| % c.n], s.written[|s.consumed|]); }
    RingAttach.SlotsFitIff(c.n);
    assert RingAttach.SlotEnd(s.head) == ByteAt(s.head, MAX_MESSAGE_SIZE);
    assert RingAttach.SlotEnd(s.tail) == ByteAt(s.tail, MAX_MESSAGE_SIZE);
  }

  // ---- lock tokens

  /** In every reachable state the lock's count, its holders and the tokens nobody holds make one. */
  lemma TokensConserved(c: Config, s: State)
    requires c.n > 0 && Reachable(c, s)
    ensures s.semWrite + s.lostWrite + |WHolders(s.pc)| == 1
    ensures s.semRead + s.lostRead + |RHolders(s.pc)| == 1
  {
    InvReachable(c, s);
  }

  /**
   A step takes a token out of circulation exactly when a holder dies or its inner wait fails; Clear's failed wait adds
   one.
   */
  lemma TokenLeakIff(c: Config, s: State, st: Step)
    requires c.n > 0 && Reachable(c, s) && Enabled(c, s, st) && !st.Recover?
    ensures var s', p := Do(c, s, st), At(s, st.who);
      (s'.semWrite + |WHolders(s'.pc)| == s.semWrite + |WHolders(s.pc)| <==>
        !((st.Crash? && HoldsW(p)) || (st.Fail? && p.WWait?))) &&
      (s'.semRead + |RHolders(s'.pc)| == s.semRead + |RHolders(s.pc)| <==>
        !((st.Crash? && HoldsR(p)) || (st.Fail? && (p.RWait? || p.CLock?))))
  {
    InvReachable(c, s);
    var s', p := Do(c, s, st), At(s, st.who);
    if Sound(s, st) {
      InvStep(c, s, st);
      LostWhen(c, s, st);
    } else {
      WHoldersUpdate(s.pc, st.who, CLoad);
      RHoldersUpdate(s.pc, st.who, CLoad);
    }
  }

  lemma LostWhen(c: Config, s: State, st: Step)
    requires c.n > 0 && Enabled(c, s, st) && !st.Recover?
    ensures var s', p := Do(c, s, st), At(s, st.who);
      s'.lostWrite == s.lostWrite + Count((st.Crash? && HoldsW(p)) || (st.Fail? && p.WWait?)) &&
      s'.lostRead == s.lostRead + Count((st.Crash? && HoldsR(p)) || (st.Fail? && p.RWait?))
  {
    if st.Go? { GoLosesNothing(c, s, st.who); }
  }

  lemma GoLosesNothing(c: Config, s: State, t: Tid)
    requires c.n > 0 && Straight(At(s, t))
    ensures GoState(c, s, t).lostWrite == s.lostWrite && GoState(c, s, t).lostRead == s.lostRead
  {
  }

  // ---- crashes

  /** Entries of a log made by one thread. */
  ghost function By(log: seq<Msg>, who: seq<Tid>, t: Tid): seq<Msg>
    requires |log| == |who|
  {
    if log == [] then []
    else By(log[..|log| - 1], who[..|who| - 1], t) + (if who[|who| - 1] == t then [log[|log| - 1]] else [])
  }

  lemma {:induction false} ByAppend(log: seq<Msg>, who: seq<Tid>, more: seq<Msg>, owner: Tid, t: Tid)
    requires |log| == |who|
    ensures By(log + more, who + seq(|more|, _ => owner), t) == By(log, who, t) + (if owner == t then more else [])
  {
    var tags := seq(|more|, _ => owner);
    if more == [] {
      assert log + more == log && who + tags == who;
    } else {
      var k := |more| - 1;
      ByAppend(log, who, more[..k], owner, t);
      assert (log + more)[..|log + more| - 1] == log + more[..k];
      assert (who + tags)[..|who + tags| - 1] == who + seq(k, _ => owner);
    }
  }

  ghost function Put1(s: State, t: Tid): seq<Msg>
    requires |s.written| == |s.author|
  {
    By(s.written, s.author, t)
  }

  ghost function Took(s: State, t: Tid): seq<Msg>
    requires |s.consumed| == |s.taker|
  {
    By(s.consumed, s.taker, t)
  }

  /** Where a Write of `m` stands, given what its thread has added to the queue since it began. */
  ghost predicate WriteProgress(p: Pc, m: Msg, added: seq<Msg>) {
    match p
    case Idle(r) => added == (if r > 0 then [m] else []) && (r > 0 ==> r == |m|)
    case Dead => added == [] || added == [m]
    case WAsync(x, _, _) => x == m && added == []
    case WLock(x, _) => x == m && added == []
    case WCheck(x, _, _, _) => x == m && added == []
    case WWait(x, _) => x == m && added == []
    case WLen(x) => x == m && added == []
    case WCopy(x, _) => x == m && added == []
    case WAdvance(x) => x == m && added == []
    case WSignal(x) => x == m && added == [m] && |m| > 0
    case WUnlock(x) => x == m && added == [m] && |m| > 0
    case _ => false
  }

  /** A thread's own log changes only at its own commit. */
  lemma LogStep(c: Config, s: State, st: Step, t: Tid)
    requires c.n > 0 && Inv(c, s) && Enabled(c, s, st) && Inv(c, Do(c, s, st))
    ensures Put1(Do(c, s, st), t) == Put1(s, t) + (if st.who == t then Puts(s, st) else [])
    ensures Took(Do(c, s, st), t) == Took(s, t) + (if st.who == t then Takes(c, s, st) else [])
  {
    LoggedStep(c, s, st);
    ByAppend(s.written, s.author, Puts(s, st), st.who, t);
    ByAppend(s.consumed, s.taker, Takes(c, s, st), st.who, t);
  }

  /** A thread stands still, and so do its logs, while others step. */
  lemma StandsStill(c: Config, s: State, st: Step, t: Tid)
    requires c.n > 0 && Inv(c, s) && Enabled(c, s, st) && Inv(c, Do(c, s, st)) && st.who != t
    ensures At(Do(c, s, st), t) == At(s, t)
    ensures Put1(Do(c, s, st), t) == Put1(s, t) && Took(Do(c, s, st), t) == Took(s, t)
  {
    LogStep(c, s, st, t);
    Footprint(c, s, st);
  }

  ghost predicate OnlyThisOperation(steps: seq<Step>, t: Tid) {
    forall i :: 0 <= i < |steps| ==> steps[i].who == t ==>
      !steps[i].BeginWrite? && !steps[i].BeginRead? && !steps[i].BeginClear?
  }

  lemma WriteProgressGo(c: Config, s: State, t: Tid, m: Msg, added: seq<Msg>)
    requires c.n > 0 && Enabled(c, s, Go(t)) && Local(c, s, At(s, t)) && WriteProgress(At(s, t), m, added)
    ensures WriteProgress(At(GoState(c, s, t), t), m, added + Puts(s, Go(t)))
  {
    assert InWrite(At(s, t));
  }

  lemma WriteProgressStep(c: Config, s: State, st: Step, m: Msg, added: seq<Msg>)
    requires c.n > 0 && Enabled(c, s, st) && Local(c, s, At(s, st.who))
    requires !st.BeginWrite? && !st.BeginRead? && !st.BeginClear?
    requires WriteProgress(At(s, st.who), m, added)
    ensures WriteProgress(At(Do(c, s, st), st.who), m, added + Puts(s, st))
  {
    if st.Go? { WriteProgressGo(c, s, st.who, m, added); } else { assert added + [] == added; }
  }

  ghost predicate WriteSoFar(s: State, t: Tid, m: Msg, before: seq<Msg>) {
    |s.written| == |s.author| && before <= Put1(s, t) && WriteProgress(At(s, t), m, Put1(s, t)[|before|..])
  }

  lemma WriteStepOwn(c: Config, s: State, st: Step, m: Msg, before: seq<Msg>)
    requires c.n > 0 && Inv(c, s) && Enabled(c, s, st) && Inv(c, Do(c, s, st)) && WriteSoFar(s, st.who, m, before)
    requires !st.BeginWrite? && !st.BeginRead? && !st.BeginClear?
    ensures WriteSoFar(Do(c, s, st), st.who, m, before)
  {
    LogStep(c, s, st, st.who);
    var added := Put1(s, st.who)[|before|..];
    assert Local(c, s, At(s, st.who));
    WriteProgressStep(c, s, st, m, added);
    assert (Put1(s, st.who) + Puts(s, st))[|before|..] == added + Puts(s, st);
  }

  lemma WriteAtomicStep(c: Config, s: State, st: Step, t: Tid, m: Msg, before: seq<Msg>)
    requires c.n > 0 && Inv(c, s) && Enabled(c, s, st) && Sound(s, st) && WriteSoFar(s, t, m, before)
    requires st.who == t ==> !st.BeginWrite? && !st.BeginRead? && !st.BeginClear?
    ensures Inv(c, Do(c, s, st)) && WriteSoFar(Do(c, s, st), t, m, before)
  {
    InvStep(c, s, st);
    if st.who == t {
      WriteStepOwn(c, s, st, m, before);
    } else {
      StandsStill(c, s, st, t);
    }
  }

  /**
   Under every schedule a Write adds its whole message once or nothing at all: it returns the length if and only if the
   message is in, and a thread that dies on the way has added all of it or none, whatever is recovered afterwards.
   */
  lemma {:induction false} WriteAtomic(c: Config, s: State, steps: seq<Step>, t: Tid, m: Msg)
    requires c.n > 0 && Inv(c, s) && OnlyThisOperation(steps, t)
    requires WriteProgress(At(s, t), m, []) && !At(s, t).Idle? && !At(s, t).Dead?
    ensures Inv(c, Exec(c, s, steps)) && WriteSoFar(Exec(c, s, steps), t, m, Put1(s, t))
  {
    if steps != [] {
      var n := |steps| - 1;
      var mid := Exec(c, s, steps[..n]);
      WriteAtomic(c, s, steps[..n], t, m);
      if Enabled(c, mid, steps[n]) && Sound(mid, steps[n]) {
        WriteAtomicStep(c, mid, steps[n], t, m, Put1(s, t));
      }
    }
  }

  /** Where a Read stands, given what its thread has taken from the queue since it began. */
  ghost predicate ReadProgress(p: Pc, took: seq<Msg>) {
    match p
    case Idle(r) => if r > 0 then |took| == 1 && |took[0]| == r else took == []
    case Dead => |took| <= 1
    case RAsync(_, _, _) => took == []
    case RLock(_, _) => took == []
    case RCheck(_, _, _, _) => took == []
    case RWait(_, _) => took == []
    case RCompare(_) => took == []
    case RRefuse => took == []
    case RLen => took == []
    case RCopy(_, _) => took == []
    case RAdvance(_) => took == []
    case RSignal(buf) => took == [buf] && |buf| > 0
    case RUnlock(buf) => took == [buf] && |buf| > 0
    case _ => false
  }

  lemma ReadProgressGo(c: Config, s: State, t: Tid, took: seq<Msg>)
    requires c.n > 0 && Ring(c, s) && Enabled(c, s, Go(t)) && Local(c, s, At(s, t)) && ReadProgress(At(s, t), took)
    ensures ReadProgress(At(GoState(c, s, t), t), took + Takes(c, s, Go(t)))
  {
    assert InRead(At(s, t));
  }

  lemma ReadProgressStep(c: Config, s: State, st: Step, took: seq<Msg>)
    requires c.n > 0 && Ring(c, s) && Enabled(c, s, st) && Local(c, s, At(s, st.who))
    requires !st.BeginWrite? && !st.BeginRead? && !st.BeginClear?
    requires ReadProgress(At(s, st.who), took)
    ensures ReadProgress(At(Do(c, s, st), st.who), took + Takes(c, s, st))
  {
    if st.Go? { ReadProgressGo(c, s, st.who, took); } else { assert took + [] == took; }
  }

  ghost predicate ReadSoFar(s: State, t: Tid, before: seq<Msg>) {
    |s.consumed| == |s.taker| && before <= Took(s, t) && ReadProgress(At(s, t), Took(s, t)[|before|..])
  }

  lemma ReadStepOwn(c: Config, s: State, st: Step, before: seq<Msg>)
    requires c.n > 0 && Inv(c, s) && Enabled(c, s, st) && Inv(c, Do(c, s, st)) && ReadSoFar(s, st.who, before)
    requires !st.BeginWrite? && !st.BeginRead? && !st.BeginClear?
    ensures ReadSoFar(Do(c, s, st), st.who, before)
  {
    LogStep(c, s, st, st.who);
    var took := Took(s, st.who)[|before|..];
    assert Local(c, s, At(s, st.who));
    ReadProgressStep(c, s, st, took);
    assert (Took(s, st.who) + Takes(c, s, st))[|before|..] == took + Takes(c, s, st);
  }

  lemma ReadAtomicStep(c: Config, s: State, st: Step, t: Tid, before: seq<Msg>)
    requires c.n > 0 && Inv(c, s) && Enabled(c, s, st) && Sound(s, st) && ReadSoFar(s, t, before)
    requires st.who == t ==> !st.BeginWrite? && !st.BeginRead? && !st.BeginClear?
    ensures Inv(c, Do(c, s, st)) && ReadSoFar(Do(c, s, st), t, before)
  {
    InvStep(c, s, st);
    if st.who == t {
      ReadStepOwn(c, s, st, before);
    } else {
      StandsStill(c, s, st, t);
    }
  }

  /** The same for Read: one whole message or none is gone, and the result says which. */
  lemma {:induction false} ReadAtomic(c: Config, s: State, steps: seq<Step>, t: Tid)
    requires c.n > 0 && Inv(c, s) && OnlyThisOperation(steps, t)
    requires ReadProgress(At(s, t), []) && !At(s, t).Idle? && !At(s, t).Dead?
    ensures Inv(c, Exec(c, s, steps)) && ReadSoFar(Exec(c, s, steps), t, Took(s, t))
  {
    if steps != [] {
      var n := |steps| - 1;
      var mid := Exec(c, s, steps[..n]);
      ReadAtomic(c, s, steps[..n], t);
      if Enabled(c, mid, steps[n]) && Sound(mid, steps[n]) {
        ReadAtomicStep(c, mid, steps[n], t, Took(s, t));
      }
    }
  }
}
