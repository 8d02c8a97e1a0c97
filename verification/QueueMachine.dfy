/**
 The shared-memory message queue as a step system: any number of threads, one shared load or store per step,
 sequentially consistent memory. `Do` is the program; `written`, `author`, `consumed` and `taker` are history variables
 that no step reads, and so is the `at` part of a sample.
 */
module QueueMachine {
  import opened Basics
  import opened RingMath

  type Msg = seq<Byte>

  /** MAX_MESSAGE_SIZE: 0x1000 bytes less one unsigned int. */
  const MAX_MESSAGE_SIZE: nat := 0x1000 - 4

  /** CMessageHead. */
  datatype Slot = Slot(len: nat, bytes: seq<Byte>)

  /** Ring size, and the count at which a post saturates (1 on Windows; 0 stands for no limit). */
  datatype Config = Config(n: nat, cap: nat)

  /** A loaded index; `at` is the number of messages written (head) or consumed (tail) when it was loaded. */
  datatype Sample = Unread | Read(val: nat, at: nat)

  /** Where a thread stands. `nb` says that the operation is in asynchronous mode. */
  datatype Pc =
    | Idle(ret: int)
    | Dead
    | WAsync(m: Msg, h: Sample, t: Sample)
    | WLock(m: Msg, nb: bool)
    | WCheck(m: Msg, nb: bool, h: Sample, t: Sample)
    | WWait(m: Msg, nb: bool)
    | WLen(m: Msg)
    | WCopy(m: Msg, i: nat)
    | WAdvance(m: Msg)
    | WSignal(m: Msg)
    | WUnlock(m: Msg)
    | RAsync(room: nat, h: Sample, t: Sample)
    | RLock(room: nat, nb: bool)
    | RCheck(room: nat, nb: bool, h: Sample, t: Sample)
    | RWait(room: nat, nb: bool)
    | RCompare(room: nat)
    | RRefuse
    | RLen
    | RCopy(len: nat, buf: Msg)
    | RAdvance(buf: Msg)
    | RSignal(buf: Msg)
    | RUnlock(buf: Msg)
    | CLock
    | CLoad
    | CStore(h: Sample)
    | CSignal
    | CUnlock

  datatype State = State(
    head: nat, tail: nat, data: seq<Slot>,
    semWrite: nat, semRead: nat, semWaitRead: nat, semWaitWrite: nat,
    pc: map<Tid, Pc>,
    lostWrite: nat, lostRead: nat,      // tokens of the two locks that nobody holds any more
    written: seq<Msg>, author: seq<Tid>, consumed: seq<Msg>, taker: seq<Tid>)

  datatype Step =
    | BeginWrite(who: Tid, m: Msg, nb: bool)
    | BeginRead(who: Tid, room: nat, nb: bool)
    | BeginClear(who: Tid)
    | LoadHead(who: Tid)
    | LoadTail(who: Tid)
    | Decide(who: Tid)
    | Acquire(who: Tid)
    | Wake(who: Tid)
    | Go(who: Tid)
    | Spurious(who: Tid)   // a wake-up wait returns without a token
    | Fail(who: Tid)       // a semaphore wait reports an error
    | Crash(who: Tid)
    | Recover(who: Tid)    // a waiter takes over a lost lock token

  function At(s: State, t: Tid): Pc { if t in s.pc then s.pc[t] else Idle(0) }

  predicate LengthOk(m: Msg) { 0 < |m| <= MAX_MESSAGE_SIZE }

  predicate HoldsW(p: Pc) {
    p.WCheck? || p.WWait? || p.WLen? || p.WCopy? || p.WAdvance? || p.WSignal? || p.WUnlock?
  }

  predicate HoldsR(p: Pc) {
    p.RCheck? || p.RWait? || p.RCompare? || p.RRefuse? || p.RLen? || p.RCopy? || p.RAdvance? || p.RSignal? ||
    p.RUnlock? || p.CLoad? || p.CStore? || p.CSignal? || p.CUnlock?
  }

  predicate IsWriter(p: Pc) { p.WAsync? || p.WLock? || HoldsW(p) }

  predicate IsConsumer(p: Pc) { p.RAsync? || p.RLock? || p.CLock? || HoldsR(p) }

  predicate Checking(p: Pc) { p.WAsync? || p.WCheck? || p.RAsync? || p.RCheck? }

  predicate Enabled(c: Config, s: State, st: Step) {
    var p := At(s, st.who);
    match st
    case BeginWrite(_, _, _) => p.Idle?
    case BeginRead(_, _, _) => p.Idle?
    case BeginClear(_) => p.Idle?
    case LoadHead(_) => Checking(p) && p.h.Unread?
    case LoadTail(_) => Checking(p) && p.t.Unread?
    case Decide(_) => Checking(p) && p.h.Read? && p.t.Read?
    case Acquire(_) => (p.WLock? && s.semWrite > 0) || ((p.RLock? || p.CLock?) && s.semRead > 0)
    case Wake(_) => (p.WWait? && s.semWaitRead > 0) || (p.RWait? && s.semWaitWrite > 0)
    case Go(_) => Straight(p)
    case Spurious(_) => p.WWait? || p.RWait?
    case Fail(_) => p.WLock? || p.WWait? || p.RLock? || p.RWait? || p.CLock?
    case Crash(_) => !p.Dead?
    case Recover(_) => (p.WLock? && s.lostWrite > 0) || ((p.RLock? || p.CLock?) && s.lostRead > 0)
  }

  /** sem_post; a saturated Windows semaphore stays where it is. */
  function Post(c: Config, v: nat): nat { if c.cap > 0 && v >= c.cap then v else v + 1 }

  /**
   The two stores of the writer into slot `i`. A store outside the array would be lost: `InRange` shows there is none.
   */
  function StoreLen(data: seq<Slot>, i: nat, len: nat): seq<Slot> {
    if i < |data| then data[i := data[i].(len := len)] else data
  }

  function StoreByte(data: seq<Slot>, i: nat, k: nat, b: Byte): seq<Slot> {
    if i < |data| && k < |data[i].bytes| then data[i := data[i].(bytes := data[i].bytes[k := b])] else data
  }

  function SlotAt(data: seq<Slot>, i: nat): Slot { if i < |data| then data[i] else Slot(0, []) }

  /** The message a slot holds. */
  function Message(sl: Slot): Msg { if sl.len <= |sl.bytes| then sl.bytes[..sl.len] else sl.bytes }

  /** The messages in the `k` slots that start at index `i`. */
  function Slots(c: Config, data: seq<Slot>, i: nat, k: nat): seq<Msg>
    requires c.n > 0
  {
    seq(k, j requires 0 <= j < k => Message(SlotAt(data, (i + j) % c.n)))
  }

  /** The abstract queue: the slots from tail to head, as they lie in memory. */
  function Contents(c: Config, s: State): seq<Msg>
    requires c.n > 0 && s.head < c.n && s.tail < c.n
  {
    Slots(c, s.data, s.tail, Dist(c.n, s.tail, s.head))
  }

  /** IsWrite on loaded values. */
  predicate NotFull(c: Config, h: nat, t: nat)
    requires c.n > 0
  {
    (h + 1) % c.n != t
  }

  function LoadHeadPc(s: State, p: Pc): Pc
    requires Checking(p)
  {
    p.(h := Read(s.head, |s.written|))
  }

  function LoadTailPc(s: State, p: Pc): Pc
    requires Checking(p)
  {
    p.(t := Read(s.tail, |s.consumed|))
  }

  /** The branch taken once both indices are loaded. */
  function DecidePc(c: Config, p: Pc): Pc
    requires c.n > 0 && Checking(p) && p.h.Read? && p.t.Read?
  {
    match p
    case WAsync(m, h, t) =>
      if !NotFull(c, h.val, t.val) then Idle(0) else if LengthOk(m) then WLock(m, true) else Idle(-1)
    case WCheck(m, nb, h, t) => if NotFull(c, h.val, t.val) then WLen(m) else WWait(m, nb)
    case RAsync(room, h, t) => if t.val == h.val then Idle(0) else RLock(room, true)
    case RCheck(room, nb, h, t) => if t.val != h.val then RCompare(room) else RWait(room, nb)
  }

  predicate InWrite(p: Pc) { p.WLen? || p.WCopy? || p.WAdvance? || p.WSignal? || p.WUnlock? }

  predicate InRead(p: Pc) {
    p.RCompare? || p.RRefuse? || p.RLen? || p.RCopy? || p.RAdvance? || p.RSignal? || p.RUnlock?
  }

  predicate InClear(p: Pc) { p.CLoad? || (p.CStore? && p.h.Read?) || p.CSignal? || p.CUnlock? }

  predicate Straight(p: Pc) { InWrite(p) || InRead(p) || InClear(p) }

  function WriteGo(c: Config, s: State, t: Tid): State
    requires c.n > 0 && InWrite(At(s, t))
  {
    match At(s, t)
    case WLen(m) => s.(data := StoreLen(s.data, s.head, |m|), pc := s.pc[t := WCopy(m, 0)])
    case WCopy(m, i) =>
      if i < |m| then
        s.(data := StoreByte(s.data, s.head, i, m[i]),
           pc := s.pc[t := if i + 1 < |m| then WCopy(m, i + 1) else WAdvance(m)])
      else s.(pc := s.pc[t := WAdvance(m)])
    case WAdvance(m) =>
      s.(head := Next(c.n, s.head), written := s.written + [m], author := s.author + [t], pc := s.pc[t := WSignal(m)])
    case WSignal(m) => s.(semWaitWrite := Post(c, s.semWaitWrite), pc := s.pc[t := WUnlock(m)])
    case WUnlock(m) => s.(semWrite := Post(c, s.semWrite), pc := s.pc[t := Idle(|m|)])
  }

  function ReadGo(c: Config, s: State, t: Tid): State
    requires c.n > 0 && InRead(At(s, t))
  {
    match At(s, t)
    case RCompare(room) => s.(pc := s.pc[t := if room < SlotAt(s.data, s.tail).len then RRefuse else RLen])
    case RRefuse => s.(semRead := Post(c, s.semRead), pc := s.pc[t := Idle(-1)])
    case RLen => s.(pc := s.pc[t := RCopy(SlotAt(s.data, s.tail).len, [])])
    case RCopy(len, buf) =>
      var sl := SlotAt(s.data, s.tail);
      if |buf| < len && |buf| < |sl.bytes| then
        s.(pc := s.pc[t := RCopy(len, buf + [sl.bytes[|buf|]])])
      else s.(pc := s.pc[t := RAdvance(buf)])
    case RAdvance(buf) =>
      s.(tail := Next(c.n, s.tail), consumed := s.consumed + [buf], taker := s.taker + [t],
           pc := s.pc[t := RSignal(buf)])
    case RSignal(buf) => s.(semWaitRead := Post(c, s.semWaitRead), pc := s.pc[t := RUnlock(buf)])
    case RUnlock(buf) => s.(semRead := Post(c, s.semRead), pc := s.pc[t := Idle(|buf|)])
  }

  function ClearGo(c: Config, s: State, t: Tid): State
    requires c.n > 0 && InClear(At(s, t))
  {
    match At(s, t)
    case CLoad => s.(pc := s.pc[t := CStore(Read(s.head, |s.written|))])
    case CStore(h) =>
      var k := if s.tail < c.n && h.val < c.n then Dist(c.n, s.tail, h.val) else 0;
      s.(tail := h.val, consumed := s.consumed + Slots(c, s.data, s.tail, k), taker := s.taker + seq(k, _ => t),
           pc := s.pc[t := CSignal])
    case CSignal => s.(semWaitRead := Post(c, s.semWaitRead), pc := s.pc[t := CUnlock])
    case CUnlock => s.(semRead := Post(c, s.semRead), pc := s.pc[t := Idle(0)])
  }

  /** One step of the straight-line code. */
  function GoState(c: Config, s: State, t: Tid): State
    requires c.n > 0 && Straight(At(s, t))
  {
    if InWrite(At(s, t)) then WriteGo(c, s, t) else if InRead(At(s, t)) then ReadGo(c, s, t) else ClearGo(c, s, t)
  }

  /** Lock acquired, by token or by recovery: the first program point that holds it. */
  function Entered(p: Pc): Pc
    requires p.WLock? || p.RLock? || p.CLock?
  {
    match p
    case WLock(m, nb) => WCheck(m, nb, Unread, Unread)
    case RLock(room, nb) => RCheck(room, nb, Unread, Unread)
    case CLock => CLoad
  }

  function Woken(p: Pc): Pc
    requires p.WWait? || p.RWait?
  {
    match p
    case WWait(m, nb) => WCheck(m, nb, Unread, Unread)
    case RWait(room, nb) => RCheck(room, nb, Unread, Unread)
  }

  function Do(c: Config, s: State, st: Step): State
    requires c.n > 0 && Enabled(c, s, st)
  {
    var t := st.who;
    var p := At(s, t);
    match st
    case BeginWrite(_, m, nb) =>
      s.(pc := s.pc[t := if nb then WAsync(m, Unread, Unread) else if LengthOk(m) then WLock(m, false) else Idle(-1)])
    case BeginRead(_, room, nb) => s.(pc := s.pc[t := if nb then RAsync(room, Unread, Unread) else RLock(room, false)])
    case BeginClear(_) => s.(pc := s.pc[t := CLock])
    case LoadHead(_) => s.(pc := s.pc[t := LoadHeadPc(s, p)])
    case LoadTail(_) => s.(pc := s.pc[t := LoadTailPc(s, p)])
    case Decide(_) => s.(pc := s.pc[t := DecidePc(c, p)])
    case Acquire(_) =>
      var s' := s.(pc := s.pc[t := Entered(p)]);
      if p.WLock? then s'.(semWrite := s.semWrite - 1) else s'.(semRead := s.semRead - 1)
    case Wake(_) =>
      var s' := s.(pc := s.pc[t := Woken(p)]);
      if p.WWait? then s'.(semWaitRead := s.semWaitRead - 1) else s'.(semWaitWrite := s.semWaitWrite - 1)
    case Go(_) => GoState(c, s, t)
    case Spurious(_) => s.(pc := s.pc[t := Woken(p)])
    case Fail(_) =>
      // The inner waits return without posting the lock back; Clear does not look at what its wait returned.
      if p.CLock? then s.(pc := s.pc[t := CLoad])
      else if p.WWait? then s.(lostWrite := s.lostWrite + 1, pc := s.pc[t := Idle(-1)])
      else if p.RWait? then s.(lostRead := s.lostRead + 1, pc := s.pc[t := Idle(-1)])
      else s.(pc := s.pc[t := Idle(-1)])
    case Crash(_) =>
      s.(pc := s.pc[t := Dead],
         lostWrite := if HoldsW(p) then s.lostWrite + 1 else s.lostWrite,
         lostRead := if HoldsR(p) then s.lostRead + 1 else s.lostRead)
    case Recover(_) =>
      var s' := s.(pc := s.pc[t := Entered(p)]);
      if p.WLock? then s'.(lostWrite := s.lostWrite - 1) else s'.(lostRead := s.lostRead - 1)
  }

  /** A fresh zeroed segment and four semaphores at 1. */
  function Init(c: Config): State {
    State(0, 0, seq(c.n, _ => Slot(0, seq(MAX_MESSAGE_SIZE, _ => 0))), 1, 1, 1, 1, map[], 0, 0, [], [], [], [])
  }

  /** Clear goes on without the lock when its wait fails; every other step is sound. */
  predicate Sound(s: State, st: Step) { st.Fail? ==> !At(s, st.who).CLock? }

  /** A scheduler's choice: the step if it is possible, nothing otherwise. */
  function Try(c: Config, s: State, st: Step): State
    requires c.n > 0
  {
    if Enabled(c, s, st) && Sound(s, st) then Do(c, s, st) else s
  }

  /** The state a schedule leads to; every interleaving is a schedule. */
  function Exec(c: Config, s: State, steps: seq<Step>): State
    requires c.n > 0
  {
    if steps == [] then s else Try(c, Exec(c, s, steps[..|steps| - 1]), steps[|steps| - 1])
  }

  ghost predicate Reachable(c: Config, s: State)
    requires c.n > 0
  {
    exists steps :: s == Exec(c, Init(c), steps)
  }
}
