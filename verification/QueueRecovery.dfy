/**
 The queue over its real locks: the queue's step system and two copies of the lock recovery, run as one. Where the
 queue takes, recovers or gives back a lock, the lock does so in the same step; everything else a lock does is its own
 business.
 */
module QueueRecovery {
  import opened Basics
  import Q = QueueMachine
  import QueueSafety
  import QueueRuns
  import S = SemaphoreRecovery

  /** The queue, m_semWrite and m_semRead. */
  datatype State = State(q: Q.State, w: S.State, r: S.State)

  datatype Step =
    | OnWriteLock(st: S.Step)
    | OnReadLock(st: S.Step)
    | OnQueue(op: Q.Step)
    | Death(who: Tid)

  datatype Partner = Nothing | Partner(st: Q.Step)

  /** What a step of a lock is to the queue. */
  function PartnerOf(s: S.State, st: S.Step): Partner {
    match st
    case Take(t) => Partner(Q.Acquire(t))
    case Recheck(t, _) => if s.cell == t then Partner(Q.Recover(t)) else Nothing
    case Release(t) => Partner(Q.Go(t))
    case Fail(t) => Partner(Q.Fail(t))
    case Leak(t) => Partner(Q.Fail(t))
    case _ => Nothing
  }

  function Beside(c: Q.Config, q: Q.State, p: Partner): Q.State
    requires c.n > 0
  {
    if p.Partner? then Q.Try(c, q, p.st) else q
  }

  predicate WantsRead(p: Q.Pc) { p.RLock? || p.CLock? }

  predicate LeavesRead(p: Q.Pc) { p.RUnlock? || p.RRefuse? || p.CUnlock? }

  /** The queue waits for its locks without a limit, so no wait of theirs ends in a timeout. */
  predicate WithoutLimit(st: S.Step) { (st.TestSelf? || st.ProbeOwner? || st.Recheck?) ==> !st.last }

  /**
   A thread enters a lock's Wait and Post where its program calls them, runs its program only outside of Wait, and dies
   in all three at once. A lock's wait that reports an error ends Write or Read, and so does an inner wake-up wait,
   which leaves with the lock's token.
   */
  predicate Possible(c: Q.Config, s: State, st: Step) {
    match st
    case OnWriteLock(x) =>
      var p := Q.At(s.q, x.who);
      && S.Enabled(s.w, x) && !x.Die? && WithoutLimit(x)
      && (x.Enter? ==> p.WLock?) && (x.Release? ==> p.WUnlock?) && (x.Leak? ==> p.WWait?)
    case OnReadLock(x) =>
      var p := Q.At(s.q, x.who);
      && S.Enabled(s.r, x) && !x.Die? && WithoutLimit(x)
      && (x.Enter? ==> WantsRead(p)) && (x.Release? ==> LeavesRead(p)) && (x.Leak? ==> p.RWait?)
      && (x.Fail? ==> !p.CLock?)
    case OnQueue(x) =>
      var p := Q.At(s.q, x.who);
      && Q.Enabled(c, s.q, x) && !x.Acquire? && !x.Recover? && !x.Crash? && !x.Fail?
      && !(x.Go? && (p.WUnlock? || LeavesRead(p)))
      && (Q.HoldsW(p) ==> S.At(s.w, x.who).In?) && (Q.HoldsR(p) ==> S.At(s.r, x.who).In?)
    case Death(t) => S.Enabled(s.w, S.Die(t)) && S.Enabled(s.r, S.Die(t))
  }

  /** The exact condition of recovery, for whichever locks the step is one of. */
  predicate Harmless(s: State, st: Step) {
    match st
    case OnWriteLock(x) => S.Harmless(s.w, x)
    case OnReadLock(x) => S.Harmless(s.r, x)
    case OnQueue(_) => true
    case Death(t) => S.Harmless(s.w, S.Die(t)) && S.Harmless(s.r, S.Die(t))
  }

  predicate Enabled(c: Q.Config, s: State, st: Step) { Possible(c, s, st) && Harmless(s, st) }

  /** The timing rule in place of it wherever a sleeper looks again. */
  predicate OnTime(s: State, st: Step) {
    match st
    case OnWriteLock(x) => S.Timely(s.w, x) && (!x.Recheck? ==> S.Harmless(s.w, x))
    case OnReadLock(x) => S.Timely(s.r, x) && (!x.Recheck? ==> S.Harmless(s.r, x))
    case _ => Harmless(s, st)
  }

  function Do(c: Q.Config, s: State, st: Step): State
    requires c.n > 0 && Possible(c, s, st)
  {
    match st
    case OnWriteLock(x) => State(Beside(c, s.q, PartnerOf(s.w, x)), S.Do(s.w, x), s.r)
    case OnReadLock(x) => State(Beside(c, s.q, PartnerOf(s.r, x)), s.w, S.Do(s.r, x))
    case OnQueue(x) => s.(q := Q.Do(c, s.q, x))
    case Death(t) => State(Q.Try(c, s.q, Q.Crash(t)), S.Do(s.w, S.Die(t)), S.Do(s.r, S.Die(t)))
  }

  function Init(c: Q.Config): State { State(Q.Init(c), S.INIT, S.INIT) }

  function Exec(c: Q.Config, steps: seq<Step>): State
    requires c.n > 0
  {
    if steps == [] then Init(c)
    else
      var s := Exec(c, steps[..|steps| - 1]);
      var st := steps[|steps| - 1];
      if Enabled(c, s, st) then Do(c, s, st) else s
  }

  // ---- where a thread stands in all three

  predicate InWait(x: S.Pc) { x.Waiting? || x.SelfTest? || x.Load? || x.Probe? || x.Claim? || x.Asleep? }

  predicate Linked(p: Q.Pc, x: S.Pc, y: S.Pc) {
    && (Q.HoldsW(p) <==> S.Holding(x)) && (Q.HoldsR(p) <==> S.Holding(y))
    && (InWait(x) ==> p.WLock?) && (InWait(y) ==> WantsRead(p))
    && (p.Dead? <==> x.Dead?) && (p.Dead? <==> y.Dead?)
  }

  ghost predicate AllLinked(s: State) { forall t :: Linked(Q.At(s.q, t), S.At(s.w, t), S.At(s.r, t)) }

  /** The queue's counts are those of its locks. */
  ghost predicate Counted(s: State) {
    && s.q.semWrite == s.w.value && s.q.lostWrite == s.w.losses - s.w.steals
    && s.q.semRead == s.r.value && s.q.lostRead == s.r.losses - s.r.steals
  }

  ghost predicate Together(c: Q.Config, s: State)
    requires c.n > 0
  {
    Q.Reachable(c, s.q) && S.Good(s.w) && S.Good(s.r) && AllLinked(s) && Counted(s)
  }

  // ---- one lock beside the queue

  /** A lock that is had by somebody, or that nobody has, stands at zero. */
  lemma TakenIsZero(s: S.State, t: Tid)
    requires S.Good(s)
    ensures S.Holding(S.At(s, t)) ==> s.value == 0
    ensures S.At(s, t).Asleep? && s.cell == t ==> s.losses == s.steals + 1
  {
    if S.Holding(S.At(s, t)) { assert t in S.Holders(s); }
  }

  /** The queue is always ready for what its write lock does. */
  lemma WriteLockFits(c: Q.Config, s: State, x: S.Step)
    requires c.n > 0 && S.Good(s.w) && AllLinked(s) && Counted(s) && Enabled(c, s, OnWriteLock(x))
    ensures PartnerOf(s.w, x).Partner? ==> Q.Enabled(c, s.q, PartnerOf(s.w, x).st) && Q.Sound(s.q, PartnerOf(s.w, x).st)
  {
    assert Linked(Q.At(s.q, x.who), S.At(s.w, x.who), S.At(s.r, x.who));
    TakenIsZero(s.w, x.who);
  }

  lemma ReadLockFits(c: Q.Config, s: State, x: S.Step)
    requires c.n > 0 && S.Good(s.r) && AllLinked(s) && Counted(s) && Enabled(c, s, OnReadLock(x))
    ensures PartnerOf(s.r, x).Partner? ==> Q.Enabled(c, s.q, PartnerOf(s.r, x).st) && Q.Sound(s.q, PartnerOf(s.r, x).st)
  {
    assert Linked(Q.At(s.q, x.who), S.At(s.w, x.who), S.At(s.r, x.who));
    TakenIsZero(s.r, x.who);
  }

  /** After its own step a thread still stands where it should, and the counts agree. */
  ghost predicate Fits(s: State, t: Tid) { Counted(s) && Linked(Q.At(s.q, t), S.At(s.w, t), S.At(s.r, t)) }

  lemma WriteLockAlone(c: Q.Config, s: State, x: S.Step)
    requires c.n > 0 && Fits(s, x.who) && Enabled(c, s, OnWriteLock(x)) && PartnerOf(s.w, x).Nothing?
    ensures Fits(Do(c, s, OnWriteLock(x)), x.who)
  {
  }

  lemma WriteLockTaken(c: Q.Config, s: State, x: S.Step)
    requires c.n > 0 && Fits(s, x.who) && Enabled(c, s, OnWriteLock(x)) && x.Take? && PartnerOf(s.w, x).Partner?
    requires Q.Enabled(c, s.q, PartnerOf(s.w, x).st) && Q.Sound(s.q, PartnerOf(s.w, x).st)
    ensures Fits(Do(c, s, OnWriteLock(x)), x.who)
  {
  }

  lemma WriteLockRecovered(c: Q.Config, s: State, x: S.Step)
    requires c.n > 0 && Fits(s, x.who) && Enabled(c, s, OnWriteLock(x)) && x.Recheck? && PartnerOf(s.w, x).Partner?
    requires Q.Enabled(c, s.q, PartnerOf(s.w, x).st) && Q.Sound(s.q, PartnerOf(s.w, x).st)
    ensures Fits(Do(c, s, OnWriteLock(x)), x.who)
  {
  }

  lemma WriteLockReleased(c: Q.Config, s: State, x: S.Step)
    requires c.n > 0 && Fits(s, x.who) && Enabled(c, s, OnWriteLock(x)) && x.Release? && PartnerOf(s.w, x).Partner?
    requires s.w.value == 0
    requires Q.Enabled(c, s.q, PartnerOf(s.w, x).st) && Q.Sound(s.q, PartnerOf(s.w, x).st)
    ensures Fits(Do(c, s, OnWriteLock(x)), x.who)
  {
  }

  lemma WriteLockRefused(c: Q.Config, s: State, x: S.Step)
    requires c.n > 0 && Fits(s, x.who) && Enabled(c, s, OnWriteLock(x)) && x.Fail? && PartnerOf(s.w, x).Partner?
    requires Q.Enabled(c, s.q, PartnerOf(s.w, x).st) && Q.Sound(s.q, PartnerOf(s.w, x).st)
    ensures Fits(Do(c, s, OnWriteLock(x)), x.who)
  {
  }

  lemma WriteLockLeaked(c: Q.Config, s: State, x: S.Step)
    requires c.n > 0 && Fits(s, x.who) && Enabled(c, s, OnWriteLock(x)) && x.Leak? && PartnerOf(s.w, x).Partner?
    requires Q.Enabled(c, s.q, PartnerOf(s.w, x).st) && Q.Sound(s.q, PartnerOf(s.w, x).st)
    ensures Fits(Do(c, s, OnWriteLock(x)), x.who)
  {
  }

  lemma WriteLockPaired(c: Q.Config, s: State, x: S.Step)
    requires c.n > 0 && Fits(s, x.who) && Enabled(c, s, OnWriteLock(x)) && PartnerOf(s.w, x).Partner?
    requires Q.Enabled(c, s.q, PartnerOf(s.w, x).st) && Q.Sound(s.q, PartnerOf(s.w, x).st)
    requires x.Release? ==> s.w.value == 0
    ensures Fits(Do(c, s, OnWriteLock(x)), x.who)
  {
    if x.Take? { WriteLockTaken(c, s, x); }
    else if x.Recheck? { WriteLockRecovered(c, s, x); }
    else if x.Release? { WriteLockReleased(c, s, x); }
    else if x.Leak? { WriteLockLeaked(c, s, x); }
    else { WriteLockRefused(c, s, x); }
  }

  lemma WriteLockMoves(c: Q.Config, s: State, x: S.Step)
    requires c.n > 0 && S.Good(s.w) && AllLinked(s) && Counted(s) && Enabled(c, s, OnWriteLock(x))
    ensures Fits(Do(c, s, OnWriteLock(x)), x.who)
  {
    assert Fits(s, x.who);
    TakenIsZero(s.w, x.who);
    if PartnerOf(s.w, x).Nothing? {
      WriteLockAlone(c, s, x);
    } else {
      WriteLockFits(c, s, x);
      WriteLockPaired(c, s, x);
    }
  }

  lemma ReadLockAlone(c: Q.Config, s: State, x: S.Step)
    requires c.n > 0 && Fits(s, x.who) && Enabled(c, s, OnReadLock(x)) && PartnerOf(s.r, x).Nothing?
    ensures Fits(Do(c, s, OnReadLock(x)), x.who)
  {
  }

  lemma ReadLockTaken(c: Q.Config, s: State, x: S.Step)
    requires c.n > 0 && Fits(s, x.who) && Enabled(c, s, OnReadLock(x)) && x.Take? && PartnerOf(s.r, x).Partner?
    requires Q.Enabled(c, s.q, PartnerOf(s.r, x).st) && Q.Sound(s.q, PartnerOf(s.r, x).st)
    ensures Fits(Do(c, s, OnReadLock(x)), x.who)
  {
  }

  lemma ReadLockRecovered(c: Q.Config, s: State, x: S.Step)
    requires c.n > 0 && Fits(s, x.who) && Enabled(c, s, OnReadLock(x)) && x.Recheck? && PartnerOf(s.r, x).Partner?
    requires Q.Enabled(c, s.q, PartnerOf(s.r, x).st) && Q.Sound(s.q, PartnerOf(s.r, x).st)
    ensures Fits(Do(c, s, OnReadLock(x)), x.who)
  {
  }

  /** What giving back the read lock does to the queue. */
  lemma GivesReadBack(c: Q.Config, q: Q.State, t: Tid)
    requires c.n > 0 && LeavesRead(Q.At(q, t)) && q.semRead == 0
    ensures var q' := Q.Try(c, q, Q.Go(t));
      && Q.At(q', t).Idle? && q'.semRead == 1 && q'.lostRead == q.lostRead
      && q'.semWrite == q.semWrite && q'.lostWrite == q.lostWrite
  {
  }

  lemma ReadLockReleased(c: Q.Config, s: State, x: S.Step)
    requires c.n > 0 && Fits(s, x.who) && Enabled(c, s, OnReadLock(x)) && x.Release? && s.r.value == 0
    ensures Fits(Do(c, s, OnReadLock(x)), x.who)
  {
    GivesReadBack(c, s.q, x.who);
  }

  lemma ReadLockRefused(c: Q.Config, s: State, x: S.Step)
    requires c.n > 0 && Fits(s, x.who) && Enabled(c, s, OnReadLock(x)) && x.Fail? && PartnerOf(s.r, x).Partner?
    requires Q.Enabled(c, s.q, PartnerOf(s.r, x).st) && Q.Sound(s.q, PartnerOf(s.r, x).st)
    ensures Fits(Do(c, s, OnReadLock(x)), x.who)
  {
  }

  lemma ReadLockLeaked(c: Q.Config, s: State, x: S.Step)
    requires c.n > 0 && Fits(s, x.who) && Enabled(c, s, OnReadLock(x)) && x.Leak? && PartnerOf(s.r, x).Partner?
    requires Q.Enabled(c, s.q, PartnerOf(s.r, x).st) && Q.Sound(s.q, PartnerOf(s.r, x).st)
    ensures Fits(Do(c, s, OnReadLock(x)), x.who)
  {
  }

  lemma ReadLockPaired(c: Q.Config, s: State, x: S.Step)
    requires c.n > 0 && Fits(s, x.who) && Enabled(c, s, OnReadLock(x)) && PartnerOf(s.r, x).Partner?
    requires Q.Enabled(c, s.q, PartnerOf(s.r, x).st) && Q.Sound(s.q, PartnerOf(s.r, x).st)
    requires x.Release? ==> s.r.value == 0
    ensures Fits(Do(c, s, OnReadLock(x)), x.who)
  {
    if x.Take? { ReadLockTaken(c, s, x); }
    else if x.Recheck? { ReadLockRecovered(c, s, x); }
    else if x.Release? { ReadLockReleased(c, s, x); }
    else if x.Leak? { ReadLockLeaked(c, s, x); }
    else { ReadLockRefused(c, s, x); }
  }

  lemma ReadLockMoves(c: Q.Config, s: State, x: S.Step)
    requires c.n > 0 && S.Good(s.r) && AllLinked(s) && Counted(s) && Enabled(c, s, OnReadLock(x))
    ensures Fits(Do(c, s, OnReadLock(x)), x.who)
  {
    assert Fits(s, x.who);
    TakenIsZero(s.r, x.who);
    if PartnerOf(s.r, x).Nothing? {
      ReadLockAlone(c, s, x);
    } else {
      ReadLockFits(c, s, x);
      ReadLockPaired(c, s, x);
    }
  }

  // ---- the queue beside its locks, and deaths

  /** Between taking and giving back its lock a program moves no token of either lock. */
  ghost predicate KeepsLocks(q: Q.State, q': Q.State, t: Tid) {
    && (Q.HoldsW(Q.At(q', t)) <==> Q.HoldsW(Q.At(q, t))) && (Q.HoldsR(Q.At(q', t)) <==> Q.HoldsR(Q.At(q, t)))
    && !Q.At(q', t).Dead?
    && q'.semWrite == q.semWrite && q'.lostWrite == q.lostWrite && q'.semRead == q.semRead && q'.lostRead == q.lostRead
  }

  lemma WriteKeepsLocks(c: Q.Config, q: Q.State, t: Tid)
    requires c.n > 0 && Q.InWrite(Q.At(q, t)) && !Q.At(q, t).WUnlock?
    ensures KeepsLocks(q, Q.WriteGo(c, q, t), t)
  {
  }

  lemma ReadKeepsLocks(c: Q.Config, q: Q.State, t: Tid)
    requires c.n > 0 && Q.InRead(Q.At(q, t)) && !LeavesRead(Q.At(q, t))
    ensures KeepsLocks(q, Q.ReadGo(c, q, t), t)
  {
  }

  lemma ClearKeepsLocks(c: Q.Config, q: Q.State, t: Tid)
    requires c.n > 0 && Q.InClear(Q.At(q, t)) && !LeavesRead(Q.At(q, t))
    ensures KeepsLocks(q, Q.ClearGo(c, q, t), t)
  {
  }

  lemma GoKeepsLocks(c: Q.Config, q: Q.State, t: Tid)
    requires c.n > 0 && Q.Straight(Q.At(q, t)) && !Q.At(q, t).WUnlock? && !LeavesRead(Q.At(q, t))
    ensures KeepsLocks(q, Q.GoState(c, q, t), t)
  {
    if Q.InWrite(Q.At(q, t)) { WriteKeepsLocks(c, q, t); }
    else if Q.InRead(Q.At(q, t)) { ReadKeepsLocks(c, q, t); }
    else { ClearKeepsLocks(c, q, t); }
  }

  lemma StraightMoves(c: Q.Config, s: State, t: Tid)
    requires c.n > 0 && Fits(s, t) && Enabled(c, s, OnQueue(Q.Go(t)))
    ensures Fits(Do(c, s, OnQueue(Q.Go(t))), t)
  {
    GoKeepsLocks(c, s.q, t);
  }

  lemma BeginMoves(c: Q.Config, s: State, op: Q.Step)
    requires c.n > 0 && Fits(s, op.who) && Enabled(c, s, OnQueue(op))
    requires (op.BeginWrite? || op.BeginRead? || op.BeginClear?)
    ensures Fits(Do(c, s, OnQueue(op)), op.who)
  {
  }

  lemma CheckMoves(c: Q.Config, s: State, op: Q.Step)
    requires c.n > 0 && Fits(s, op.who) && Enabled(c, s, OnQueue(op)) && (op.LoadHead? || op.LoadTail? || op.Decide?)
    ensures Fits(Do(c, s, OnQueue(op)), op.who)
  {
  }

  lemma WakeMoves(c: Q.Config, s: State, op: Q.Step)
    requires c.n > 0 && Fits(s, op.who) && Enabled(c, s, OnQueue(op)) && (op.Wake? || op.Spurious?)
    ensures Fits(Do(c, s, OnQueue(op)), op.who)
  {
  }

  lemma QueueMoves(c: Q.Config, s: State, op: Q.Step)
    requires c.n > 0 && Fits(s, op.who) && Enabled(c, s, OnQueue(op))
    ensures Fits(Do(c, s, OnQueue(op)), op.who)
  {
    if op.Go? { StraightMoves(c, s, op.who); }
    else if op.BeginWrite? || op.BeginRead? || op.BeginClear? { BeginMoves(c, s, op); }
    else if op.Wake? || op.Spurious? { WakeMoves(c, s, op); }
    else { CheckMoves(c, s, op); }
  }

  lemma CrashCounts(c: Q.Config, q: Q.State, t: Tid)
    requires c.n > 0 && !Q.At(q, t).Dead?
    ensures var q', p := Q.Try(c, q, Q.Crash(t)), Q.At(q, t);
      && Q.At(q', t).Dead? && q'.semWrite == q.semWrite && q'.semRead == q.semRead
      && q'.lostWrite == q.lostWrite + Count(Q.HoldsW(p)) && q'.lostRead == q.lostRead + Count(Q.HoldsR(p))
  {
  }

  lemma DeathMoves(c: Q.Config, s: State, t: Tid)
    requires c.n > 0 && Fits(s, t) && Enabled(c, s, Death(t))
    ensures Fits(Do(c, s, Death(t)), t)
  {
    CrashCounts(c, s.q, t);
  }

  // ---- the whole

  function Who(st: Step): Tid {
    match st
    case OnWriteLock(x) => x.who
    case OnReadLock(x) => x.who
    case OnQueue(op) => op.who
    case Death(t) => t
  }

  /** A thread that does not act stands still in all three. */
  lemma OthersStand(c: Q.Config, s: State, st: Step, u: Tid)
    requires c.n > 0 && Enabled(c, s, st) && u != Who(st)
    ensures var s' := Do(c, s, st);
      Q.At(s'.q, u) == Q.At(s.q, u) && S.At(s'.w, u) == S.At(s.w, u) && S.At(s'.r, u) == S.At(s.r, u)
  {
    match st {
      case OnWriteLock(x) => S.NextPc(s.w, x); BesideStands(c, s.q, PartnerOf(s.w, x), x.who, u);
      case OnReadLock(x) => S.NextPc(s.r, x); BesideStands(c, s.q, PartnerOf(s.r, x), x.who, u);
      case OnQueue(op) => QueueSafety.Footprint(c, s.q, op);
      case Death(t) =>
        S.NextPc(s.w, S.Die(t));
        S.NextPc(s.r, S.Die(t));
        BesideStands(c, s.q, Partner(Q.Crash(t)), t, u);
    }
  }

  lemma BesideStands(c: Q.Config, q: Q.State, p: Partner, t: Tid, u: Tid)
    requires c.n > 0 && u != t && (p.Partner? ==> p.st.who == t)
    ensures Q.At(Beside(c, q, p), u) == Q.At(q, u)
  {
    if p.Partner? && Q.Enabled(c, q, p.st) { QueueSafety.Footprint(c, q, p.st); }
  }

  lemma TryReach(c: Q.Config, q: Q.State, st: Q.Step)
    requires c.n > 0 && Q.Reachable(c, q)
    ensures Q.Reachable(c, Q.Try(c, q, st))
  {
    var steps :| q == Q.Exec(c, Q.Init(c), steps);
    assert (steps + [st])[..|steps + [st]| - 1] == steps;
    assert Q.Exec(c, Q.Init(c), steps + [st]) == Q.Try(c, q, st);
  }

  lemma Reaches(c: Q.Config, s: State, st: Step)
    requires c.n > 0 && Q.Reachable(c, s.q) && Enabled(c, s, st)
    ensures Q.Reachable(c, Do(c, s, st).q)
  {
    match st {
      case OnWriteLock(x) => if PartnerOf(s.w, x).Partner? { TryReach(c, s.q, PartnerOf(s.w, x).st); }
      case OnReadLock(x) => if PartnerOf(s.r, x).Partner? { TryReach(c, s.q, PartnerOf(s.r, x).st); }
      case OnQueue(op) => TryReach(c, s.q, op);
      case Death(t) => TryReach(c, s.q, Q.Crash(t));
    }
  }

  lemma LocksStayGood(c: Q.Config, s: State, st: Step)
    requires c.n > 0 && S.Good(s.w) && S.Good(s.r) && Enabled(c, s, st)
    ensures S.Good(Do(c, s, st).w) && S.Good(Do(c, s, st).r)
  {
    match st {
      case OnWriteLock(x) => S.GoodStep(s.w, x);
      case OnReadLock(x) => S.GoodStep(s.r, x);
      case OnQueue(_) =>
      case Death(t) => S.GoodStep(s.w, S.Die(t)); S.GoodStep(s.r, S.Die(t));
    }
  }

  lemma ActorFits(c: Q.Config, s: State, st: Step)
    requires c.n > 0 && S.Good(s.w) && S.Good(s.r) && AllLinked(s) && Counted(s) && Enabled(c, s, st)
    ensures Fits(Do(c, s, st), Who(st))
  {
    assert Fits(s, Who(st));
    match st {
      case OnWriteLock(x) => WriteLockMoves(c, s, x);
      case OnReadLock(x) => ReadLockMoves(c, s, x);
      case OnQueue(op) => QueueMoves(c, s, op);
      case Death(t) => DeathMoves(c, s, t);
    }
  }

  lemma TogetherStep(c: Q.Config, s: State, st: Step)
    requires c.n > 0 && Together(c, s) && Enabled(c, s, st)
    ensures Together(c, Do(c, s, st))
  {
    var s' := Do(c, s, st);
    Reaches(c, s, st);
    LocksStayGood(c, s, st);
    ActorFits(c, s, st);
    forall u
      ensures Linked(Q.At(s'.q, u), S.At(s'.w, u), S.At(s'.r, u))
    {
      assert Linked(Q.At(s.q, u), S.At(s.w, u), S.At(s.r, u));
      if u != Who(st) { OthersStand(c, s, st, u); }
    }
  }

  lemma TogetherInit(c: Q.Config)
    requires c.n > 0
    ensures Together(c, Init(c))
  {
    S.NewIsGood();
    assert Q.Exec(c, Q.Init(c), []) == Q.Init(c);
  }

  /**
   Over the real locks the queue does nothing it could not do over the abstract ones: with any number of threads, and
   deaths and recoveries that are harmless to the locks, the queue's part is a run of its own step system, the locks'
   counts are those it sees, and its messages stay in order.
   */
  lemma {:induction false} RunsAreQueueRuns(c: Q.Config, steps: seq<Step>)
    requires c.n > 0
    ensures Together(c, Exec(c, steps)) && QueueRuns.InOrder(c, Exec(c, steps).q)
  {
    if steps == [] {
      TogetherInit(c);
    } else {
      var s, st := Exec(c, steps[..|steps| - 1]), steps[|steps| - 1];
      RunsAreQueueRuns(c, steps[..|steps| - 1]);
      if Enabled(c, s, st) { TogetherStep(c, s, st); }
    }
    QueueSafety.InvReachable(c, Exec(c, steps).q);
    QueueRuns.InvInOrder(c, Exec(c, steps).q);
  }

  /** And the queue never holds a lock back: each step of either lock finds the queue ready for its part in it. */
  lemma LocksAreNotHeldBack(c: Q.Config, steps: seq<Step>, x: S.Step)
    requires c.n > 0
    ensures var s := Exec(c, steps); var p := PartnerOf(s.w, x);
      Enabled(c, s, OnWriteLock(x)) && p.Partner? ==> Q.Enabled(c, s.q, p.st) && Q.Sound(s.q, p.st)
    ensures var s := Exec(c, steps); var p := PartnerOf(s.r, x);
      Enabled(c, s, OnReadLock(x)) && p.Partner? ==> Q.Enabled(c, s.q, p.st) && Q.Sound(s.q, p.st)
  {
    var s := Exec(c, steps);
    RunsAreQueueRuns(c, steps);
    if Enabled(c, s, OnWriteLock(x)) { WriteLockFits(c, s, x); }
    if Enabled(c, s, OnReadLock(x)) { ReadLockFits(c, s, x); }
  }

  // ---- the timing rule is enough

  function ExecOnTime(c: Q.Config, steps: seq<Step>): State
    requires c.n > 0
  {
    if steps == [] then Init(c)
    else
      var s := ExecOnTime(c, steps[..|steps| - 1]);
      var st := steps[|steps| - 1];
      if Possible(c, s, st) && OnTime(s, st) then Do(c, s, st) else s
  }

  lemma OnTimeIsHarmless(c: Q.Config, s: State, st: Step)
    requires S.Listed(s.w) && S.Listed(s.r) && Possible(c, s, st) && OnTime(s, st)
    ensures Harmless(s, st)
  {
    match st {
      case OnWriteLock(x) => if x.Recheck? { S.TimelyIsHarmless(s.w, x); }
      case OnReadLock(x) => if x.Recheck? { S.TimelyIsHarmless(s.r, x); }
      case OnQueue(_) =>
      case Death(_) =>
    }
  }

  lemma StayListed(c: Q.Config, s: State, st: Step)
    requires c.n > 0 && S.Listed(s.w) && S.Listed(s.r) && Possible(c, s, st)
    ensures S.Listed(Do(c, s, st).w) && S.Listed(Do(c, s, st).r)
  {
    match st {
      case OnWriteLock(x) => S.ListedStep(s.w, x);
      case OnReadLock(x) => S.ListedStep(s.r, x);
      case OnQueue(_) =>
      case Death(t) => S.ListedStep(s.w, S.Die(t)); S.ListedStep(s.r, S.Die(t));
    }
  }

  /** The same when sleepers only keep to the timing rule, and all else is harmless. */
  lemma {:induction false} TimedRunsAreQueueRuns(c: Q.Config, steps: seq<Step>)
    requires c.n > 0
    ensures var s := ExecOnTime(c, steps);
      Together(c, s) && S.Listed(s.w) && S.Listed(s.r) && QueueRuns.InOrder(c, s.q)
  {
    if steps == [] {
      TogetherInit(c);
    } else {
      var s, st := ExecOnTime(c, steps[..|steps| - 1]), steps[|steps| - 1];
      TimedRunsAreQueueRuns(c, steps[..|steps| - 1]);
      if Possible(c, s, st) && OnTime(s, st) {
        OnTimeIsHarmless(c, s, st);
        StayListed(c, s, st);
        TogetherStep(c, s, st);
      }
    }
    QueueSafety.InvReachable(c, ExecOnTime(c, steps).q);
    QueueRuns.InvInOrder(c, ExecOnTime(c, steps).q);
  }
}
