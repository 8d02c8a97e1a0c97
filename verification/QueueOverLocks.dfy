/**
 The other direction of the refinement: whatever the queue does over its abstract locks without deaths it can do over
 the real ones, each lock step made of the waits, takes and publications behind it.
 */
module QueueOverLocks {
  import opened Basics
  import Q = QueueMachine
  import S = SemaphoreRecovery
  import opened QueueRecovery

  ghost predicate Reached(c: Q.Config, s: State)
    requires c.n > 0
  {
    exists steps :: s == Exec(c, steps)
  }

  lemma ReachedNext(c: Q.Config, s: State, st: Step) returns (s': State)
    requires c.n > 0 && Reached(c, s) && Enabled(c, s, st)
    ensures s' == Do(c, s, st) && Reached(c, s')
  {
    s' := Do(c, s, st);
    var steps :| s == Exec(c, steps);
    assert (steps + [st])[..|steps + [st]| - 1] == steps;
    assert s' == Exec(c, steps + [st]);
  }

  lemma ReachedFits(c: Q.Config, s: State, t: Tid)
    requires c.n > 0 && Reached(c, s)
    ensures Fits(s, t)
  {
    var steps :| s == Exec(c, steps);
    RunsAreQueueRuns(c, steps);
  }

  /** Nobody alive is inside a Wait or between taking a lock and publishing himself. */
  predicate Rests(x: S.Pc) { x.Out? || x.In? || x.Dead? }

  ghost predicate AtRest(s: State) { forall t :: Rests(S.At(s.w, t)) && Rests(S.At(s.r, t)) }

  lemma StillAtRest(s: State, s': State, t: Tid)
    requires AtRest(s) && s'.w.pc == s.w.pc[t := S.At(s'.w, t)] && s'.r == s.r && Rests(S.At(s'.w, t))
    ensures AtRest(s')
  {
    assert forall u :: u != t ==> S.At(s'.w, u) == S.At(s.w, u);
  }

  lemma StillAtRestToo(s: State, s': State, t: Tid)
    requires AtRest(s) && s'.r.pc == s.r.pc[t := S.At(s'.r, t)] && s'.w == s.w && Rests(S.At(s'.r, t))
    ensures AtRest(s')
  {
    assert forall u :: u != t ==> S.At(s'.r, u) == S.At(s.r, u);
  }

  lemma WriteAcquires(c: Q.Config, s: State, t: Tid) returns (s': State)
    requires c.n > 0 && Reached(c, s) && AtRest(s) && t != 0 && Q.At(s.q, t).WLock? && Q.Enabled(c, s.q, Q.Acquire(t))
    ensures Reached(c, s') && AtRest(s') && s'.q == Q.Do(c, s.q, Q.Acquire(t))
  {
    ReachedFits(c, s, t);
    s' := ReachedNext(c, s, OnWriteLock(S.Enter(t)));
    s' := ReachedNext(c, s', OnWriteLock(S.Take(t)));
    s' := ReachedNext(c, s', OnWriteLock(S.Publish(t)));
    StillAtRest(s, s', t);
  }

  lemma ReadAcquires(c: Q.Config, s: State, t: Tid) returns (s': State)
    requires c.n > 0 && Reached(c, s) && AtRest(s) && t != 0 && WantsRead(Q.At(s.q, t))
    requires Q.Enabled(c, s.q, Q.Acquire(t))
    ensures Reached(c, s') && AtRest(s') && s'.q == Q.Do(c, s.q, Q.Acquire(t))
  {
    ReachedFits(c, s, t);
    s' := ReachedNext(c, s, OnReadLock(S.Enter(t)));
    s' := ReachedNext(c, s', OnReadLock(S.Take(t)));
    s' := ReachedNext(c, s', OnReadLock(S.Publish(t)));
    StillAtRestToo(s, s', t);
  }

  lemma WriteReleases(c: Q.Config, s: State, t: Tid) returns (s': State)
    requires c.n > 0 && Reached(c, s) && AtRest(s) && t != 0 && Q.At(s.q, t).WUnlock?
    ensures Reached(c, s') && AtRest(s') && s'.q == Q.Do(c, s.q, Q.Go(t))
  {
    ReachedFits(c, s, t);
    s' := ReachedNext(c, s, OnWriteLock(S.Release(t)));
    StillAtRest(s, s', t);
  }

  lemma ReadReleases(c: Q.Config, s: State, t: Tid) returns (s': State)
    requires c.n > 0 && Reached(c, s) && AtRest(s) && t != 0 && LeavesRead(Q.At(s.q, t))
    ensures Reached(c, s') && AtRest(s') && s'.q == Q.Do(c, s.q, Q.Go(t))
  {
    ReachedFits(c, s, t);
    s' := ReachedNext(c, s, OnReadLock(S.Release(t)));
    StillAtRestToo(s, s', t);
  }

  lemma WriteFails(c: Q.Config, s: State, t: Tid) returns (s': State)
    requires c.n > 0 && Reached(c, s) && AtRest(s) && t != 0 && (Q.At(s.q, t).WLock? || Q.At(s.q, t).WWait?)
    ensures Reached(c, s') && AtRest(s') && s'.q == Q.Do(c, s.q, Q.Fail(t))
  {
    ReachedFits(c, s, t);
    if Q.At(s.q, t).WLock? {
      s' := ReachedNext(c, s, OnWriteLock(S.Enter(t)));
      s' := ReachedNext(c, s', OnWriteLock(S.Fail(t)));
    } else {
      s' := ReachedNext(c, s, OnWriteLock(S.Leak(t)));
    }
    StillAtRest(s, s', t);
  }

  lemma ReadFails(c: Q.Config, s: State, t: Tid) returns (s': State)
    requires c.n > 0 && Reached(c, s) && AtRest(s) && t != 0 && (Q.At(s.q, t).RLock? || Q.At(s.q, t).RWait?)
    ensures Reached(c, s') && AtRest(s') && s'.q == Q.Do(c, s.q, Q.Fail(t))
  {
    ReachedFits(c, s, t);
    if Q.At(s.q, t).RLock? {
      s' := ReachedNext(c, s, OnReadLock(S.Enter(t)));
      s' := ReachedNext(c, s', OnReadLock(S.Fail(t)));
    } else {
      s' := ReachedNext(c, s, OnReadLock(S.Leak(t)));
    }
    StillAtRestToo(s, s', t);
  }

  /** Steps that are no lock's business. */
  predicate QueueOnly(q: Q.State, op: Q.Step) {
    && !op.Acquire? && !op.Recover? && !op.Crash? && !op.Fail?
    && !(op.Go? && (Q.At(q, op.who).WUnlock? || LeavesRead(Q.At(q, op.who))))
  }

  lemma QueueSteps(c: Q.Config, s: State, op: Q.Step) returns (s': State)
    requires c.n > 0 && Reached(c, s) && AtRest(s) && Q.Enabled(c, s.q, op) && QueueOnly(s.q, op)
    ensures Reached(c, s') && AtRest(s') && s'.q == Q.Do(c, s.q, op)
  {
    ReachedFits(c, s, op.who);
    s' := ReachedNext(c, s, OnQueue(op));
  }

  /** A death that both locks can bear. */
  lemma Dies(c: Q.Config, s: State, t: Tid) returns (s': State)
    requires c.n > 0 && Reached(c, s) && AtRest(s) && Enabled(c, s, Death(t)) && Q.Enabled(c, s.q, Q.Crash(t))
    ensures Reached(c, s') && AtRest(s') && s'.q == Q.Do(c, s.q, Q.Crash(t))
  {
    s' := ReachedNext(c, s, Death(t));
    assert forall u :: u != t ==> S.At(s'.w, u) == S.At(s.w, u) && S.At(s'.r, u) == S.At(s.r, u);
  }

  // ---- taking over a lost lock

  /** The token of this lock is gone with its holder, which is dead. */
  ghost predicate Lost(l: S.State) { S.Good(l) && S.Tokens(l) == 0 && !S.Exists(l, l.cell) }

  ghost predicate OnlyWaiter(l: S.State, t: Tid) { forall u :: u != t ==> Rests(S.At(l, u)) }

  lemma LostIs(c: Q.Config, s: State)
    requires c.n > 0 && Reached(c, s)
    ensures s.q.lostWrite > 0 && !S.Exists(s.w, s.w.cell) ==> Lost(s.w)
    ensures s.q.lostRead > 0 && !S.Exists(s.r, s.r.cell) ==> Lost(s.r)
  {
    var steps :| s == Exec(c, steps);
    RunsAreQueueRuns(c, steps);
  }

  /** The lock with one thread of it elsewhere. */
  ghost predicate MovedTo(l: S.State, l': S.State, t: Tid, x: S.Pc) { l' == l.(pc := l.pc[t := x], owed := l'.owed) }

  lemma KeepsLost(l: S.State, l': S.State, t: Tid, x: S.Pc)
    requires Lost(l) && MovedTo(l, l', t, x) && !S.Holding(x) && !x.Dead? && t != 0 && !S.At(l, t).Dead?
    ensures Lost(l') && (OnlyWaiter(l, t) ==> OnlyWaiter(l', t))
  {
    S.HoldersUpdate(l, t, x, l');
    assert t !in S.Holders(l);
    assert forall u :: u != t ==> S.At(l', u) == S.At(l, u);
  }

  /** From the wait to the load of the published id. */
  lemma WriteWaitsOut(c: Q.Config, s: State, t: Tid) returns (s': State)
    requires c.n > 0 && Reached(c, s) && t != 0 && Q.At(s.q, t).WLock? && S.At(s.w, t).Out? && s.w.cell != t
    ensures Reached(c, s') && s'.q == s.q && s'.r == s.r && MovedTo(s.w, s'.w, t, S.Load)
  {
    s' := ReachedNext(c, s, OnWriteLock(S.Enter(t)));
    s' := ReachedNext(c, s', OnWriteLock(S.TimeOut(t)));
    s' := ReachedNext(c, s', OnWriteLock(S.TestSelf(t, false)));
    assert s'.w.pc == s.w.pc[t := S.Load];
  }

  /** And on to the write of one's own, with a dead owner published. */
  lemma WriteLooks(c: Q.Config, s: State, t: Tid) returns (s': State)
    requires c.n > 0 && Reached(c, s) && t != 0 && Q.At(s.q, t).WLock? && S.At(s.w, t).Out? && Lost(s.w)
    ensures Reached(c, s') && s'.q == s.q && s'.r == s.r && MovedTo(s.w, s'.w, t, S.Claim)
  {
    var s1 := WriteWaitsOut(c, s, t);
    KeepsLost(s.w, s1.w, t, S.Load);
    s' := ReachedNext(c, s1, OnWriteLock(S.LoadCell(t)));
    s' := ReachedNext(c, s', OnWriteLock(S.ProbeOwner(t, false)));
    assert s'.w.pc == s.w.pc[t := S.Claim];
  }

  lemma ReadWaitsOut(c: Q.Config, s: State, t: Tid) returns (s': State)
    requires c.n > 0 && Reached(c, s) && t != 0 && WantsRead(Q.At(s.q, t)) && S.At(s.r, t).Out? && s.r.cell != t
    ensures Reached(c, s') && s'.q == s.q && s'.w == s.w && MovedTo(s.r, s'.r, t, S.Load)
  {
    s' := ReachedNext(c, s, OnReadLock(S.Enter(t)));
    s' := ReachedNext(c, s', OnReadLock(S.TimeOut(t)));
    s' := ReachedNext(c, s', OnReadLock(S.TestSelf(t, false)));
    assert s'.r.pc == s.r.pc[t := S.Load];
  }

  lemma ReadLooks(c: Q.Config, s: State, t: Tid) returns (s': State)
    requires c.n > 0 && Reached(c, s) && t != 0 && WantsRead(Q.At(s.q, t)) && S.At(s.r, t).Out? && Lost(s.r)
    ensures Reached(c, s') && s'.q == s.q && s'.w == s.w && MovedTo(s.r, s'.r, t, S.Claim)
  {
    var s1 := ReadWaitsOut(c, s, t);
    KeepsLost(s.r, s1.r, t, S.Load);
    s' := ReachedNext(c, s1, OnReadLock(S.LoadCell(t)));
    s' := ReachedNext(c, s', OnReadLock(S.ProbeOwner(t, false)));
    assert s'.r.pc == s.r.pc[t := S.Claim];
  }

  lemma NoOpenWindow(l: S.State, t: Tid)
    requires OnlyWaiter(l, t) && S.At(l, t).Asleep?
    ensures S.Open(l) == {}
  {
    assert forall u :: u in l.pc ==> l.pc[u] == S.At(l, u);
  }

  lemma WriteTakesOver(c: Q.Config, s: State, t: Tid) returns (s': State)
    requires c.n > 0 && Reached(c, s) && t != 0 && S.At(s.w, t).Claim? && OnlyWaiter(s.w, t)
    requires Q.Enabled(c, s.q, Q.Recover(t)) && Q.At(s.q, t).WLock?
    ensures Reached(c, s') && s'.q == Q.Do(c, s.q, Q.Recover(t)) && s'.r == s.r && s'.w.pc == s.w.pc[t := S.In]
  {
    var s1 := ReachedNext(c, s, OnWriteLock(S.WriteClaim(t)));
    assert forall u :: u != t ==> S.At(s1.w, u) == S.At(s.w, u);
    NoOpenWindow(s1.w, t);
    s' := ReachedNext(c, s1, OnWriteLock(S.Recheck(t, false)));
  }

  lemma ReadTakesOver(c: Q.Config, s: State, t: Tid) returns (s': State)
    requires c.n > 0 && Reached(c, s) && t != 0 && S.At(s.r, t).Claim? && OnlyWaiter(s.r, t)
    requires Q.Enabled(c, s.q, Q.Recover(t)) && WantsRead(Q.At(s.q, t))
    ensures Reached(c, s') && s'.q == Q.Do(c, s.q, Q.Recover(t)) && s'.w == s.w && s'.r.pc == s.r.pc[t := S.In]
  {
    var s1 := ReachedNext(c, s, OnReadLock(S.WriteClaim(t)));
    assert forall u :: u != t ==> S.At(s1.r, u) == S.At(s.r, u);
    NoOpenWindow(s1.r, t);
    s' := ReachedNext(c, s1, OnReadLock(S.Recheck(t, false)));
  }

  lemma WriteRecovers(c: Q.Config, s: State, t: Tid) returns (s': State)
    requires c.n > 0 && Reached(c, s) && AtRest(s) && t != 0 && Q.At(s.q, t).WLock? && s.q.lostWrite > 0
    requires !S.Exists(s.w, s.w.cell)
    ensures Reached(c, s') && AtRest(s') && s'.q == Q.Do(c, s.q, Q.Recover(t))
  {
    ReachedFits(c, s, t);
    LostIs(c, s);
    var s1 := WriteLooks(c, s, t);
    KeepsLost(s.w, s1.w, t, S.Claim);
    s' := WriteTakesOver(c, s1, t);
    StillAtRest(s, s', t);
  }

  lemma ReadRecovers(c: Q.Config, s: State, t: Tid) returns (s': State)
    requires c.n > 0 && Reached(c, s) && AtRest(s) && t != 0 && WantsRead(Q.At(s.q, t)) && s.q.lostRead > 0
    requires !S.Exists(s.r, s.r.cell)
    ensures Reached(c, s') && AtRest(s') && s'.q == Q.Do(c, s.q, Q.Recover(t))
  {
    ReachedFits(c, s, t);
    LostIs(c, s);
    var s1 := ReadLooks(c, s, t);
    KeepsLost(s.r, s1.r, t, S.Claim);
    s' := ReadTakesOver(c, s1, t);
    StillAtRestToo(s, s', t);
  }

  /** A death the locks can bear, and a recovery from an owner that is dead. */
  predicate Bearable(s: State, op: Q.Step) {
    && op.who != 0 && (op.Crash? ==> Harmless(s, Death(op.who)))
    && (op.Recover? ==>
          if Q.At(s.q, op.who).WLock? then !S.Exists(s.w, s.w.cell) else !S.Exists(s.r, s.r.cell))
  }

  /** One step of the queue, and the steps of its locks that make it up. */
  lemma StepOverLocks(c: Q.Config, s: State, op: Q.Step) returns (s': State)
    requires c.n > 0 && Reached(c, s) && AtRest(s) && Bearable(s, op) && Q.Enabled(c, s.q, op) && Q.Sound(s.q, op)
    ensures Reached(c, s') && AtRest(s') && s'.q == Q.Do(c, s.q, op)
  {
    var p, t := Q.At(s.q, op.who), op.who;
    ReachedFits(c, s, t);
    match op {
      case Acquire(_) => if p.WLock? { s' := WriteAcquires(c, s, t); } else { s' := ReadAcquires(c, s, t); }
      case Recover(_) => if p.WLock? { s' := WriteRecovers(c, s, t); } else { s' := ReadRecovers(c, s, t); }
      case Fail(_) => if p.WLock? || p.WWait? { s' := WriteFails(c, s, t); } else { s' := ReadFails(c, s, t); }
      case Crash(_) => s' := Dies(c, s, t);
      case _ =>
        if QueueOnly(s.q, op) { s' := QueueSteps(c, s, op); }
        else if p.WUnlock? { s' := WriteReleases(c, s, t); }
        else { s' := ReadReleases(c, s, t); }
    }
  }

  /** Schedules in which nobody dies, or takes a lost lock over. */
  predicate Calm(ops: seq<Q.Step>) {
    forall i :: 0 <= i < |ops| ==> ops[i].who != 0 && !ops[i].Crash? && !ops[i].Recover?
  }

  /** Every such schedule of the queue is a schedule of the queue over its real locks that leads to the same queue. */
  lemma {:induction false} QueueRunsAreRuns(c: Q.Config, ops: seq<Q.Step>) returns (s: State)
    requires c.n > 0 && Calm(ops)
    ensures Reached(c, s) && AtRest(s) && s.q == Q.Exec(c, Q.Init(c), ops)
  {
    if ops == [] {
      s := Init(c);
      assert s == Exec(c, []);
    } else {
      s := QueueRunsAreRuns(c, ops[..|ops| - 1]);
      var op := ops[|ops| - 1];
      if Q.Enabled(c, s.q, op) && Q.Sound(s.q, op) { s := StepOverLocks(c, s, op); }
    }
  }
}
