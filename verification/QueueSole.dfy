/** What a sole producer and a sole consumer may rely on across the unlocked checks of asynchronous mode. */
module QueueSole {
  import opened Basics
  import opened RingMath
  import opened QueueMachine
  import opened QueueSafety

  ghost predicate OnlyWriter(s: State, p: Tid) { forall u :: u in s.pc && u != p ==> !IsWriter(s.pc[u]) }

  ghost predicate OnlyConsumer(s: State, q: Tid) { forall u :: u in s.pc && u != q ==> !IsConsumer(s.pc[u]) }

  /** What the sole producer knows: once its unlocked check has passed there is room for it. */
  ghost predicate ProducerLocal(c: Config, s: State, p: Pc)
    requires c.n > 0
  {
    match p
    case WAsync(_, h, t) => WriterSamples(c, s, h, t)
    case WLock(_, nb) => nb ==> Room(c, s)
    case WCheck(_, nb, h, t) => nb ==> Room(c, s) && (t.Read? ==> |s.written| - t.at <= c.n - 2)
    case WWait(_, nb) => !nb
    case _ => true
  }

  ghost predicate Producer(c: Config, s: State, p: Tid)
    requires c.n > 0
  {
    Inv(c, s) && OnlyWriter(s, p) && s.lostWrite == 0 && ProducerLocal(c, s, At(s, p))
  }

  /** Nobody else writes, and no inner wake-up wait of the producer fails, which would leave with the lock. */
  predicate ProducerMay(s: State, st: Step, p: Tid) {
    (st.BeginWrite? ==> st.who == p) && (st == Fail(p) ==> !At(s, p).WWait?)
  }

  ghost predicate ProducerSchedule(c: Config, s: State, steps: seq<Step>, p: Tid)
    requires c.n > 0
  {
    forall i :: 0 <= i < |steps| ==> ProducerMay(Exec(c, s, steps[..i]), steps[i], p)
  }

  /** A producer that has died makes no claim any more. */
  ghost predicate ProducerOrDead(c: Config, s: State, p: Tid)
    requires c.n > 0
  {
    Inv(c, s) && OnlyWriter(s, p) && (At(s, p).Dead? || Producer(c, s, p))
  }

  /** The unlocked check is as good as the locked one when the head cannot move. */
  lemma ProducerDecides(c: Config, s: State, p: Tid)
    requires c.n > 0 && Producer(c, s, p) && Enabled(c, s, Decide(p)) && IsWriter(At(s, p))
    ensures ProducerLocal(c, s, DecidePc(c, At(s, p)))
  {
    var x := At(s, p);
    assert Local(c, s, x);
    if x.WCheck? {
      DecideSafe(c, s, x);
    } else {
      DecideSafe(c, s, WCheck([0], true, x.h, x.t));
    }
  }

  lemma ProducerWrites(c: Config, s: State, p: Tid)
    requires c.n > 0 && InWrite(At(s, p))
    ensures ProducerLocal(c, WriteGo(c, s, p), At(WriteGo(c, s, p), p))
  {
  }

  lemma ProducerReads(c: Config, s: State, p: Tid)
    requires c.n > 0 && InRead(At(s, p))
    ensures ProducerLocal(c, ReadGo(c, s, p), At(ReadGo(c, s, p), p))
  {
  }

  lemma ProducerClears(c: Config, s: State, p: Tid)
    requires c.n > 0 && InClear(At(s, p))
    ensures ProducerLocal(c, ClearGo(c, s, p), At(ClearGo(c, s, p), p))
  {
  }

  lemma ProducerGoes(c: Config, s: State, p: Tid)
    requires c.n > 0 && Enabled(c, s, Go(p))
    ensures ProducerLocal(c, GoState(c, s, p), At(GoState(c, s, p), p))
  {
    if InWrite(At(s, p)) { ProducerWrites(c, s, p); }
    else if InRead(At(s, p)) { ProducerReads(c, s, p); }
    else { ProducerClears(c, s, p); }
  }

  lemma ProducerActs(c: Config, s: State, st: Step, p: Tid)
    requires c.n > 0 && Producer(c, s, p) && Enabled(c, s, st) && st.who == p && !st.Crash?
    ensures ProducerLocal(c, Do(c, s, st), At(Do(c, s, st), p))
  {
    if st.Go? {
      ProducerGoes(c, s, p);
    } else {
      SameMemory(c, s, st);
      if st.Decide? && IsWriter(At(s, p)) { ProducerDecides(c, s, p); }
    }
  }

  lemma ProducerWatches(c: Config, s: State, st: Step, p: Tid)
    requires c.n > 0 && Producer(c, s, p) && Enabled(c, s, st) && st.who != p
    ensures ProducerLocal(c, Do(c, s, st), At(s, p))
  {
    Footprint(c, s, st);
    assert !HoldsW(At(s, st.who));
  }

  lemma WriteStays(c: Config, s: State, t: Tid)
    requires c.n > 0 && InWrite(At(s, t))
    ensures !IsConsumer(At(WriteGo(c, s, t), t))
  {
  }

  lemma ReadStays(c: Config, s: State, t: Tid)
    requires c.n > 0 && InRead(At(s, t))
    ensures !IsWriter(At(ReadGo(c, s, t), t))
  {
  }

  lemma ClearStays(c: Config, s: State, t: Tid)
    requires c.n > 0 && InClear(At(s, t))
    ensures !IsWriter(At(ClearGo(c, s, t), t))
  {
  }

  lemma GoStays(c: Config, s: State, t: Tid)
    requires c.n > 0 && Enabled(c, s, Go(t))
    ensures IsWriter(At(GoState(c, s, t), t)) ==> IsWriter(At(s, t))
    ensures IsConsumer(At(GoState(c, s, t), t)) ==> IsConsumer(At(s, t))
  {
    if InWrite(At(s, t)) { WriteStays(c, s, t); }
    else if InRead(At(s, t)) { ReadStays(c, s, t); }
    else { ClearStays(c, s, t); }
  }

  lemma WriterStays(c: Config, s: State, st: Step)
    requires c.n > 0 && Enabled(c, s, st) && !st.BeginWrite?
    ensures IsWriter(At(Do(c, s, st), st.who)) ==> IsWriter(At(s, st.who))
  {
    if st.Go? { GoStays(c, s, st.who); }
  }

  lemma LostBy(c: Config, s: State, st: Step)
    requires c.n > 0 && Enabled(c, s, st) && !st.Recover?
    ensures Do(c, s, st).lostWrite != s.lostWrite ==> HoldsW(At(s, st.who)) && (st.Crash? || st.Fail?)
    ensures Do(c, s, st).lostRead != s.lostRead ==> HoldsR(At(s, st.who)) && (st.Crash? || st.Fail?)
  {
  }

  lemma ProducerStep(c: Config, s: State, st: Step, p: Tid)
    requires c.n > 0 && Producer(c, s, p) && Enabled(c, s, st) && Sound(s, st) && ProducerMay(s, st, p)
    requires st != Crash(p)
    ensures Producer(c, Do(c, s, st), p)
  {
    InvStep(c, s, st);
    Footprint(c, s, st);
    if !st.Recover? { LostBy(c, s, st); }
    if st.who == p {
      ProducerActs(c, s, st, p);
    } else {
      WriterStays(c, s, st);
      ProducerWatches(c, s, st, p);
    }
  }

  lemma DeadProducerStep(c: Config, s: State, st: Step, p: Tid)
    requires c.n > 0 && Inv(c, s) && OnlyWriter(s, p) && Enabled(c, s, st) && Sound(s, st) && ProducerMay(s, st, p)
    requires At(s, p).Dead? || st == Crash(p)
    ensures Inv(c, Do(c, s, st)) && OnlyWriter(Do(c, s, st), p) && At(Do(c, s, st), p).Dead?
  {
    InvStep(c, s, st);
    Footprint(c, s, st);
    if st.who != p { WriterStays(c, s, st); }
  }

  lemma {:induction false} ProducerExec(c: Config, s: State, steps: seq<Step>, p: Tid)
    requires c.n > 0 && Producer(c, s, p) && ProducerSchedule(c, s, steps, p)
    ensures ProducerOrDead(c, Exec(c, s, steps), p)
  {
    if steps != [] {
      var n := |steps| - 1;
      assert forall i :: 0 <= i < n ==> steps[..n][..i] == steps[..i];
      ProducerExec(c, s, steps[..n], p);
      var mid := Exec(c, s, steps[..n]);
      assert ProducerMay(mid, steps[n], p);
      if Enabled(c, mid, steps[n]) && Sound(mid, steps[n]) {
        if At(mid, p).Dead? || steps[n] == Crash(p) {
          DeadProducerStep(c, mid, steps[n], p);
        } else {
          ProducerStep(c, mid, steps[n], p);
        }
      }
    }
  }

  /**
   Asynchronous mode does not block a sole producer: after its unlocked check has passed there is room whatever readers
   and clearers do, the lock is free when it gets there, and it never ends up waiting for a reader.
   */
  lemma AsyncProducerNeverBlocks(c: Config, s: State, steps: seq<Step>, p: Tid)
    requires c.n > 0 && Reachable(c, s) && At(s, p).Idle? && OnlyWriter(s, p) && s.lostWrite == 0
    requires ProducerSchedule(c, s, steps, p)
    ensures var s' := Exec(c, s, steps);
      && !(At(s', p).WWait? && At(s', p).nb)
      && (At(s', p).WLock? && At(s', p).nb ==> Room(c, s') && Enabled(c, s', Acquire(p)))
      && (At(s', p).WCheck? && At(s', p).nb ==> Room(c, s'))
  {
    InvReachable(c, s);
    ProducerExec(c, s, steps, p);
    var s' := Exec(c, s, steps);
    if At(s', p).WLock? {
      assert WHolders(s'.pc) == {};
    }
  }

  // ---- the sole consumer

  ghost predicate ConsumerLocal(c: Config, s: State, p: Pc)
    requires c.n > 0
  {
    match p
    case RAsync(_, h, t) => ReaderSamples(c, s, h, t)
    case RLock(_, nb) => nb ==> NonEmpty(s)
    case RCheck(_, nb, h, t) => nb ==> NonEmpty(s) && (h.Read? ==> h.at > |s.consumed|)
    case RWait(_, nb) => !nb
    case _ => true
  }

  ghost predicate Consumer(c: Config, s: State, q: Tid)
    requires c.n > 0
  {
    Inv(c, s) && OnlyConsumer(s, q) && s.lostRead == 0 && ConsumerLocal(c, s, At(s, q))
  }

  /** Nobody else reads or clears, and no inner wake-up wait of the consumer fails, which would leave with the lock. */
  predicate ConsumerMay(s: State, st: Step, q: Tid) {
    (st.BeginRead? || st.BeginClear? ==> st.who == q) && (st == Fail(q) ==> !At(s, q).RWait?)
  }

  ghost predicate ConsumerSchedule(c: Config, s: State, steps: seq<Step>, q: Tid)
    requires c.n > 0
  {
    forall i :: 0 <= i < |steps| ==> ConsumerMay(Exec(c, s, steps[..i]), steps[i], q)
  }

  /** A consumer that has died makes no claim any more. */
  ghost predicate ConsumerOrDead(c: Config, s: State, q: Tid)
    requires c.n > 0
  {
    Inv(c, s) && OnlyConsumer(s, q) && (At(s, q).Dead? || Consumer(c, s, q))
  }

  lemma ConsumerDecides(c: Config, s: State, q: Tid)
    requires c.n > 0 && Consumer(c, s, q) && Enabled(c, s, Decide(q)) && IsConsumer(At(s, q))
    ensures ConsumerLocal(c, s, DecidePc(c, At(s, q)))
  {
    var x := At(s, q);
    assert Local(c, s, x);
    if x.RCheck? {
      DecideSafe(c, s, x);
    } else {
      DecideSafe(c, s, RCheck(0, true, x.h, x.t));
    }
  }

  lemma ConsumerWrites(c: Config, s: State, q: Tid)
    requires c.n > 0 && InWrite(At(s, q))
    ensures ConsumerLocal(c, WriteGo(c, s, q), At(WriteGo(c, s, q), q))
  {
  }

  lemma ConsumerReads(c: Config, s: State, q: Tid)
    requires c.n > 0 && InRead(At(s, q))
    ensures ConsumerLocal(c, ReadGo(c, s, q), At(ReadGo(c, s, q), q))
  {
  }

  lemma ConsumerClears(c: Config, s: State, q: Tid)
    requires c.n > 0 && InClear(At(s, q))
    ensures ConsumerLocal(c, ClearGo(c, s, q), At(ClearGo(c, s, q), q))
  {
  }

  lemma ConsumerGoes(c: Config, s: State, q: Tid)
    requires c.n > 0 && Enabled(c, s, Go(q))
    ensures ConsumerLocal(c, GoState(c, s, q), At(GoState(c, s, q), q))
  {
    if InWrite(At(s, q)) { ConsumerWrites(c, s, q); }
    else if InRead(At(s, q)) { ConsumerReads(c, s, q); }
    else { ConsumerClears(c, s, q); }
  }

  lemma ConsumerActs(c: Config, s: State, st: Step, q: Tid)
    requires c.n > 0 && Consumer(c, s, q) && Enabled(c, s, st) && st.who == q && !st.Crash?
    ensures ConsumerLocal(c, Do(c, s, st), At(Do(c, s, st), q))
  {
    if st.Go? {
      ConsumerGoes(c, s, q);
    } else {
      SameMemory(c, s, st);
      if st.Decide? && IsConsumer(At(s, q)) { ConsumerDecides(c, s, q); }
    }
  }

  lemma ConsumerWatches(c: Config, s: State, st: Step, q: Tid)
    requires c.n > 0 && Consumer(c, s, q) && Enabled(c, s, st) && st.who != q
    ensures ConsumerLocal(c, Do(c, s, st), At(s, q))
  {
    Footprint(c, s, st);
    assert !HoldsR(At(s, st.who));
  }

  lemma ConsumerStays(c: Config, s: State, st: Step)
    requires c.n > 0 && Enabled(c, s, st) && !st.BeginRead? && !st.BeginClear?
    ensures IsConsumer(At(Do(c, s, st), st.who)) ==> IsConsumer(At(s, st.who))
  {
    if st.Go? { GoStays(c, s, st.who); }
  }

  lemma ConsumerStep(c: Config, s: State, st: Step, q: Tid)
    requires c.n > 0 && Consumer(c, s, q) && Enabled(c, s, st) && Sound(s, st) && ConsumerMay(s, st, q)
    requires st != Crash(q)
    ensures Consumer(c, Do(c, s, st), q)
  {
    InvStep(c, s, st);
    Footprint(c, s, st);
    if !st.Recover? { LostBy(c, s, st); }
    if st.who == q {
      ConsumerActs(c, s, st, q);
    } else {
      ConsumerStays(c, s, st);
      ConsumerWatches(c, s, st, q);
    }
  }

  lemma DeadConsumerStep(c: Config, s: State, st: Step, q: Tid)
    requires c.n > 0 && Inv(c, s) && OnlyConsumer(s, q) && Enabled(c, s, st) && Sound(s, st) && ConsumerMay(s, st, q)
    requires At(s, q).Dead? || st == Crash(q)
    ensures Inv(c, Do(c, s, st)) && OnlyConsumer(Do(c, s, st), q) && At(Do(c, s, st), q).Dead?
  {
    InvStep(c, s, st);
    Footprint(c, s, st);
    if st.who != q { ConsumerStays(c, s, st); }
  }

  lemma {:induction false} ConsumerExec(c: Config, s: State, steps: seq<Step>, q: Tid)
    requires c.n > 0 && Consumer(c, s, q) && ConsumerSchedule(c, s, steps, q)
    ensures ConsumerOrDead(c, Exec(c, s, steps), q)
  {
    if steps != [] {
      var n := |steps| - 1;
      assert forall i :: 0 <= i < n ==> steps[..n][..i] == steps[..i];
      ConsumerExec(c, s, steps[..n], q);
      var mid := Exec(c, s, steps[..n]);
      assert ConsumerMay(mid, steps[n], q);
      if Enabled(c, mid, steps[n]) && Sound(mid, steps[n]) {
        if At(mid, q).Dead? || steps[n] == Crash(q) {
          DeadConsumerStep(c, mid, steps[n], q);
        } else {
          ConsumerStep(c, mid, steps[n], q);
        }
      }
    }
  }

  /** The mirror image for a sole consumer, when nobody else reads or clears. */
  lemma AsyncConsumerNeverBlocks(c: Config, s: State, steps: seq<Step>, q: Tid)
    requires c.n > 0 && Reachable(c, s) && At(s, q).Idle? && OnlyConsumer(s, q) && s.lostRead == 0
    requires ConsumerSchedule(c, s, steps, q)
    ensures var s' := Exec(c, s, steps);
      && !(At(s', q).RWait? && At(s', q).nb)
      && (At(s', q).RLock? && At(s', q).nb ==> NonEmpty(s') && Enabled(c, s', Acquire(q)))
      && (At(s', q).RCheck? && At(s', q).nb ==> NonEmpty(s'))
  {
    InvReachable(c, s);
    ConsumerExec(c, s, steps, q);
    var s' := Exec(c, s, steps);
    if At(s', q).RLock? {
      assert RHolders(s'.pc) == {};
    }
  }

  // ---- a buffer that was too small

  /** A refused Read gives its lock back, returns an error and leaves the queue as it was. */
  lemma RefusalKeepsQueue(c: Config, s: State, q: Tid)
    requires c.n > 0 && Reachable(c, s) && At(s, q).RCompare?
    ensures s.tail < c.n && s.head < c.n && |Contents(c, s)| > 0
    ensures At(s, q).room < |Contents(c, s)[0]| <==> At(Do(c, s, Go(q)), q) == RRefuse
    ensures At(s, q).room < |Contents(c, s)[0]| ==>
      var s' := Exec(c, s, [Go(q), Go(q)]);
      && At(s', q) == Idle(-1) && s'.data == s.data && s'.head == s.head && s'.tail == s.tail
      && s'.semRead == s.semRead + 1
  {
    InvReachable(c, s);
    assert Local(c, s, At(s, q));
    SlotsAreWritten(c, s, |s.written|);
    assert Holds(s.data[|s.consumed| % c.n], s.written[|s.consumed|]);
    HolderCounts(s, q);
    if At(s, q).room < |Contents(c, s)[0]| { RefusalSteps(c, s, q); }
  }

  lemma RefusalSteps(c: Config, s: State, q: Tid)
    requires c.n > 0 && At(s, q).RCompare? && At(s, q).room < SlotAt(s.data, s.tail).len && s.semRead == 0
    ensures var s' := Exec(c, s, [Go(q), Go(q)]);
      && At(s', q) == Idle(-1) && s'.data == s.data && s'.head == s.head && s'.tail == s.tail
      && s'.semRead == s.semRead + 1
  {
    var s1 := Do(c, s, Go(q));
    assert [Go(q), Go(q)][..1] == [Go(q)] && [Go(q)][..0] == [];
    assert Exec(c, s, [Go(q)]) == Try(c, Exec(c, s, []), Go(q)) == s1;
  }

  /** The sole consumer is on its way to message number `k`, which is `m`, and has not had to wait. */
  ghost predicate Offered(c: Config, s: State, q: Tid, k: nat, m: Msg)
    requires c.n > 0
  {
    && Inv(c, s) && OnlyConsumer(s, q)
    && k < |s.written| && s.written[k] == m && k <= |s.consumed|
    && (|s.consumed| == k ==> At(s, q).Dead? || (s.lostRead == 0 && OfferedLocal(c, s, At(s, q), m)))
  }

  ghost predicate OfferedLocal(c: Config, s: State, p: Pc, m: Msg)
    requires c.n > 0
  {
    match p
    case Idle(r) => r == -1
    case RAsync(room, h, t) => room >= |m| && ReaderSamples(c, s, h, t) && (h.Read? ==> h.at > |s.consumed|)
    case RLock(room, _) => room >= |m|
    case RCheck(room, _, h, _) => room >= |m| && (h.Read? ==> h.at > |s.consumed|)
    case RCompare(room) => room >= |m|
    case RLen => true
    case RCopy(_, _) => true
    case RAdvance(_) => true
    case _ => false
  }

  /** The consumer reads with room enough, in either mode, and nobody else consumes. */
  predicate RetrySchedule(steps: seq<Step>, q: Tid, m: Msg) {
    forall i :: 0 <= i < |steps| ==> RetryStep(steps[i], q, m)
  }

  predicate RetryStep(st: Step, q: Tid, m: Msg) {
    (st.BeginRead? ==> st.who == q && st.room >= |m|) && !st.BeginClear? &&
    (st.who == q ==> !st.BeginWrite?)
  }

  lemma OfferedDecides(c: Config, s: State, q: Tid, k: nat, m: Msg)
    requires c.n > 0 && Offered(c, s, q, k, m) && |s.consumed| == k && Enabled(c, s, Decide(q))
    ensures OfferedLocal(c, s, DecidePc(c, At(s, q)), m)
  {
    var x := At(s, q);
    assert Local(c, s, x);
    DecideSafe(c, s, RCheck(0, true, x.h, x.t));
  }

  lemma OfferedGoes(c: Config, s: State, q: Tid, k: nat, m: Msg)
    requires c.n > 0 && Offered(c, s, q, k, m) && |s.consumed| == k && Enabled(c, s, Go(q))
    ensures |GoState(c, s, q).consumed| == k ==> OfferedLocal(c, GoState(c, s, q), At(GoState(c, s, q), q), m)
  {
    assert Local(c, s, At(s, q)) && InRead(At(s, q));
    assert Holds(s.data[|s.consumed| % c.n], s.written[|s.consumed|]);
  }

  lemma OfferedActs(c: Config, s: State, st: Step, q: Tid, k: nat, m: Msg)
    requires c.n > 0 && Offered(c, s, q, k, m) && |s.consumed| == k
    requires Enabled(c, s, st) && st.who == q && RetryStep(st, q, m) && !st.Crash?
    ensures |Do(c, s, st).consumed| == k ==> OfferedLocal(c, Do(c, s, st), At(Do(c, s, st), q), m)
  {
    if !st.Go? { SameMemory(c, s, st); }
    if st.Decide? { OfferedDecides(c, s, q, k, m); }
    if st.Go? { OfferedGoes(c, s, q, k, m); }
  }

  lemma OfferedWatches(c: Config, s: State, st: Step, q: Tid, k: nat, m: Msg)
    requires c.n > 0 && Offered(c, s, q, k, m) && |s.consumed| == k && Enabled(c, s, st) && st.who != q
    ensures |Do(c, s, st).consumed| == k && (At(s, q).Dead? || OfferedLocal(c, Do(c, s, st), At(s, q), m))
  {
    Footprint(c, s, st);
    assert !HoldsR(At(s, st.who));
  }

  /** What no step can take back. */
  lemma OfferedStays(c: Config, s: State, st: Step, q: Tid, k: nat, m: Msg)
    requires c.n > 0 && Offered(c, s, q, k, m) && Enabled(c, s, st) && Sound(s, st) && RetryStep(st, q, m)
    ensures var s' := Do(c, s, st);
      Inv(c, s') && OnlyConsumer(s', q) && k < |s'.written| && s'.written[k] == m && |s.consumed| <= |s'.consumed|
  {
    InvStep(c, s, st);
    Footprint(c, s, st);
    if st.who != q { ConsumerStays(c, s, st); }
  }

  lemma OfferedStep(c: Config, s: State, st: Step, q: Tid, k: nat, m: Msg)
    requires c.n > 0 && Offered(c, s, q, k, m) && Enabled(c, s, st) && Sound(s, st) && RetryStep(st, q, m)
    ensures Offered(c, Do(c, s, st), q, k, m)
  {
    OfferedStays(c, s, st, q, k, m);
    Footprint(c, s, st);
    if |s.consumed| == k && st != Crash(q) && !At(s, q).Dead? {
      if !st.Recover? { LostBy(c, s, st); }
      if st.who == q { OfferedActs(c, s, st, q, k, m); } else { OfferedWatches(c, s, st, q, k, m); }
    }
  }

  lemma {:induction false} OfferedExec(c: Config, s: State, steps: seq<Step>, q: Tid, k: nat, m: Msg)
    requires c.n > 0 && Offered(c, s, q, k, m) && RetrySchedule(steps, q, m)
    ensures Offered(c, Exec(c, s, steps), q, k, m)
  {
    if steps != [] {
      var n := |steps| - 1;
      OfferedExec(c, s, steps[..n], q, k, m);
      var mid := Exec(c, s, steps[..n]);
      assert steps[n] in steps;
      if Enabled(c, mid, steps[n]) && Sound(mid, steps[n]) { OfferedStep(c, mid, steps[n], q, k, m); }
    }
  }

  /**
   After a refusal the sole consumer that comes back with room enough never waits and never hears that the queue is
   empty, and what it takes first is the very message it was refused.
   */
  lemma RetryGetsTheMessage(c: Config, s: State, steps: seq<Step>, q: Tid)
    requires c.n > 0 && Reachable(c, s) && At(s, q) == Idle(-1) && OnlyConsumer(s, q) && s.lostRead == 0
    requires s.tail < c.n && s.head < c.n && Contents(c, s) != [] && RetrySchedule(steps, q, Contents(c, s)[0])
    ensures var s' := Exec(c, s, steps);
      if |s'.consumed| == |s.consumed| then
        && !At(s', q).RWait? && !At(s', q).RRefuse? && (At(s', q).Idle? ==> At(s', q) == Idle(-1))
        && (At(s', q).RLock? ==> Enabled(c, s', Acquire(q)))
        && (At(s', q).RAdvance? ==> At(s', q).buf == Contents(c, s)[0])
      else |s'.consumed| > |s.consumed| && s'.consumed[|s.consumed|] == Contents(c, s)[0]
  {
    InvReachable(c, s);
    SlotsAreWritten(c, s, |s.written|);
    var k, m := |s.consumed|, Contents(c, s)[0];
    OfferedExec(c, s, steps, q, k, m);
    var s' := Exec(c, s, steps);
    assert Local(c, s', At(s', q));
    if At(s', q).RLock? { assert RHolders(s'.pc) == {}; }
  }
}
