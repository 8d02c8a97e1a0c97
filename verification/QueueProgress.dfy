/** Wake-ups are not lost, and what a standstill looks like. */
module QueueProgress {
  import opened Basics
  import opened RingMath
  import opened QueueMachine
  import opened QueueSafety

  /** A wake-up for readers is there or on its way. */
  ghost predicate WriterSignal(s: State) { s.semWaitWrite > 0 || exists u :: u in s.pc && s.pc[u].WSignal? }

  /** A wake-up for writers is there or on its way. */
  ghost predicate ReaderSignal(s: State) {
    s.semWaitRead > 0 || exists u :: u in s.pc && (s.pc[u].RSignal? || s.pc[u].CSignal?)
  }

  /** A reader that waits, or is about to on a head it loaded while the queue was empty. */
  ghost predicate ReaderBound(s: State, p: Pc) { p.RWait? || (p.RCheck? && p.h.Read? && p.h.at == |s.consumed|) }

  ghost predicate WriterBound(c: Config, s: State, p: Pc) {
    p.WWait? || (p.WCheck? && p.t.Read? && |s.written| + 1 == p.t.at + c.n)
  }

  /** A reader bound to wait has been signalled if there is something to read, a writer if there is room. */
  ghost predicate IsAwake(c: Config, s: State, t: Tid) {
    && (ReaderBound(s, At(s, t)) && NonEmpty(s) ==> WriterSignal(s))
    && (WriterBound(c, s, At(s, t)) && Room(c, s) ==> ReaderSignal(s))
  }

  /** A writer dies between its head store and its post, with no other wake-up for readers left. */
  predicate SilencesReaders(s: State, st: Step) { st.Crash? && At(s, st.who).WSignal? && s.semWaitWrite == 0 }

  /** A reader or a clearer dies between its tail store and its post, with no other wake-up for writers left. */
  predicate SilencesWriters(s: State, st: Step) {
    st.Crash? && (At(s, st.who).RSignal? || At(s, st.who).CSignal?) && s.semWaitRead == 0
  }

  /** A signal survives every step except the wake-up that uses it and the death that silences it. */
  lemma WriterSignalKept(c: Config, s: State, st: Step)
    requires c.n > 0 && Enabled(c, s, st) && WriterSignal(s) && !(st.Wake? && At(s, st.who).RWait?)
    requires !SilencesReaders(s, st)
    ensures WriterSignal(Do(c, s, st))
  {
    var s' := Do(c, s, st);
    Footprint(c, s, st);
    if s.semWaitWrite == 0 {
      var u :| u in s.pc && s.pc[u].WSignal?;
      if u != st.who { assert s'.pc[u].WSignal?; }
    }
  }

  lemma ReaderSignalKept(c: Config, s: State, st: Step)
    requires c.n > 0 && Enabled(c, s, st) && ReaderSignal(s) && !(st.Wake? && At(s, st.who).WWait?)
    requires !SilencesWriters(s, st)
    ensures ReaderSignal(Do(c, s, st))
  {
    var s' := Do(c, s, st);
    Footprint(c, s, st);
    if s.semWaitRead == 0 {
      var u :| u in s.pc && (s.pc[u].RSignal? || s.pc[u].CSignal?);
      if u != st.who { assert s'.pc[u].RSignal? || s'.pc[u].CSignal?; }
    }
  }

  /** The queue gets something to read only from a thread that is about to post. */
  lemma WritingSignals(c: Config, s: State, st: Step)
    requires c.n > 0 && Enabled(c, s, st)
    ensures Do(c, s, st).written == s.written || WriterSignal(Do(c, s, st))
  {
    Footprint(c, s, st);
    if !st.Go? { SameMemory(c, s, st); }
    else if InWrite(At(s, st.who)) { WriteGoSignals(c, s, st.who); }
  }

  lemma WriteGoSignals(c: Config, s: State, t: Tid)
    requires c.n > 0 && InWrite(At(s, t))
    ensures WriteGo(c, s, t).written == s.written || WriterSignal(WriteGo(c, s, t))
  {
    if At(s, t).WAdvance? { assert WriteGo(c, s, t).pc[t].WSignal?; }
  }

  lemma ConsumingSignals(c: Config, s: State, st: Step)
    requires c.n > 0 && Enabled(c, s, st)
    ensures Do(c, s, st).consumed == s.consumed || ReaderSignal(Do(c, s, st))
  {
    Footprint(c, s, st);
    if !st.Go? { SameMemory(c, s, st); }
    else if InRead(At(s, st.who)) { ReadGoSignals(c, s, st.who); }
    else if InClear(At(s, st.who)) { ClearGoSignals(c, s, st.who); }
  }

  lemma ReadGoSignals(c: Config, s: State, t: Tid)
    requires c.n > 0 && InRead(At(s, t))
    ensures ReadGo(c, s, t).consumed == s.consumed || ReaderSignal(ReadGo(c, s, t))
  {
    if At(s, t).RAdvance? { assert ReadGo(c, s, t).pc[t].RSignal?; }
  }

  lemma ClearGoSignals(c: Config, s: State, t: Tid)
    requires c.n > 0 && InClear(At(s, t))
    ensures ClearGo(c, s, t).consumed == s.consumed || ReaderSignal(ClearGo(c, s, t))
  {
    if At(s, t).CStore? { assert ClearGo(c, s, t).pc[t].CSignal?; }
  }

  lemma WriteAwake(c: Config, s: State, t: Tid)
    requires c.n > 0 && InWrite(At(s, t))
    ensures IsAwake(c, WriteGo(c, s, t), t)
  {
  }

  lemma ReadAwake(c: Config, s: State, t: Tid)
    requires c.n > 0 && InRead(At(s, t))
    ensures IsAwake(c, ReadGo(c, s, t), t)
  {
  }

  lemma ClearAwake(c: Config, s: State, t: Tid)
    requires c.n > 0 && InClear(At(s, t))
    ensures IsAwake(c, ClearGo(c, s, t), t)
  {
  }

  lemma GoAwake(c: Config, s: State, t: Tid)
    requires c.n > 0 && Enabled(c, s, Go(t))
    ensures IsAwake(c, GoState(c, s, t), t)
  {
    if InWrite(At(s, t)) { WriteAwake(c, s, t); }
    else if InRead(At(s, t)) { ReadAwake(c, s, t); }
    else { ClearAwake(c, s, t); }
  }

  /** A check can only end in a wait when nothing arrived since, or its signal is there. */
  lemma DecideAwake(c: Config, s: State, t: Tid)
    requires c.n > 0 && Inv(c, s) && Enabled(c, s, Decide(t)) && IsAwake(c, s, t)
    requires WriterSignal(s) ==> WriterSignal(Do(c, s, Decide(t)))
    requires ReaderSignal(s) ==> ReaderSignal(Do(c, s, Decide(t)))
    ensures IsAwake(c, Do(c, s, Decide(t)), t)
  {
    var p := At(s, t);
    assert Local(c, s, p);
    SameMemory(c, s, Decide(t));
    if p.WCheck? || p.RCheck? { DecideSafe(c, s, p); }
    assert At(Do(c, s, Decide(t)), t) == DecidePc(c, p);
  }

  lemma LoadAwake(c: Config, s: State, st: Step)
    requires c.n > 0 && Inv(c, s) && Enabled(c, s, st) && (st.LoadHead? || st.LoadTail?) && IsAwake(c, s, st.who)
    requires WriterSignal(s) ==> WriterSignal(Do(c, s, st))
    requires ReaderSignal(s) ==> ReaderSignal(Do(c, s, st))
    ensures IsAwake(c, Do(c, s, st), st.who)
  {
    SameMemory(c, s, st);
  }

  /** A thread's own step never leaves it waiting without its signal, unless it was bound to before. */
  lemma SelfAwake(c: Config, s: State, st: Step)
    requires c.n > 0 && Inv(c, s) && Enabled(c, s, st) && Sound(s, st) && IsAwake(c, s, st.who)
    ensures IsAwake(c, Do(c, s, st), st.who)
  {
    var s' := Do(c, s, st);
    if st.Go? {
      GoAwake(c, s, st.who);
    } else if st.Decide? || st.LoadHead? || st.LoadTail? {
      if WriterSignal(s) { WriterSignalKept(c, s, st); }
      if ReaderSignal(s) { ReaderSignalKept(c, s, st); }
      if st.Decide? { DecideAwake(c, s, st.who); } else { LoadAwake(c, s, st); }
    }
  }

  lemma OthersAwake(c: Config, s: State, st: Step, u: Tid)
    requires c.n > 0 && Inv(c, s) && Enabled(c, s, st) && Sound(s, st) && u in s.pc && u != st.who && IsAwake(c, s, u)
    requires HoldsR(s.pc[u]) ==> !SilencesReaders(s, st)
    requires HoldsW(s.pc[u]) ==> !SilencesWriters(s, st)
    ensures IsAwake(c, Do(c, s, st), u)
  {
    var s', t := Do(c, s, st), st.who;
    if t in s.pc { Exclusive(s, t, u); }
    Footprint(c, s, st);
    WritingSignals(c, s, st);
    ConsumingSignals(c, s, st);
    if HoldsR(s.pc[u]) && WriterSignal(s) { WriterSignalKept(c, s, st); }
    if HoldsW(s.pc[u]) && ReaderSignal(s) { ReaderSignalKept(c, s, st); }
  }

  /** A death takes the lock holder's signal with it: nobody else can be on the way to the same post. */
  lemma DeathSilences(c: Config, s: State, st: Step)
    requires c.n > 0 && Tokens(s) && Enabled(c, s, st)
    ensures SilencesReaders(s, st) ==> !WriterSignal(Do(c, s, st))
    ensures SilencesWriters(s, st) ==> !ReaderSignal(Do(c, s, st))
  {
    var t := st.who;
    forall u | u in s.pc && t in s.pc && u != t
      ensures HoldsW(s.pc[t]) ==> !HoldsW(s.pc[u])
      ensures HoldsR(s.pc[t]) ==> !HoldsR(s.pc[u])
    {
      Exclusive(s, t, u);
    }
  }

  /** A death that silences the very signal that `u` is bound to wait for. */
  ghost predicate Strands(c: Config, s: State, st: Step, u: Tid) {
    || (SilencesReaders(s, st) && ReaderBound(s, At(s, u)) && NonEmpty(s))
    || (SilencesWriters(s, st) && WriterBound(c, s, At(s, u)) && Room(c, s))
  }

  lemma StrandedByStep(c: Config, s: State, st: Step, u: Tid)
    requires c.n > 0 && Inv(c, s) && Enabled(c, s, st) && Sound(s, st) && IsAwake(c, s, u)
    ensures !IsAwake(c, Do(c, s, st), u) <==> Strands(c, s, st, u)
  {
    Footprint(c, s, st);
    if Strands(c, s, st, u) {
      DeathSilences(c, s, st);
      SameMemory(c, s, st);
    } else if u == st.who {
      SelfAwake(c, s, st);
    } else if u in s.pc {
      NotBoundAwake(c, s, st, u);
    }
  }

  /**
   Whom a death does not strand is still awake after it: the queue is empty or full as before, or another signal is
   left.
   */
  lemma NotBoundAwake(c: Config, s: State, st: Step, u: Tid)
    requires c.n > 0 && Inv(c, s) && Enabled(c, s, st) && Sound(s, st) && IsAwake(c, s, u)
    requires u in s.pc && u != st.who && !Strands(c, s, st, u)
    ensures IsAwake(c, Do(c, s, st), u)
  {
    if st.Crash? { SameMemory(c, s, st); }
    if (HoldsR(s.pc[u]) ==> !SilencesReaders(s, st)) && (HoldsW(s.pc[u]) ==> !SilencesWriters(s, st)) {
      OthersAwake(c, s, st, u);
    }
  }

  /**
   Exactly when a wake-up is lost: from any reachable state, for any saturation of the semaphores, a step leaves a
   thread bound to wait with a message to read, or room to write, and no signal, if and only if it is the death of the
   thread that owes that signal, between its commit and its post, with the semaphore at zero.
   */
  lemma LostWakeupIff(c: Config, s: State, st: Step, u: Tid)
    requires c.n > 0 && Reachable(c, s) && Enabled(c, s, st) && Sound(s, st) && IsAwake(c, s, u)
    ensures !IsAwake(c, Do(c, s, st), u) <==> Strands(c, s, st, u)
  {
    InvReachable(c, s);
    StrandedByStep(c, s, st, u);
  }

  /** Step `k` of a schedule is the death that strands `u`. */
  ghost predicate StrandsAt(c: Config, steps: seq<Step>, k: nat, u: Tid)
    requires c.n > 0 && k < |steps|
  {
    Strands(c, Exec(c, Init(c), steps[..k]), steps[k], u)
  }

  lemma AwakeNext(c: Config, s: State, st: Step, u: Tid)
    requires c.n > 0 && Inv(c, s) && IsAwake(c, s, u) && !Strands(c, s, st, u)
    ensures IsAwake(c, Try(c, s, st), u)
  {
    if Enabled(c, s, st) && Sound(s, st) { StrandedByStep(c, s, st, u); }
  }

  ghost predicate NeverStrands(c: Config, steps: seq<Step>, u: Tid)
    requires c.n > 0
  {
    forall k :: 0 <= k < |steps| ==> !StrandsAt(c, steps, k, u)
  }

  lemma NorEarlier(c: Config, steps: seq<Step>, early: seq<Step>, u: Tid)
    requires c.n > 0 && early <= steps && NeverStrands(c, steps, u)
    ensures NeverStrands(c, early, u)
  {
    forall k | 0 <= k < |early|
      ensures !StrandsAt(c, early, k, u)
    {
      assert early[..k] == steps[..k] && !StrandsAt(c, steps, k, u);
    }
  }

  /** No wake-up is lost in a run without such a death. */
  lemma {:induction false} NoLostWakeup(c: Config, steps: seq<Step>, u: Tid)
    requires c.n > 0 && NeverStrands(c, steps, u)
    ensures IsAwake(c, Exec(c, Init(c), steps), u)
  {
    InvInit(c);
    if steps != [] {
      var n := |steps| - 1;
      NorEarlier(c, steps, steps[..n], u);
      NoLostWakeup(c, steps[..n], u);
      InvExec(c, Init(c), steps[..n]);
      assert !StrandsAt(c, steps, n, u);
      AwakeNext(c, Exec(c, Init(c), steps[..n]), steps[n], u);
    }
  }

  // ---- standstill

  /** The steps the program itself can take: no new operation, no error, no crash, no help from outside. */
  predicate Internal(st: Step) {
    st.LoadHead? || st.LoadTail? || st.Decide? || st.Acquire? || st.Wake? || st.Go?
  }

  ghost predicate Stuck(c: Config, s: State) {
    forall st: Step :: Internal(st) ==> !Enabled(c, s, st)
  }

  predicate Calm(steps: seq<Step>) {
    forall i :: 0 <= i < |steps| ==> !steps[i].Crash? && !steps[i].Fail?
  }

  lemma {:induction false} CalmExec(c: Config, steps: seq<Step>)
    requires c.n > 0 && Calm(steps)
    ensures var s := Exec(c, Init(c), steps);
      s.lostWrite == 0 && s.lostRead == 0 && forall u :: u in s.pc ==> !s.pc[u].Dead?
  {
    if steps != [] {
      var n := |steps| - 1;
      CalmExec(c, steps[..n]);
      var mid := Exec(c, Init(c), steps[..n]);
      if Enabled(c, mid, steps[n]) && Sound(mid, steps[n]) { CalmStep(c, mid, steps[n]); }
    }
  }

  lemma CalmStep(c: Config, s: State, st: Step)
    requires c.n > 0 && Enabled(c, s, st) && !st.Crash? && !st.Fail?
    requires s.lostWrite == 0 && s.lostRead == 0
    requires forall u :: u in s.pc ==> !s.pc[u].Dead?
    ensures var s' := Do(c, s, st);
      s'.lostWrite == 0 && s'.lostRead == 0 && forall u :: u in s'.pc ==> !s'.pc[u].Dead?
  {
    Footprint(c, s, st);
    var p := At(Do(c, s, st), st.who);
    assert !p.Dead?;
  }

  /** A thread of a stuck state is idle, dead or in one of the five waits. */
  lemma StuckThread(c: Config, s: State, t: Tid)
    requires Stuck(c, s)
    ensures var p := At(s, t);
      p.Idle? || p.Dead? || p.WLock? || p.WWait? || p.RLock? || p.RWait? || p.CLock? || p.CStore?
    ensures At(s, t).CStore? ==> At(s, t).h.Unread?
    ensures At(s, t).WLock? ==> s.semWrite == 0
    ensures At(s, t).RLock? || At(s, t).CLock? ==> s.semRead == 0
    ensures At(s, t).WWait? ==> s.semWaitRead == 0
    ensures At(s, t).RWait? ==> s.semWaitWrite == 0
  {
    assert !Enabled(c, s, Go(t)) && !Enabled(c, s, LoadHead(t)) && !Enabled(c, s, LoadTail(t));
    assert !Enabled(c, s, Decide(t)) && !Enabled(c, s, Acquire(t)) && !Enabled(c, s, Wake(t));
  }

  /** At a standstill an exhausted lock is held by a thread that waits for a wake-up. */
  lemma StuckHolders(c: Config, s: State)
    requires c.n > 0 && Tokens(s) && Locals(c, s) && Stuck(c, s)
    ensures s.semWrite + s.lostWrite == 0 ==> exists w :: w in s.pc && s.pc[w].WWait?
    ensures s.semRead + s.lostRead == 0 ==> exists r :: r in s.pc && s.pc[r].RWait?
  {
    if s.semWrite + s.lostWrite == 0 {
      assert WHolders(s.pc) != {};
      var w :| w in WHolders(s.pc);
      StuckThread(c, s, w);
    }
    if s.semRead + s.lostRead == 0 {
      assert RHolders(s.pc) != {};
      var r :| r in RHolders(s.pc);
      StuckThread(c, s, r);
      assert Local(c, s, s.pc[r]);
    }
  }

  lemma StuckWriter(c: Config, s: State, t: Tid)
    requires c.n > 0 && Inv(c, s) && (forall u :: IsAwake(c, s, u)) && Stuck(c, s) && s.lostWrite == 0
    requires IsWriter(At(s, t))
    ensures !Room(c, s) && (At(s, t).WLock? || At(s, t).WWait?)
  {
    StuckThread(c, s, t);
    StuckHolders(c, s);
    var w :| w in s.pc && s.pc[w].WWait?;
    StuckThread(c, s, w);
    if Room(c, s) {
      assert IsAwake(c, s, w);
      var u :| u in s.pc && (s.pc[u].RSignal? || s.pc[u].CSignal?);
      StuckThread(c, s, u);
    }
  }

  lemma StuckConsumer(c: Config, s: State, t: Tid)
    requires c.n > 0 && Inv(c, s) && (forall u :: IsAwake(c, s, u)) && Stuck(c, s) && s.lostRead == 0
    requires IsConsumer(At(s, t))
    ensures !NonEmpty(s) && (At(s, t).RLock? || At(s, t).RWait? || At(s, t).CLock?)
  {
    StuckThread(c, s, t);
    assert Local(c, s, At(s, t));
    StuckHolders(c, s);
    var r :| r in s.pc && s.pc[r].RWait?;
    StuckThread(c, s, r);
    if NonEmpty(s) {
      assert IsAwake(c, s, r);
      var u :| u in s.pc && s.pc[u].WSignal?;
      StuckThread(c, s, u);
    }
  }

  /**
   Deadlock freedom: without crashes and semaphore errors, a standstill with unfinished operations is a full queue with
   only writers waiting or an empty queue with only readers and clearers waiting.
   */
  lemma StandstillIsFullOrEmpty(c: Config, steps: seq<Step>, s: State, busy: Tid)
    requires c.n >= 2 && Calm(steps) && s == Exec(c, Init(c), steps) && Stuck(c, s) && !At(s, busy).Idle?
    ensures s.head < c.n && s.tail < c.n
    ensures || (|Contents(c, s)| == c.n - 1 && forall t :: At(s, t).Idle? || At(s, t).WLock? || At(s, t).WWait?)
            || (Contents(c, s) == [] &&
                forall t :: At(s, t).Idle? || At(s, t).RLock? || At(s, t).RWait? || At(s, t).CLock?)
  {
    InvInit(c);
    InvExec(c, Init(c), steps);
    forall u
      ensures IsAwake(c, s, u)
    {
      NoLostWakeup(c, steps, u);
    }
    CalmExec(c, steps);
    SlotsAreWritten(c, s, |s.written|);
    forall t
      ensures IsWriter(At(s, t)) ==> !Room(c, s) && (At(s, t).WLock? || At(s, t).WWait?)
      ensures IsConsumer(At(s, t)) ==> !NonEmpty(s) && (At(s, t).RLock? || At(s, t).RWait? || At(s, t).CLock?)
      ensures At(s, t).Idle? || IsWriter(At(s, t)) || IsConsumer(At(s, t))
    {
      if IsWriter(At(s, t)) { StuckWriter(c, s, t); }
      if IsConsumer(At(s, t)) { StuckConsumer(c, s, t); }
    }
    if IsWriter(At(s, busy)) {
      assert forall t :: !IsConsumer(At(s, t));
    } else {
      assert forall t :: !IsWriter(At(s, t));
    }
  }
}
