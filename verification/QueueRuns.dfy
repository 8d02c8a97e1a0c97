/** Runs that show what goes wrong where it can: lost wake-ups on either side, and Clear without its lock. */
module QueueRuns {
  import opened Basics
  import opened RingMath
  import opened QueueMachine
  import opened QueueSafety
  import opened QueueTheorems
  import opened QueueProgress

  /** Some schedule leads from `o` to `s`. */
  ghost predicate Leads(c: Config, o: State, s: State)
    requires c.n > 0
  {
    exists steps :: s == Exec(c, o, steps)
  }

  lemma Stay(c: Config, o: State)
    requires c.n > 0
    ensures Leads(c, o, o)
  {
    assert Exec(c, o, []) == o;
  }

  lemma Run(c: Config, o: State, s: State, st: Step) returns (s': State)
    requires c.n > 0 && Leads(c, o, s) && Enabled(c, s, st) && Sound(s, st)
    ensures s' == Do(c, s, st) && Leads(c, o, s')
  {
    s' := Do(c, s, st);
    var steps :| s == Exec(c, o, steps);
    assert (steps + [st])[..|steps + [st]| - 1] == steps;
    assert Exec(c, o, steps + [st]) == Try(c, s, st);
  }

  /** The parts of a state the runs below look at: indices, lengths of the logs, and whether each lock can be had. */
  datatype View =
    View(head: nat, tail: nat, written: nat, consumed: nat, w: bool, r: bool, waitRead: nat, waitWrite: nat)

  function Seen(s: State): View {
    View(s.head, s.tail, |s.written|, |s.consumed|, s.semWrite + s.lostWrite > 0, s.semRead + s.lostRead > 0,
         s.semWaitRead, s.semWaitWrite)
  }

  /** The step that gets a lock that can be had. */
  function Lock(s: State, t: Tid): Step {
    if (if At(s, t).WLock? then s.semWrite else s.semRead) > 0 then Acquire(t) else Recover(t)
  }

  // ---- writers

  lemma WriterEnters(c: Config, o: State, s: State, w: Tid) returns (s': State)
    requires c.n > 0 && Leads(c, o, s) && At(s, w).Idle? && Seen(s).w
    ensures Leads(c, o, s') && s'.pc == s.pc[w := WCheck([7], false, Unread, Unread)]
    ensures Seen(s') == Seen(s).(w := Seen(s').w)
  {
    s' := Run(c, o, s, BeginWrite(w, [7], false));
    s' := Run(c, o, s', Lock(s', w));
  }

  lemma WriterDecides(c: Config, o: State, s: State, w: Tid) returns (s': State)
    requires c.n > 0 && Leads(c, o, s) && At(s, w) == WCheck([7], false, Unread, Unread)
    ensures Leads(c, o, s') && Seen(s') == Seen(s)
    ensures s'.pc == s.pc[w := if NotFull(c, s.head, s.tail) then WLen([7]) else WWait([7], false)]
  {
    s' := Run(c, o, s, LoadHead(w));
    s' := Run(c, o, s', LoadTail(w));
    s' := Run(c, o, s', Decide(w));
  }

  /** A write of one byte, up to its head store. */
  lemma WriterFills(c: Config, o: State, s: State, w: Tid) returns (s': State)
    requires c.n > 0 && Leads(c, o, s) && At(s, w) == WLen([7])
    ensures Leads(c, o, s') && Seen(s') == Seen(s)
    ensures s'.pc == s.pc[w := WAdvance([7])]
  {
    s' := Run(c, o, s, Go(w));
    s' := Run(c, o, s', Go(w));
  }

  lemma WriterCommits(c: Config, o: State, s: State, w: Tid) returns (s': State)
    requires c.n > 0 && Leads(c, o, s) && At(s, w).Idle? && Seen(s).w && NotFull(c, s.head, s.tail)
    ensures Leads(c, o, s') && s'.pc == s.pc[w := WSignal([7])]
    ensures Seen(s') == Seen(s).(w := Seen(s').w, head := Next(c.n, s.head), written := |s.written| + 1)
  {
    s' := WriterEnters(c, o, s, w);
    s' := WriterDecides(c, o, s', w);
    s' := WriterFills(c, o, s', w);
    s' := Run(c, o, s', Go(w));
  }

  // ---- clearers

  lemma ClearerEnters(c: Config, o: State, s: State, q: Tid) returns (s': State)
    requires c.n > 0 && Leads(c, o, s) && At(s, q).Idle? && Seen(s).r
    ensures Leads(c, o, s') && s'.pc == s.pc[q := CLoad] && Seen(s') == Seen(s).(r := Seen(s').r)
  {
    s' := Run(c, o, s, BeginClear(q));
    s' := Run(c, o, s', Lock(s', q));
  }

  lemma ClearerLoads(c: Config, o: State, s: State, q: Tid) returns (s': State)
    requires c.n > 0 && Leads(c, o, s) && At(s, q).CLoad?
    ensures Leads(c, o, s') && s'.pc == s.pc[q := CStore(Read(s.head, |s.written|))] && Seen(s') == Seen(s)
  {
    s' := Run(c, o, s, Go(q));
  }

  /** The tail store: what lies between the tail and the loaded head counts as consumed. */
  lemma ClearerStores(c: Config, o: State, s: State, q: Tid) returns (s': State)
    requires c.n > 0 && Leads(c, o, s) && At(s, q).CStore? && At(s, q).h.Read? && At(s, q).h.val < c.n && s.tail < c.n
    ensures Leads(c, o, s') && s'.pc == s.pc[q := CSignal]
    ensures var h := At(s, q).h.val; Seen(s') == Seen(s).(tail := h, consumed := |s.consumed| + Dist(c.n, s.tail, h))
  {
    s' := Run(c, o, s, Go(q));
  }

  /** A clearer up to its tail store. */
  lemma ClearerCommits(c: Config, o: State, s: State, q: Tid) returns (s': State)
    requires c.n > 0 && Leads(c, o, s) && At(s, q).Idle? && Seen(s).r && s.head < c.n && s.tail < c.n
    ensures Leads(c, o, s') && s'.pc == s.pc[q := CSignal]
    ensures Seen(s') == Seen(s).(r := Seen(s').r, tail := s.head, consumed := |s.consumed| + Dist(c.n, s.tail, s.head))
  {
    s' := ClearerEnters(c, o, s, q);
    s' := ClearerLoads(c, o, s', q);
    s' := ClearerStores(c, o, s', q);
  }

  lemma ClearerLeaves(c: Config, o: State, s: State, q: Tid) returns (s': State)
    requires c.n > 0 && Leads(c, o, s) && At(s, q).CSignal?
    ensures Leads(c, o, s') && s'.pc == s.pc[q := Idle(0)]
    ensures Seen(s') == Seen(s).(r := true, waitRead := Post(c, s.semWaitRead))
  {
    s' := Run(c, o, s, Go(q));
    s' := Run(c, o, s', Go(q));
  }

  // ---- a reader that is left without its signal

  lemma ReaderTurns(c: Config, o: State, s: State, r: Tid) returns (s': State)
    requires c.n > 0 && Leads(c, o, s) && At(s, r) == RCheck(1, false, Unread, Unread) && s.head == s.tail
    ensures Leads(c, o, s') && Seen(s') == Seen(s) && s'.pc == s.pc[r := RWait(1, false)]
  {
    s' := Run(c, o, s, LoadHead(r));
    s' := Run(c, o, s', LoadTail(r));
    s' := Run(c, o, s', Decide(r));
  }

  /** A reader uses up the initial count of its wake-up semaphore and waits again. */
  lemma ReaderWaits(c: Config, r: Tid) returns (s: State)
    requires c.n > 0
    ensures Leads(c, Init(c), s) && s.pc == map[r := RWait(1, false)]
    ensures Seen(s) == Seen(Init(c)).(r := Seen(s).r, waitWrite := 0)
  {
    var o := Init(c);
    Stay(c, o);
    s := Run(c, o, o, BeginRead(r, 1, false));
    s := Run(c, o, s, Acquire(r));
    s := ReaderTurns(c, o, s, r);
    s := Run(c, o, s, Wake(r));
    s := ReaderTurns(c, o, s, r);
    assert s.pc == map[r := RWait(1, false)];
  }

  /** On every ring of two slots or more a run from the start leaves a waiting reader with a message and no signal. */
  lemma LostForReaderIsReachable(c: Config, r: Tid, w: Tid) returns (s: State)
    requires c.n >= 2 && r != w
    ensures Reachable(c, s) && At(s, r).RWait? && NonEmpty(s) && !WriterSignal(s)
  {
    var o := Init(c);
    s := ReaderWaits(c, r);
    ModSmall(c.n, 1, 0);
    s := WriterCommits(c, o, s, w);
    s := Run(c, o, s, Crash(w));
    var steps :| s == Exec(c, o, steps);
  }

  // ---- a writer that is left without its signal

  /** A whole write. */
  lemma WriterWrites(c: Config, o: State, s: State, w: Tid) returns (s': State)
    requires c.n > 0 && Leads(c, o, s) && At(s, w).Idle? && Seen(s).w && NotFull(c, s.head, s.tail)
    ensures Leads(c, o, s') && s'.pc == s.pc[w := Idle(1)]
    ensures Seen(s') == Seen(s).(head := Next(c.n, s.head), written := |s.written| + 1, waitWrite := s'.semWaitWrite)
  {
    s' := WriterCommits(c, o, s, w);
    s' := Run(c, o, s', Go(w));
    s' := Run(c, o, s', Go(w));
  }

  /** One writer fills the ring slot by slot. */
  lemma {:induction false} FillsUp(c: Config, w: Tid, k: nat) returns (s: State)
    requires k < c.n
    ensures Leads(c, Init(c), s) && s.pc.Keys <= {w} && At(s, w).Idle?
    ensures Seen(s) == Seen(Init(c)).(head := k, written := k, waitWrite := s.semWaitWrite)
    decreases k
  {
    if k == 0 {
      Stay(c, Init(c));
      s := Init(c);
    } else {
      s := FillsUp(c, w, k - 1);
      ModSmall(c.n, k, 0);
      s := WriterWrites(c, Init(c), s, w);
    }
  }

  /** A writer on a full ring uses up the initial count of its wake-up semaphore and waits again. */
  lemma WriterWaits(c: Config, w: Tid) returns (s: State)
    requires c.n >= 2
    ensures Leads(c, Init(c), s) && s.pc.Keys <= {w} && At(s, w).WWait? && Seen(s).r
    ensures s.head == c.n - 1 && s.tail == 0 && s.semWaitRead == 0
  {
    var o := Init(c);
    s := FillsUp(c, w, c.n - 1);
    s := WriterEnters(c, o, s, w);
    ModSmall(c.n, 0, 1);
    s := WriterDecides(c, o, s, w);
    s := Run(c, o, s, Wake(w));
    s := WriterDecides(c, o, s, w);
  }

  /** And a run that leaves a waiting writer with a ring emptied by Clear and no signal. */
  lemma LostForWriterIsReachable(c: Config, w: Tid, q: Tid) returns (s: State)
    requires c.n >= 2 && q != w
    ensures Reachable(c, s) && At(s, w).WWait? && Room(c, s) && !ReaderSignal(s)
  {
    var o := Init(c);
    s := WriterWaits(c, w);
    s := ClearerCommits(c, o, s, q);
    s := Run(c, o, s, Crash(q));
    var steps :| s == Exec(c, o, steps);
    InvReachable(c, s);
    EmptyIff(c.n, |s.written|, |s.consumed|);
  }

  // ---- locks that are never given back

  /** A writer whose wake-up wait fails on a full ring returns, and the write lock is gone though nobody died. */
  lemma WriteLeakIsReachable(c: Config, w: Tid) returns (s: State)
    requires c.n >= 2
    ensures Reachable(c, s) && At(s, w) == Idle(-1) && s.semWrite + |WHolders(s.pc)| == 0
    ensures forall u :: u in s.pc ==> !s.pc[u].Dead?
  {
    var o := Init(c);
    s := WriterWaits(c, w);
    s := Run(c, o, s, Fail(w));
    var steps :| s == Exec(c, o, steps);
    InvReachable(c, s);
  }

  /** And so for a reader on an empty one. */
  lemma ReadLeakIsReachable(c: Config, r: Tid) returns (s: State)
    requires c.n > 0
    ensures Reachable(c, s) && At(s, r) == Idle(-1) && s.semRead + |RHolders(s.pc)| == 0
    ensures forall u :: u in s.pc ==> !s.pc[u].Dead?
  {
    var o := Init(c);
    s := ReaderWaits(c, r);
    s := Run(c, o, s, Fail(r));
    var steps :| s == Exec(c, o, steps);
    InvReachable(c, s);
  }

  // ---- Clear without its lock

  ghost predicate InOrder(c: Config, s: State)
    requires c.n > 0
  {
    s.head < c.n && s.tail < c.n && s.written == s.consumed + Contents(c, s)
  }

  lemma {:induction false} Above(used: set<Tid>) returns (t: Tid)
    ensures forall u :: u in used ==> u < t
    decreases |used|
  {
    if used == {} {
      t := 0;
    } else {
      var x :| x in used;
      var r := Above(used - {x});
      t := if r > x then r else x + 1;
      assert forall u :: u in used ==> u == x || u in used - {x};
    }
  }

  /** Each lock can be had, or somebody other than `t` holds it. */
  ghost predicate Freeable(s: State, t: Tid) {
    && (Seen(s).w || exists u :: u in s.pc && u != t && HoldsW(s.pc[u]))
    && (Seen(s).r || exists u :: u in s.pc && u != t && HoldsR(s.pc[u]))
  }

  lemma FreesWriteLock(c: Config, o: State, s: State, t: Tid) returns (s': State)
    requires c.n > 0 && Leads(c, o, s) && Freeable(s, t)
    ensures Leads(c, o, s') && Freeable(s', t) && At(s', t) == At(s, t) && Seen(s') == Seen(s).(w := true)
  {
    s' := s;
    if !Seen(s).w {
      var u :| u in s.pc && u != t && HoldsW(s.pc[u]);
      s' := Run(c, o, s, Crash(u));
      if !Seen(s).r {
        var v :| v in s.pc && v != t && HoldsR(s.pc[v]);
        assert s'.pc[v] == s.pc[v];
      }
    }
  }

  /** Where a holder dies its lock can be recovered. */
  lemma FreesLocks(c: Config, o: State, s: State, t: Tid) returns (s': State)
    requires c.n > 0 && Leads(c, o, s) && Freeable(s, t)
    ensures Leads(c, o, s') && At(s', t) == At(s, t) && Seen(s') == Seen(s).(w := true, r := true)
  {
    s' := FreesWriteLock(c, o, s, t);
    if !Seen(s).r {
      var u :| u in s'.pc && u != t && HoldsR(s'.pc[u]);
      s' := Run(c, o, s', Crash(u));
    }
  }

  /** Clear without its lock, as its failed wait leaves it. */
  lemma RogueStart(c: Config, s: State, t: Tid)
    requires c.n > 0 && Inv(c, s) && At(s, t).CLock?
    ensures var o := Do(c, s, Fail(t)); At(o, t).CLoad? && Freeable(o, t) && Seen(o) == Seen(s)
  {
    var o := Do(c, s, Fail(t));
    if !Seen(s).w {
      assert WHolders(s.pc) != {};
      var u :| u in WHolders(s.pc);
      assert u in o.pc && o.pc[u] == s.pc[u];
    }
    if !Seen(s).r {
      assert RHolders(s.pc) != {};
      var u :| u in RHolders(s.pc);
      assert u in o.pc && o.pc[u] == s.pc[u];
    }
  }

  /** Another Clear empties the queue, and the one without the lock loads the head. */
  lemma RogueLoads(c: Config, o: State, s: State, t: Tid, q: Tid) returns (s': State)
    requires c.n > 0 && Leads(c, o, s) && At(s, t).CLoad? && q !in s.pc && Seen(s).w && Seen(s).r
    requires s.head < c.n && s.tail < c.n && |s.written| == |s.consumed| + Dist(c.n, s.tail, s.head)
    ensures Leads(c, o, s') && Seen(s').w && Seen(s').r && s'.head == s'.tail == s.head && |s'.written| == |s'.consumed|
    ensures s'.pc == s.pc[q := Idle(0)][t := CStore(Read(s.head, |s'.written|))]
  {
    s' := ClearerCommits(c, o, s, q);
    s' := ClearerLeaves(c, o, s', q);
    s' := ClearerLoads(c, o, s', t);
    assert s'.pc == s.pc[q := Idle(0)][t := CStore(Read(s.head, |s'.written|))];
  }

  /** One message goes in and is cleared away; then the stale head becomes the tail. */
  lemma RogueStores(c: Config, o: State, s: State, t: Tid, q: Tid) returns (s': State)
    requires c.n >= 2 && Leads(c, o, s) && Seen(s).w && Seen(s).r && s.head == s.tail < c.n
    requires |s.written| == |s.consumed|
    requires q != t && At(s, q).Idle? && At(s, t).CStore? && At(s, t).h.Read? && At(s, t).h.val == s.head
    ensures Leads(c, o, s') && |s'.consumed| > |s'.written|
  {
    EmptyIff(c.n, s.head + 1, s.head);
    ModSmall(c.n, s.head, 0);
    s' := WriterWrites(c, o, s, q);
    s' := ClearerCommits(c, o, s', q);
    s' := ClearerStores(c, o, s', t);
  }

  lemma RogueBreaks(c: Config, s: State, t: Tid) returns (more: seq<Step>)
    requires c.n >= 2 && Inv(c, s) && At(s, t).CLock?
    ensures !InOrder(c, Exec(c, Do(c, s, Fail(t)), more))
  {
    var o := Do(c, s, Fail(t));
    RogueStart(c, s, t);
    SlotsAreWritten(c, s, |s.written|);
    Stay(c, o);
    var s1 := FreesLocks(c, o, o, t);
    var q := Above(s1.pc.Keys);
    var s2 := RogueLoads(c, o, s1, t, q);
    var s3 := RogueStores(c, o, s2, t, q);
    more :| s3 == Exec(c, o, more);
  }

  /**
   Exactly when order is at risk: from any reachable state of a ring of two slots or more, a step keeps FIFO order under
   all schedules that follow if and only if it is not a Clear that goes on without its lock.
   */
  lemma InOrderIff(c: Config, s: State, st: Step)
    requires c.n >= 2 && Reachable(c, s) && Enabled(c, s, st)
    ensures (forall more :: InOrder(c, Exec(c, Do(c, s, st), more))) <==> Sound(s, st)
  {
    InvReachable(c, s);
    if Sound(s, st) {
      InvStep(c, s, st);
      forall more
        ensures InOrder(c, Exec(c, Do(c, s, st), more))
      {
        InvExec(c, Do(c, s, st), more);
        InvInOrder(c, Exec(c, Do(c, s, st), more));
      }
    } else {
      var more := RogueBreaks(c, s, st.who);
      assert !InOrder(c, Exec(c, Do(c, s, st), more));
    }
  }

  lemma InvInOrder(c: Config, s: State)
    requires c.n > 0 && Inv(c, s)
    ensures InOrder(c, s)
  {
    ContentsAre(c, s);
  }

  /** The step that puts it at risk is possible from the start. */
  lemma ClearCanFail(c: Config, t: Tid) returns (s: State)
    requires c.n > 0
    ensures Reachable(c, s) && Enabled(c, s, Fail(t)) && !Sound(s, Fail(t))
  {
    Stay(c, Init(c));
    s := Run(c, Init(c), Init(c), BeginClear(t));
    var steps :| s == Exec(c, Init(c), steps);
  }
}
