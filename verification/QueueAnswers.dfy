/** What each operation answers: step by step under any interference, and from call to return when nobody interferes. */
module QueueAnswers {
  import opened Basics
  import opened RingMath
  import opened QueueMachine
  import opened QueueSafety
  import opened QueueTheorems
  import opened QueueSole

  // ---- the answers of single steps

  /** A call of Write, Read or Clear returns at once only for a blocking Write of a bad length. */
  lemma BeginAnswers(c: Config, s: State, st: Step)
    requires c.n > 0 && Enabled(c, s, st)
    ensures st.BeginWrite? ==>
      var p := At(Do(c, s, st), st.who);
      if st.nb then p == WAsync(st.m, Unread, Unread)
      else if 0 < |st.m| <= 0xFFC then p == WLock(st.m, false)
      else p == Idle(-1)
    ensures st.BeginRead? ==>
      At(Do(c, s, st), st.who) == if st.nb then RAsync(st.room, Unread, Unread) else RLock(st.room, false)
    ensures st.BeginClear? ==> At(Do(c, s, st), st.who) == CLock
  {
  }

  /**
   An asynchronous call whose indices are loaded: 0 exactly for a ring that looks full, or empty, -1 exactly for a bad
   length otherwise, and on to the lock in all other cases.
   */
  lemma AsyncAnswers(c: Config, s: State, t: Tid)
    requires c.n > 0 && Enabled(c, s, Decide(t))
    ensures var p, p' := At(s, t), At(Do(c, s, Decide(t)), t);
      && (p.WAsync? ==>
            && (p' == Idle(0) <==> (p.h.val + 1) % c.n == p.t.val)
            && (p' == Idle(-1) <==> (p.h.val + 1) % c.n != p.t.val && !(0 < |p.m| <= 0xFFC))
            && (p' == WLock(p.m, true) <==> (p.h.val + 1) % c.n != p.t.val && 0 < |p.m| <= 0xFFC))
      && (p.RAsync? ==>
            && (p' == Idle(0) <==> p.h.val == p.t.val)
            && (p' == RLock(p.room, true) <==> p.h.val != p.t.val))
  {
  }

  /** For a sole producer that is: full when it loaded the tail. */
  lemma AsyncWriteAnswers(c: Config, s: State, p: Tid)
    requires c.n > 0 && Producer(c, s, p) && At(s, p).WAsync? && Enabled(c, s, Decide(p))
    ensures var x, x' := At(s, p), At(Do(c, s, Decide(p)), p);
      && (x' == Idle(0) <==> |s.written| + 1 == x.t.at + c.n)
      && (x' == Idle(-1) <==> |s.written| + 1 < x.t.at + c.n && !(0 < |x.m| <= 0xFFC))
      && (x' == WLock(x.m, true) <==> |s.written| + 1 < x.t.at + c.n && 0 < |x.m| <= 0xFFC)
  {
    var x := At(s, p);
    AsyncAnswers(c, s, p);
    FullIff(c.n, x.h.at, x.t.at);
  }

  /** And for a sole consumer: empty when it loaded the head. */
  lemma AsyncReadAnswers(c: Config, s: State, q: Tid)
    requires c.n > 0 && Consumer(c, s, q) && At(s, q).RAsync? && Enabled(c, s, Decide(q))
    ensures var x, x' := At(s, q), At(Do(c, s, Decide(q)), q);
      && (x' == Idle(0) <==> x.h.at == |s.consumed|)
      && (x' == RLock(x.room, true) <==> x.h.at > |s.consumed|)
  {
    var x := At(s, q);
    AsyncAnswers(c, s, q);
    EmptyIff(c.n, x.h.at, x.t.at);
  }

  /** An operation ends with its lock given back, with a failed wait, or before it has begun. */
  lemma EndAnswers(c: Config, s: State, st: Step)
    requires c.n > 0 && Enabled(c, s, st) && Sound(s, st)
    ensures var p, p' := At(s, st.who), At(Do(c, s, st), st.who);
      && (st.Fail? ==> p' == Idle(-1))
      && (st.Go? && p.WUnlock? ==> p' == Idle(|p.m|))
      && (st.Go? && p.RUnlock? ==> p' == Idle(|p.buf|))
      && (st.Go? && p.RRefuse? ==> p' == Idle(-1))
      && (st.Go? && p.CUnlock? ==> p' == Idle(0))
      && (p'.Idle? && !st.Fail? ==>
            st.BeginWrite? || p.WAsync? || p.RAsync? || p.WUnlock? || p.RUnlock? || p.RRefuse? || p.CUnlock?)
  {
    if st.Go? { GoAnswers(c, s, st.who); }
  }

  lemma GoAnswers(c: Config, s: State, t: Tid)
    requires c.n > 0 && Straight(At(s, t))
    ensures var p, p' := At(s, t), At(GoState(c, s, t), t);
      && (p.WUnlock? ==> p' == Idle(|p.m|)) && (p.RUnlock? ==> p' == Idle(|p.buf|))
      && (p.RRefuse? ==> p' == Idle(-1)) && (p.CUnlock? ==> p' == Idle(0))
      && (p'.Idle? ==> p.WUnlock? || p.RUnlock? || p.RRefuse? || p.CUnlock?)
  {
  }

  /** A thread may die anywhere, and a wait may end for no reason or in an error; then the check is made afresh. */
  lemma WaitsMayEnd(c: Config, s: State, t: Tid)
    requires c.n > 0 && !At(s, t).Dead?
    ensures Enabled(c, s, Crash(t)) && At(Do(c, s, Crash(t)), t) == Dead
    ensures At(s, t).WWait? || At(s, t).RWait? ==>
      && Enabled(c, s, Spurious(t)) && Enabled(c, s, Fail(t))
      && Do(c, s, Spurious(t)).semWaitRead == s.semWaitRead && Do(c, s, Spurious(t)).semWaitWrite == s.semWaitWrite
    ensures At(s, t).WWait? ==> At(Do(c, s, Spurious(t)), t) == WCheck(At(s, t).m, At(s, t).nb, Unread, Unread)
    ensures At(s, t).RWait? ==> At(Do(c, s, Spurious(t)), t) == RCheck(At(s, t).room, At(s, t).nb, Unread, Unread)
    ensures At(s, t).WLock? || At(s, t).RLock? || At(s, t).CLock? ==> Enabled(c, s, Fail(t))
    ensures At(s, t).WLock? && s.lostWrite > 0 ==> Enabled(c, s, Recover(t))
    ensures (At(s, t).RLock? || At(s, t).CLock?) && s.lostRead > 0 ==> Enabled(c, s, Recover(t))
  {
  }

  /**
   Any operation may begin, indices may be loaded in any order, and nothing else holds a thread up but a count of 0.
   */
  lemma NothingElseBlocks(c: Config, s: State, t: Tid, m: Msg, room: nat, nb: bool)
    requires c.n > 0
    ensures var p := At(s, t);
      && (p.Idle? ==> Enabled(c, s, BeginWrite(t, m, nb)) && Enabled(c, s, BeginRead(t, room, nb)))
      && (p.Idle? ==> Enabled(c, s, BeginClear(t)))
      && (Checking(p) ==> (Enabled(c, s, LoadHead(t)) <==> p.h == Unread))
      && (Checking(p) ==> (Enabled(c, s, LoadTail(t)) <==> p.t == Unread))
      && (Checking(p) && p.h != Unread && p.t != Unread ==> Enabled(c, s, Decide(t)))
      && (p.WLock? ==> (Enabled(c, s, Acquire(t)) <==> s.semWrite > 0))
      && (p.RLock? || p.CLock? ==> (Enabled(c, s, Acquire(t)) <==> s.semRead > 0))
      && (p.WWait? ==> (Enabled(c, s, Wake(t)) <==> s.semWaitRead > 0))
      && (p.RWait? ==> (Enabled(c, s, Wake(t)) <==> s.semWaitWrite > 0))
      && (InWrite(p) || InRead(p) || p.CLoad? || p.CSignal? || p.CUnlock? ==> Enabled(c, s, Go(t)))
  {
  }

  // ---- operations on their own

  /** The one step of its program that a thread can take. */
  function NextOf(p: Pc, t: Tid): Step {
    if Checking(p) then if p.h.Unread? then LoadHead(t) else if p.t.Unread? then LoadTail(t) else Decide(t)
    else if p.WLock? || p.RLock? || p.CLock? then Acquire(t)
    else if p.WWait? || p.RWait? then Wake(t)
    else Go(t)
  }

  function OneTurn(c: Config, s: State, t: Tid): State
    requires c.n > 0
  {
    if Enabled(c, s, NextOf(At(s, t), t)) then Do(c, s, NextOf(At(s, t), t)) else s
  }

  ghost predicate TurnAt(c: Config, run: seq<State>, t: Tid, i: nat)
    requires c.n > 0 && i + 1 < |run|
  {
    run[i + 1] == OneTurn(c, run[i], t)
  }

  /** States, each one turn of `t` after the one before it. */
  ghost predicate TurnsOf(c: Config, run: seq<State>, t: Tid)
    requires c.n > 0
  {
    forall i: nat :: i + 1 < |run| ==> TurnAt(c, run, t, i)
  }

  /** `t` alone gets from `o` to `s`. */
  ghost predicate AloneLeads(c: Config, o: State, t: Tid, s: State)
    requires c.n > 0
  {
    exists run :: |run| > 0 && run[0] == o && run[|run| - 1] == s && TurnsOf(c, run, t)
  }

  lemma Turn(c: Config, o: State, s: State, t: Tid) returns (s': State)
    requires c.n > 0 && AloneLeads(c, o, t, s) && Enabled(c, s, NextOf(At(s, t), t))
    ensures s' == Do(c, s, NextOf(At(s, t), t)) && AloneLeads(c, o, t, s')
  {
    s' := Do(c, s, NextOf(At(s, t), t));
    var run :| |run| > 0 && run[0] == o && run[|run| - 1] == s && TurnsOf(c, run, t);
    RunGrows(c, run, t, s');
    var more := run + [s'];
    assert |more| > 0 && more[0] == o && more[|more| - 1] == s' && TurnsOf(c, more, t);
  }

  lemma RunGrows(c: Config, run: seq<State>, t: Tid, s: State)
    requires c.n > 0 && |run| > 0 && TurnsOf(c, run, t) && s == OneTurn(c, run[|run| - 1], t)
    ensures TurnsOf(c, run + [s], t)
  {
    var more := run + [s];
    forall i: nat | i + 1 < |more|
      ensures TurnAt(c, more, t, i)
    {
      if i + 1 < |run| { assert TurnAt(c, run, t, i) && more[i + 1] == run[i + 1]; }
    }
  }

  lemma TurnInv(c: Config, s: State, t: Tid)
    requires c.n > 0 && Inv(c, s)
    ensures Inv(c, OneTurn(c, s, t))
  {
    if Enabled(c, s, NextOf(At(s, t), t)) { InvStep(c, s, NextOf(At(s, t), t)); }
  }

  lemma {:induction false} TurnsKeep(c: Config, run: seq<State>, t: Tid, k: nat)
    requires c.n > 0 && |run| > k && TurnsOf(c, run, t) && Inv(c, run[0])
    ensures Inv(c, run[k])
  {
    if k > 0 {
      TurnsKeep(c, run, t, k - 1);
      TurnInv(c, run[k - 1], t);
      assert TurnAt(c, run, t, k - 1);
    }
  }

  lemma GoTurn(c: Config, o: State, s: State, t: Tid) returns (s': State)
    requires c.n > 0 && AloneLeads(c, o, t, s) && Straight(At(s, t))
    ensures s' == GoState(c, s, t) && AloneLeads(c, o, t, s')
  {
    s' := Turn(c, o, s, t);
  }

  lemma AloneInv(c: Config, o: State, t: Tid, s: State)
    requires c.n > 0 && Inv(c, o) && AloneLeads(c, o, t, s)
    ensures Inv(c, s)
  {
    var run :| |run| > 0 && run[0] == o && run[|run| - 1] == s && TurnsOf(c, run, t);
    TurnsKeep(c, run, t, |run| - 1);
  }

  lemma Start(c: Config, s: State, st: Step)
    requires c.n > 0 && Inv(c, s) && Enabled(c, s, st) && (st.BeginWrite? || st.BeginRead? || st.BeginClear?)
    ensures var o := Do(c, s, st);
      Inv(c, o) && AloneLeads(c, o, st.who, o) && OnlyPlace(s, o, st.who, At(o, st.who))
  {
    InvStep(c, s, st);
    var run := [Do(c, s, st)];
    assert TurnsOf(c, run, st.who) && run[0] == run[|run| - 1] == Do(c, s, st);
  }

  /** Nothing but the place of `t` has changed. */
  ghost predicate OnlyPlace(s: State, s': State, t: Tid, p: Pc) { s' == s.(pc := s.pc[t := p]) }

  function Loaded(s: State, p: Pc): Pc
    requires Checking(p)
  {
    p.(h := Read(s.head, |s.written|), t := Read(s.tail, |s.consumed|))
  }

  lemma Loads(c: Config, o: State, s: State, t: Tid) returns (s': State)
    requires c.n > 0 && AloneLeads(c, o, t, s) && Checking(At(s, t)) && At(s, t).h.Unread? && At(s, t).t.Unread?
    ensures AloneLeads(c, o, t, s') && OnlyPlace(s, s', t, Loaded(s, At(s, t)))
  {
    s' := Turn(c, o, s, t);
    s' := Turn(c, o, s', t);
    assert s'.pc == s.pc[t := Loaded(s, At(s, t))];
  }

  /** Where a check leads that sees the ring as it is. */
  function Checked(full: bool, empty: bool, p: Pc): Pc
    requires Checking(p)
  {
    match p
    case WAsync(m, _, _) => if full then Idle(0) else if 0 < |m| <= 0xFFC then WLock(m, true) else Idle(-1)
    case WCheck(m, nb, _, _) => if full then WWait(m, nb) else WLen(m)
    case RAsync(room, _, _) => if empty then Idle(0) else RLock(room, true)
    case RCheck(room, nb, _, _) => if empty then RWait(room, nb) else RCompare(room)
  }

  /** One check with nobody in the way. */
  lemma Checks(c: Config, o: State, s: State, t: Tid) returns (s': State)
    requires c.n > 0 && AloneLeads(c, o, t, s) && Checking(At(s, t)) && At(s, t).h.Unread? && At(s, t).t.Unread?
    ensures AloneLeads(c, o, t, s')
    ensures OnlyPlace(s, s', t, Checked((s.head + 1) % c.n == s.tail, s.head == s.tail, At(s, t)))
  {
    var s1 := Loads(c, o, s, t);
    s' := Turn(c, o, s1, t);
    Decided(c, s, s1, t);
  }

  lemma Decided(c: Config, s: State, s1: State, t: Tid)
    requires c.n > 0 && Checking(At(s, t)) && OnlyPlace(s, s1, t, Loaded(s, At(s, t)))
    ensures OnlyPlace(s, Do(c, s1, Decide(t)), t, Checked((s.head + 1) % c.n == s.tail, s.head == s.tail, At(s, t)))
  {
    assert s1.pc[t := DecidePc(c, At(s1, t))] == s.pc[t := DecidePc(c, At(s1, t))];
  }

  /** Head and tail say how many messages there are. */
  lemma Indices(c: Config, s: State)
    requires c.n > 0 && Inv(c, s)
    ensures (s.head + 1) % c.n == s.tail <==> !Room(c, s)
    ensures s.head == s.tail <==> !NonEmpty(s)
  {
    FullIff(c.n, |s.written|, |s.consumed|);
    EmptyIff(c.n, |s.written|, |s.consumed|);
  }

  /** What a write leaves alone on its way from the check to its commit. */
  ghost predicate SameButData(s: State, s': State, t: Tid, p: Pc) { s' == s.(data := s'.data, pc := s.pc[t := p]) }

  /** The bytes of a message, one turn each. */
  lemma {:induction false} Copies(c: Config, o: State, s: State, t: Tid, m: Msg, i: nat) returns (s': State)
    requires c.n > 0 && AloneLeads(c, o, t, s) && At(s, t) == WCopy(m, i) && i < |m|
    ensures AloneLeads(c, o, t, s') && SameButData(s, s', t, WAdvance(m))
    decreases |m| - i
  {
    s' := GoTurn(c, o, s, t);
    CopyTurn(c, s, t, m, i);
    if i + 1 < |m| {
      var s1 := s';
      s' := Copies(c, o, s1, t, m, i + 1);
      assert s1.pc[t := WAdvance(m)] == s.pc[t := WAdvance(m)];
    }
  }

  lemma CopyTurn(c: Config, s: State, t: Tid, m: Msg, i: nat)
    requires c.n > 0 && At(s, t) == WCopy(m, i) && i < |m|
    ensures SameButData(s, GoState(c, s, t), t, if i + 1 < |m| then WCopy(m, i + 1) else WAdvance(m))
  {
  }

  /** From the passed check to the commit. */
  lemma FillsTo(c: Config, o: State, s: State, t: Tid, m: Msg) returns (s': State)
    requires c.n > 0 && AloneLeads(c, o, t, s) && At(s, t) == WLen(m) && |m| > 0
    ensures AloneLeads(c, o, t, s') && SameButData(s, s', t, WAdvance(m))
  {
    var s1 := GoTurn(c, o, s, t);
    s' := Copies(c, o, s1, t, m, 0);
    assert s1.pc[t := WAdvance(m)] == s.pc[t := WAdvance(m)];
  }

  lemma HeadTurn(c: Config, s: State, t: Tid, m: Msg)
    requires c.n > 0 && At(s, t) == WAdvance(m)
    ensures GoState(c, s, t) == s.(head := Next(c.n, s.head), written := s.written + [m], author := s.author + [t],
                                  pc := s.pc[t := WSignal(m)])
  {
  }

  lemma ReaderPost(c: Config, s: State, t: Tid, m: Msg)
    requires c.n > 0 && At(s, t) == WSignal(m)
    ensures GoState(c, s, t) == s.(semWaitWrite := Post(c, s.semWaitWrite), pc := s.pc[t := WUnlock(m)])
  {
  }

  lemma WriteUnlock(c: Config, s: State, t: Tid, m: Msg)
    requires c.n > 0 && At(s, t) == WUnlock(m)
    ensures GoState(c, s, t) == s.(semWrite := Post(c, s.semWrite), pc := s.pc[t := Idle(|m|)])
  {
  }

  /** The last three steps of a write. */
  lemma WriteEnds(c: Config, o: State, s: State, t: Tid, m: Msg) returns (s': State)
    requires c.n > 0 && AloneLeads(c, o, t, s) && At(s, t) == WAdvance(m)
    ensures AloneLeads(c, o, t, s') && At(s', t) == Idle(|m|)
    ensures s'.written == s.written + [m] && s'.consumed == s.consumed && s'.semWrite == Post(c, s.semWrite)
    ensures s'.semWaitWrite == Post(c, s.semWaitWrite) && s'.semWaitRead == s.semWaitRead
  {
    HeadTurn(c, s, t, m);
    var s1 := GoTurn(c, o, s, t);
    ReaderPost(c, s1, t, m);
    var s2 := GoTurn(c, o, s1, t);
    WriteUnlock(c, s2, t, m);
    s' := GoTurn(c, o, s2, t);
  }

  /** From a free lock to the passed or failed check. */
  lemma WriteLocks(c: Config, o: State, s: State, t: Tid, m: Msg, nb: bool) returns (s': State)
    requires c.n > 0 && AloneLeads(c, o, t, s) && At(s, t) == WLock(m, nb) && s.semWrite > 0
    ensures AloneLeads(c, o, t, s')
    ensures OnlyPlace(s.(semWrite := s.semWrite - 1), s', t,
                      if (s.head + 1) % c.n == s.tail then WWait(m, nb) else WLen(m))
  {
    var s1 := Turn(c, o, s, t);
    s' := Checks(c, o, s1, t);
    assert s1.pc[t := At(s', t)] == s.pc[t := At(s', t)];
  }

  lemma WritePasses(c: Config, o: State, s: State, t: Tid, m: Msg, nb: bool) returns (s': State)
    requires c.n > 0 && AloneLeads(c, o, t, s) && At(s, t) == WLock(m, nb) && s.semWrite > 0
    requires (s.head + 1) % c.n != s.tail
    ensures AloneLeads(c, o, t, s') && OnlyPlace(s.(semWrite := s.semWrite - 1), s', t, WLen(m))
  {
    s' := WriteLocks(c, o, s, t, m, nb);
  }

  /** An asynchronous write, from its first check to the lock. */
  lemma WriteEnters(c: Config, o: State, s: State, t: Tid, m: Msg) returns (s': State)
    requires c.n > 0 && AloneLeads(c, o, t, s) && At(s, t) == WAsync(m, Unread, Unread)
    requires (s.head + 1) % c.n != s.tail && 0 < |m| <= 0xFFC
    ensures AloneLeads(c, o, t, s') && OnlyPlace(s, s', t, WLock(m, true))
  {
    var full := (s.head + 1) % c.n == s.tail;
    assert Checked(full, s.head == s.tail, At(s, t)) == WLock(m, true);
    s' := Checks(c, o, s, t);
  }

  lemma SameLock(s: State, s1: State, s': State, t: Tid, p: Pc, p': Pc)
    requires s.semWrite > 0 && OnlyPlace(s, s1, t, p) && OnlyPlace(s1.(semWrite := s1.semWrite - 1), s', t, p')
    ensures OnlyPlace(s.(semWrite := s.semWrite - 1), s', t, p')
  {
    assert s1.pc[t := p'] == s.pc[t := p'];
  }

  /** And on to the check inside. */
  lemma WritePassesBoth(c: Config, o: State, s: State, t: Tid, m: Msg) returns (s': State)
    requires c.n > 0 && AloneLeads(c, o, t, s) && At(s, t) == WAsync(m, Unread, Unread) && s.semWrite > 0
    requires (s.head + 1) % c.n != s.tail && 0 < |m| <= 0xFFC
    ensures AloneLeads(c, o, t, s') && OnlyPlace(s.(semWrite := s.semWrite - 1), s', t, WLen(m))
  {
    var s1 := WriteEnters(c, o, s, t, m);
    s' := WritePasses(c, o, s1, t, m, true);
    SameLock(s, s1, s', t, WLock(m, true), WLen(m));
  }

  /** From the call to the check inside the lock. */
  lemma WriteArrives(c: Config, o: State, t: Tid, m: Msg, nb: bool) returns (s': State)
    requires c.n > 0 && AloneLeads(c, o, t, o) && o.semWrite > 0 && (o.head + 1) % c.n != o.tail && 0 < |m| <= 0xFFC
    requires At(o, t) == if nb then WAsync(m, Unread, Unread) else WLock(m, false)
    ensures AloneLeads(c, o, t, s') && OnlyPlace(o.(semWrite := o.semWrite - 1), s', t, WLen(m))
  {
    if nb { s' := WritePassesBoth(c, o, o, t, m); } else { s' := WritePasses(c, o, o, t, m, nb); }
  }

  /** From the call to the commit. */
  lemma WriteFills(c: Config, o: State, t: Tid, m: Msg, nb: bool) returns (s': State)
    requires c.n > 0 && AloneLeads(c, o, t, o) && o.semWrite > 0 && (o.head + 1) % c.n != o.tail && 0 < |m| <= 0xFFC
    requires At(o, t) == if nb then WAsync(m, Unread, Unread) else WLock(m, false)
    ensures AloneLeads(c, o, t, s') && SameButData(o.(semWrite := o.semWrite - 1), s', t, WAdvance(m))
  {
    var s1 := WriteArrives(c, o, t, m, nb);
    s' := FillsTo(c, o, s1, t, m);
    assert s1.pc[t := WAdvance(m)] == o.pc[t := WAdvance(m)];
  }

  /** The steps of a write on a ring with room and a free lock. */
  lemma WriteRuns(c: Config, o: State, t: Tid, m: Msg, nb: bool) returns (s': State)
    requires c.n > 0 && AloneLeads(c, o, t, o) && o.semWrite > 0 && (o.head + 1) % c.n != o.tail && 0 < |m| <= 0xFFC
    requires At(o, t) == if nb then WAsync(m, Unread, Unread) else WLock(m, false)
    ensures AloneLeads(c, o, t, s') && At(s', t) == Idle(|m|)
    ensures s'.written == o.written + [m] && s'.consumed == o.consumed && s'.semWrite == Post(c, o.semWrite - 1)
    ensures s'.semWaitWrite == Post(c, o.semWaitWrite) && s'.semWaitRead == o.semWaitRead
  {
    var s1 := WriteFills(c, o, t, m, nb);
    s' := WriteEnds(c, o, s1, t, m);
  }

  lemma WriteOpens(c: Config, s: State, t: Tid, m: Msg, nb: bool) returns (o: State)
    requires c.n > 0 && Inv(c, s) && At(s, t).Idle? && Room(c, s) && 0 < |m| <= 0xFFC
    ensures o == Do(c, s, BeginWrite(t, m, nb)) && Inv(c, o) && AloneLeads(c, o, t, o) && OnlyPlace(s, o, t, At(o, t))
    ensures At(o, t) == (if nb then WAsync(m, Unread, Unread) else WLock(m, false)) && (o.head + 1) % c.n != o.tail
  {
    o := Do(c, s, BeginWrite(t, m, nb));
    Start(c, s, BeginWrite(t, m, nb));
    BeginAnswers(c, s, BeginWrite(t, m, nb));
    Indices(c, s);
  }

  /**
   A Write that nobody interferes with, on a ring with room and a free lock: it returns the length in either mode, the
   message is the last one in, the lock is free again and readers have been posted to.
   */
  lemma WriteAlone(c: Config, s: State, t: Tid, m: Msg, nb: bool) returns (s': State)
    requires c.n > 0 && Inv(c, s) && At(s, t).Idle? && Room(c, s) && s.semWrite > 0 && 0 < |m| <= 0xFFC
    ensures AloneLeads(c, Do(c, s, BeginWrite(t, m, nb)), t, s') && At(s', t) == Idle(|m|)
    ensures s.head < c.n && s.tail < c.n && s'.head < c.n && s'.tail < c.n
    ensures Contents(c, s') == Contents(c, s) + [m] && s'.semWrite == s.semWrite == 1
    ensures s'.semWaitWrite == Post(c, s.semWaitWrite) && s'.semWaitRead == s.semWaitRead
  {
    var o := WriteOpens(c, s, t, m, nb);
    s' := WriteRuns(c, o, t, m, nb);
    AloneInv(c, o, t, s');
    Appended(c, s, s', m);
  }

  lemma Appended(c: Config, s: State, s': State, m: Msg)
    requires c.n > 0 && Inv(c, s) && Inv(c, s') && s'.written == s.written + [m] && s'.consumed == s.consumed
    ensures s.head < c.n && s.tail < c.n && s'.head < c.n && s'.tail < c.n
    ensures Contents(c, s') == Contents(c, s) + [m]
  {
    ContentsAre(c, s);
    ContentsAre(c, s');
  }

  /** And when it cannot go in: 0 in asynchronous mode on a full ring, -1 for a bad length, a wait otherwise. */
  lemma WriteRefused(c: Config, s: State, t: Tid, m: Msg, nb: bool) returns (s': State)
    requires c.n > 0 && Inv(c, s) && At(s, t).Idle? && (!Room(c, s) || !(0 < |m| <= 0xFFC)) && s.semWrite > 0
    ensures AloneLeads(c, Do(c, s, BeginWrite(t, m, nb)), t, s')
    ensures s'.written == s.written && s'.consumed == s.consumed && s'.data == s.data
    ensures At(s', t) ==
      if nb && !Room(c, s) then Idle(0) else if !(0 < |m| <= 0xFFC) then Idle(-1) else WWait(m, false)
  {
    var o := Do(c, s, BeginWrite(t, m, nb));
    Start(c, s, BeginWrite(t, m, nb));
    BeginAnswers(c, s, BeginWrite(t, m, nb));
    Indices(c, s);
    s' := o;
    if nb {
      s' := Checks(c, o, s', t);
    } else if 0 < |m| <= 0xFFC {
      s' := WriteLocks(c, o, s', t, m, nb);
    }
  }

  /** One byte into the buffer, or the end of the message. */
  lemma FetchTurn(c: Config, s: State, t: Tid)
    requires c.n > 0 && At(s, t).RCopy?
    ensures var s', p := GoState(c, s, t), At(s, t); var p' := At(s', t);
      && OnlyPlace(s, s', t, p')
      && (p' == RAdvance(p.buf) || (p'.RCopy? && p'.len == p.len > |p.buf| && |p'.buf| == |p.buf| + 1))
  {
  }

  lemma {:induction false} Fetches(c: Config, o: State, s: State, t: Tid) returns (s': State, m: Msg)
    requires c.n > 0 && AloneLeads(c, o, t, s) && At(s, t).RCopy?
    ensures AloneLeads(c, o, t, s') && OnlyPlace(s, s', t, RAdvance(m))
    decreases if At(s, t).len > |At(s, t).buf| then At(s, t).len - |At(s, t).buf| else 0
  {
    FetchTurn(c, s, t);
    var s1 := GoTurn(c, o, s, t);
    if At(s1, t).RCopy? {
      s', m := Fetches(c, o, s1, t);
      assert s1.pc[t := RAdvance(m)] == s.pc[t := RAdvance(m)];
    } else {
      s', m := s1, At(s1, t).buf;
    }
  }

  lemma ReadLocks(c: Config, o: State, s: State, t: Tid, room: nat, nb: bool) returns (s': State)
    requires c.n > 0 && AloneLeads(c, o, t, s) && At(s, t) == RLock(room, nb) && s.semRead > 0
    ensures AloneLeads(c, o, t, s')
    ensures OnlyPlace(s.(semRead := s.semRead - 1), s', t,
                      if s.head == s.tail then RWait(room, nb) else RCompare(room))
  {
    var s1 := Turn(c, o, s, t);
    s' := Checks(c, o, s1, t);
    assert s1.pc[t := At(s', t)] == s.pc[t := At(s', t)];
  }

  /** From the length check to the commit, with a buffer that is large enough. */
  lemma FetchesTo(c: Config, o: State, s: State, t: Tid) returns (s': State, m: Msg)
    requires c.n > 0 && AloneLeads(c, o, t, s) && At(s, t).RCompare? && At(s, t).room >= SlotAt(s.data, s.tail).len
    ensures AloneLeads(c, o, t, s') && OnlyPlace(s, s', t, RAdvance(m))
  {
    var s1 := GoTurn(c, o, s, t);
    var s2 := GoTurn(c, o, s1, t);
    s', m := Fetches(c, o, s2, t);
    assert s2.pc[t := RAdvance(m)] == s.pc[t := RAdvance(m)];
  }

  lemma TailTurn(c: Config, s: State, t: Tid, m: Msg)
    requires c.n > 0 && At(s, t) == RAdvance(m)
    ensures GoState(c, s, t) == s.(tail := Next(c.n, s.tail), consumed := s.consumed + [m], taker := s.taker + [t],
                                  pc := s.pc[t := RSignal(m)])
  {
  }

  lemma WriterPost(c: Config, s: State, t: Tid, m: Msg)
    requires c.n > 0 && At(s, t) == RSignal(m)
    ensures GoState(c, s, t) == s.(semWaitRead := Post(c, s.semWaitRead), pc := s.pc[t := RUnlock(m)])
  {
  }

  lemma ReadUnlock(c: Config, s: State, t: Tid, m: Msg)
    requires c.n > 0 && At(s, t) == RUnlock(m)
    ensures GoState(c, s, t) == s.(semRead := Post(c, s.semRead), pc := s.pc[t := Idle(|m|)])
  {
  }

  lemma ReadEnds(c: Config, o: State, s: State, t: Tid, m: Msg) returns (s': State)
    requires c.n > 0 && AloneLeads(c, o, t, s) && At(s, t) == RAdvance(m)
    ensures AloneLeads(c, o, t, s') && At(s', t) == Idle(|m|)
    ensures s'.written == s.written && s'.consumed == s.consumed + [m] && s'.semRead == Post(c, s.semRead)
    ensures s'.semWaitRead == Post(c, s.semWaitRead) && s'.semWaitWrite == s.semWaitWrite
  {
    TailTurn(c, s, t, m);
    var s1 := GoTurn(c, o, s, t);
    WriterPost(c, s1, t, m);
    var s2 := GoTurn(c, o, s1, t);
    ReadUnlock(c, s2, t, m);
    s' := GoTurn(c, o, s2, t);
  }

  lemma ReadRefuses(c: Config, o: State, s: State, t: Tid) returns (s': State)
    requires c.n > 0 && AloneLeads(c, o, t, s) && At(s, t).RCompare? && At(s, t).room < SlotAt(s.data, s.tail).len
    ensures AloneLeads(c, o, t, s') && OnlyPlace(s.(semRead := Post(c, s.semRead)), s', t, Idle(-1))
  {
    var s1 := GoTurn(c, o, s, t);
    s' := GoTurn(c, o, s1, t);
    assert s1.pc[t := Idle(-1)] == s.pc[t := Idle(-1)];
  }

  /** The slot at the tail holds the oldest message. */
  lemma Oldest(c: Config, s: State)
    requires c.n > 0 && Inv(c, s) && NonEmpty(s)
    ensures s.head < c.n && s.tail < c.n && |Contents(c, s)| > 0
    ensures Contents(c, s)[0] == s.written[|s.consumed|] && SlotAt(s.data, s.tail).len == |Contents(c, s)[0]|
  {
    ContentsAre(c, s);
    assert Holds(s.data[|s.consumed| % c.n], s.written[|s.consumed|]);
  }

  lemma Shortened(c: Config, s: State, s': State, m: Msg)
    requires c.n > 0 && Inv(c, s) && Inv(c, s') && s'.written == s.written && s'.consumed == s.consumed + [m]
    ensures s.head < c.n && s.tail < c.n && s'.head < c.n && s'.tail < c.n
    ensures [m] + Contents(c, s') == Contents(c, s)
  {
    ContentsAre(c, s);
    ContentsAre(c, s');
    assert s'.consumed[|s.consumed|] == s.written[|s.consumed|];
  }

  lemma Unchanged(c: Config, s: State, s': State)
    requires c.n > 0 && Inv(c, s) && Inv(c, s') && s'.written == s.written && s'.consumed == s.consumed
    ensures s.head < c.n && s.tail < c.n && s'.head < c.n && s'.tail < c.n
    ensures Contents(c, s') == Contents(c, s)
  {
    ContentsAre(c, s);
    ContentsAre(c, s');
  }

  /** From the call to the length check. */
  lemma ReadArrives(c: Config, o: State, t: Tid, room: nat, nb: bool) returns (s': State)
    requires c.n > 0 && AloneLeads(c, o, t, o) && o.semRead > 0 && o.head != o.tail
    requires At(o, t) == if nb then RAsync(room, Unread, Unread) else RLock(room, false)
    ensures AloneLeads(c, o, t, s') && OnlyPlace(o.(semRead := o.semRead - 1), s', t, RCompare(room))
  {
    if nb {
      var s1 := Checks(c, o, o, t);
      s' := ReadLocks(c, o, s1, t, room, nb);
      assert s1.pc[t := RCompare(room)] == o.pc[t := RCompare(room)];
    } else {
      s' := ReadLocks(c, o, o, t, room, nb);
    }
  }

  /**
   A Read that nobody interferes with, on a ring with a message and a free lock: -1 and nothing changed for a buffer
   that is too small, otherwise the length of the oldest message, which is what was taken; the lock is free again.
   */
  lemma ReadAlone(c: Config, s: State, t: Tid, room: nat, nb: bool) returns (s': State)
    requires c.n > 0 && Inv(c, s) && At(s, t).Idle? && NonEmpty(s) && s.semRead > 0
    ensures AloneLeads(c, Do(c, s, BeginRead(t, room, nb)), t, s') && s'.semRead == s.semRead == 1
    ensures s.head < c.n && s.tail < c.n && s'.head < c.n && s'.tail < c.n && |Contents(c, s)| > 0
    ensures var m := Contents(c, s)[0];
      if room < |m| then
        At(s', t) == Idle(-1) && Contents(c, s') == Contents(c, s) && s'.semWaitRead == s.semWaitRead
      else
        && At(s', t) == Idle(|m|) && [m] + Contents(c, s') == Contents(c, s) && s'.consumed == s.consumed + [m]
        && s'.semWaitRead == Post(c, s.semWaitRead)
  {
    Oldest(c, s);
    var o := Do(c, s, BeginRead(t, room, nb));
    Start(c, s, BeginRead(t, room, nb));
    BeginAnswers(c, s, BeginRead(t, room, nb));
    Indices(c, s);
    var s1 := ReadArrives(c, o, t, room, nb);
    if room < |Contents(c, s)[0]| {
      s' := ReadRefuses(c, o, s1, t);
      AloneInv(c, o, t, s');
      Unchanged(c, s, s');
    } else {
      var s2, m := FetchesTo(c, o, s1, t);
      s' := ReadEnds(c, o, s2, t, m);
      AloneInv(c, o, t, s');
      Shortened(c, s, s', m);
    }
  }

  /** And on an empty ring: 0 in asynchronous mode, a wait otherwise. */
  lemma ReadRefused(c: Config, s: State, t: Tid, room: nat, nb: bool) returns (s': State)
    requires c.n > 0 && Inv(c, s) && At(s, t).Idle? && !NonEmpty(s) && s.semRead > 0
    ensures AloneLeads(c, Do(c, s, BeginRead(t, room, nb)), t, s')
    ensures s'.written == s.written && s'.consumed == s.consumed && s'.data == s.data
    ensures At(s', t) == if nb then Idle(0) else RWait(room, false)
  {
    var o := Do(c, s, BeginRead(t, room, nb));
    Start(c, s, BeginRead(t, room, nb));
    BeginAnswers(c, s, BeginRead(t, room, nb));
    Indices(c, s);
    s' := o;
    if nb { s' := Checks(c, o, s', t); } else { s' := ReadLocks(c, o, s', t, room, nb); }
  }

  lemma ClearEnds(c: Config, s: State, t: Tid)
    requires c.n > 0
    ensures At(s, t) == CSignal ==>
      GoState(c, s, t) == s.(semWaitRead := Post(c, s.semWaitRead), pc := s.pc[t := CUnlock])
    ensures At(s, t) == CUnlock ==> GoState(c, s, t) == s.(semRead := Post(c, s.semRead), pc := s.pc[t := Idle(0)])
  {
  }

  /** The steps of a Clear on a free lock. */
  lemma ClearRuns(c: Config, o: State, s: State, t: Tid) returns (s': State)
    requires c.n > 0 && AloneLeads(c, o, t, s) && At(s, t) == CLock && s.semRead > 0
    ensures AloneLeads(c, o, t, s') && At(s', t) == Idle(0) && s'.written == s.written && s'.tail == s'.head == s.head
    ensures s'.semRead == Post(c, s.semRead - 1) && s'.semWaitRead == Post(c, s.semWaitRead)
  {
    var s1 := ClearLocks(c, o, s, t);
    var s2 := ClearLoads(c, o, s1, t);
    s' := ClearLeaves(c, o, s2, t);
  }

  lemma ClearLocks(c: Config, o: State, s: State, t: Tid) returns (s': State)
    requires c.n > 0 && AloneLeads(c, o, t, s) && At(s, t) == CLock && s.semRead > 0
    ensures AloneLeads(c, o, t, s') && OnlyPlace(s.(semRead := s.semRead - 1), s', t, CLoad)
  {
    s' := Turn(c, o, s, t);
  }

  lemma ClearLeaves(c: Config, o: State, s: State, t: Tid) returns (s': State)
    requires c.n > 0 && AloneLeads(c, o, t, s) && At(s, t) == CSignal
    ensures AloneLeads(c, o, t, s') && At(s', t) == Idle(0)
    ensures s'.written == s.written && s'.tail == s.tail && s'.head == s.head
    ensures s'.semRead == Post(c, s.semRead) && s'.semWaitRead == Post(c, s.semWaitRead)
  {
    ClearEnds(c, s, t);
    var s1 := GoTurn(c, o, s, t);
    ClearEnds(c, s1, t);
    s' := GoTurn(c, o, s1, t);
  }

  lemma ClearLoads(c: Config, o: State, s: State, t: Tid) returns (s': State)
    requires c.n > 0 && AloneLeads(c, o, t, s) && At(s, t) == CLoad
    ensures AloneLeads(c, o, t, s') && At(s', t) == CSignal && s'.written == s.written && s'.tail == s'.head == s.head
    ensures s'.semRead == s.semRead && s'.semWaitRead == s.semWaitRead
  {
    s' := GoTurn(c, o, s, t);
    s' := GoTurn(c, o, s', t);
  }

  /** A Clear that nobody interferes with empties the queue, posts for writers and gives its lock back. */
  lemma ClearAlone(c: Config, s: State, t: Tid) returns (s': State)
    requires c.n > 0 && Inv(c, s) && At(s, t).Idle? && s.semRead > 0
    ensures AloneLeads(c, Do(c, s, BeginClear(t)), t, s') && At(s', t) == Idle(0)
    ensures s'.head < c.n && s'.tail < c.n && Contents(c, s') == [] && s'.consumed == s.written == s'.written
    ensures s'.semRead == s.semRead == 1 && s'.semWaitRead == Post(c, s.semWaitRead)
  {
    var o := Do(c, s, BeginClear(t));
    Start(c, s, BeginClear(t));
    BeginAnswers(c, s, BeginClear(t));
    s' := ClearRuns(c, o, o, t);
    AloneInv(c, o, t, s');
    Indices(c, s');
    ContentsAre(c, s');
  }
}
