/**
 CSemaphore's lock recovery as a step system. A waiter whose slice runs out reads the published owner, probes whether
 that thread exists, and if not writes its own id, sleeps and looks again. There is no clock: a sleeper remembers in
 `owed` which threads had their probe or their id write under way when it wrote its own id.
 */
module SemaphoreRecovery {
  import opened Basics

  datatype Pc =
    | Out                  // not in Wait, not holding
    | Waiting              // in sem_timedwait
    | Got                  // has the token, id not written yet
    | SelfTest             // slice ran out
    | Load                 // published owner is somebody else
    | Probe(owner: Tid)    // is that thread alive?
    | Claim                // it is not: about to write my id
    | Asleep               // id written, sleeping
    | In                   // Wait returned success
    | Dead

  /** `value` and `cell` are shared; `losses` and `steals` count tokens that died or went with a holder, and
   recoveries. */
  datatype State = State(value: nat, cell: Tid, pc: map<Tid, Pc>, owed: set<(Tid, Tid)>, losses: nat, steals: nat)

  /** `last` says that the time budget of the wait is used up, so that it returns a timeout instead of going round. */
  datatype Step =
    | Enter(who: Tid)
    | Take(who: Tid)
    | Publish(who: Tid)
    | Fail(who: Tid)       // sem_timedwait reports an error other than a timeout
    | TimeOut(who: Tid)
    | TestSelf(who: Tid, last: bool)
    | LoadCell(who: Tid)
    | ProbeOwner(who: Tid, last: bool)
    | WriteClaim(who: Tid)
    | Recheck(who: Tid, last: bool)
    | Release(who: Tid)
    | Leak(who: Tid)       // the holder goes its way without Post
    | Die(who: Tid)

  function At(s: State, t: Tid): Pc { if t in s.pc then s.pc[t] else Out }

  /** QueryThreadExist: no thread has id 0. */
  predicate Exists(s: State, t: Tid) { t != 0 && !At(s, t).Dead? }

  predicate Holding(p: Pc) { p.Got? || p.In? }

  function Holders(s: State): set<Tid> { set t | t in s.pc && Holding(s.pc[t]) }

  function Tokens(s: State): nat { s.value + |Holders(s)| }

  predicate InWindow(p: Pc) { p.Probe? || p.Claim? }

  predicate Enabled(s: State, st: Step) {
    st.who != 0 &&
    match st
    case Enter(t) => At(s, t).Out?
    case Take(t) => At(s, t).Waiting? && s.value > 0
    case Publish(t) => At(s, t).Got?
    case Fail(t) => At(s, t).Waiting?
    case TimeOut(t) => At(s, t).Waiting?
    case Leak(t) => At(s, t).In?
    case TestSelf(t, _) => At(s, t).SelfTest?
    case LoadCell(t) => At(s, t).Load?
    case ProbeOwner(t, _) => At(s, t).Probe?
    case WriteClaim(t) => At(s, t).Claim?
    case Recheck(t, _) => At(s, t).Asleep?
    case Release(t) => At(s, t).In?
    case Die(t) => !At(s, t).Dead?
  }

  function Again(last: bool): Pc { if last then Out else Waiting }

  /** `u` has left its window: nobody's sleep needs to outlast it any more. */
  function Left(owed: set<(Tid, Tid)>, u: Tid): set<(Tid, Tid)> { set x | x in owed && x.1 != u }

  function Window(s: State): set<Tid> { set u | u in s.pc && InWindow(s.pc[u]) }

  function Do(s: State, st: Step): State
    requires Enabled(s, st)
  {
    match st
    case Enter(t) => s.(pc := s.pc[t := Waiting])
    case Take(t) => s.(value := s.value - 1, pc := s.pc[t := Got])
    case Publish(t) => s.(cell := t, pc := s.pc[t := In])
    case Fail(t) => s.(pc := s.pc[t := Out])
    case TimeOut(t) => s.(pc := s.pc[t := SelfTest])
    case TestSelf(t, last) => s.(pc := s.pc[t := if s.cell == t then Again(last) else Load])
    case LoadCell(t) => s.(pc := s.pc[t := Probe(s.cell)])
    case ProbeOwner(t, last) =>
      if Exists(s, At(s, t).owner) then s.(pc := s.pc[t := Again(last)], owed := Left(s.owed, t))
      else s.(pc := s.pc[t := Claim])
    case WriteClaim(t) =>
      s.(cell := t, pc := s.pc[t := Asleep], owed := Left(s.owed, t) + (set u | u in Window(s) && u != t :: (t, u)))
    case Recheck(t, last) =>
      if s.cell == t then s.(pc := s.pc[t := In], steals := s.steals + 1)
      else s.(pc := s.pc[t := Again(last)])
    case Release(t) => s.(value := s.value + 1, pc := s.pc[t := Out])
    case Leak(t) => s.(pc := s.pc[t := Out], losses := s.losses + 1)
    case Die(t) =>
      s.(pc := s.pc[t := Dead], owed := Left(s.owed, t),
         losses := if Holding(At(s, t)) then s.losses + 1 else s.losses)
  }

  /** A new semaphore: count 1, the id cell zeroed. */
  const INIT := State(1, 0, map[], {}, 0, 0)

  // ---- when recovery is safe

  /** Threads that will take the lock from a dead owner unless somebody overwrites them. */
  function Open(s: State): set<Tid> {
    set u | u in s.pc && (s.pc[u].Claim? || (s.pc[u].Probe? && !Exists(s, s.pc[u].owner)))
  }

  /**
   The condition on one step. A thread that is published, or is being probed, dies only if that leaves no token; the
   never-written id is read only when there is no token; a sleeper that finds its own id finds nobody in an open window.
   */
  predicate Harmless(s: State, st: Step) {
    match st
    case Die(t) =>
      Tokens(s) - (if Holding(At(s, t)) then 1 else 0) == 0 ||
      (s.cell != t && forall u :: u in s.pc && u != t ==> s.pc[u] != Probe(t))
    case LoadCell(t) => s.cell == 0 ==> Tokens(s) == 0
    case Recheck(t, _) => s.cell == t ==> Open(s) == {}
    case _ => true
  }

  /** The timing rule of the sleep: whoever was in the window when I wrote my id has left it before I look again. */
  predicate Timely(s: State, st: Step) { st.Recheck? ==> forall x :: x in s.owed ==> x.0 != st.who }

  /** A scheduler that keeps to harmless steps. */
  function Try(s: State, st: Step): State {
    if Enabled(s, st) && Harmless(s, st) then Do(s, st) else s
  }

  function Exec(s: State, steps: seq<Step>): State
    decreases |steps|
  {
    if steps == [] then s else Exec(Try(s, steps[0]), steps[1..])
  }

  /** At most one token; while it exists nobody is about to take the lock from a dead owner. */
  ghost predicate Good(s: State) {
    && Tokens(s) + s.losses == 1 + s.steals && Tokens(s) <= 1
    && (Tokens(s) == 1 ==>
          (s.cell == 0 || Exists(s, s.cell)) && Open(s) == {} &&
          forall u :: u in s.pc ==> !(s.pc[u].Asleep? && s.cell == u))
  }

  // ---- bookkeeping

  lemma HoldersUpdate(s: State, t: Tid, p: Pc, s': State)
    requires s'.pc == s.pc[t := p]
    ensures |Holders(s')| == |Holders(s)| - Count(Holding(At(s, t))) + Count(Holding(p))
  {
    if Holding(p) {
      assert Holders(s') == Holders(s) + {t};
    } else {
      assert Holders(s') == Holders(s) - {t};
    }
  }

  lemma NextPc(s: State, st: Step)
    requires Enabled(s, st)
    ensures Do(s, st).pc == s.pc[st.who := At(Do(s, st), st.who)]
    ensures At(Do(s, st), st.who).Dead? <==> st.Die?
  {
  }

  /** Tokens only change when a holder dies or leaves with one, or a sleeper takes the lock over. */
  lemma TokenFlow(s: State, st: Step)
    requires Enabled(s, st)
    ensures Tokens(Do(s, st)) ==
      Tokens(s) - Count(st.Leak? || (st.Die? && Holding(At(s, st.who)))) + Count(st.Recheck? && s.cell == st.who)
    ensures Tokens(Do(s, st)) + Do(s, st).losses - Do(s, st).steals == Tokens(s) + s.losses - s.steals
  {
    NextPc(s, st);
    HoldersUpdate(s, st.who, At(Do(s, st), st.who), Do(s, st));
    if Holding(At(s, st.who)) { assert st.who in Holders(s); }
  }

  lemma GoodStep(s: State, st: Step)
    requires Good(s) && Enabled(s, st) && Harmless(s, st)
    ensures Good(Do(s, st))
  {
    var s', t := Do(s, st), st.who;
    TokenFlow(s, st);
    NextPc(s, st);
    if Tokens(s) == 1 && Tokens(s') == 1 {
      forall u | u in s'.pc
        ensures u !in Open(s') && !(s'.pc[u].Asleep? && s'.cell == u)
      {
        if u in s.pc { assert u !in Open(s); }
      }
    } else if Tokens(s') == 1 {
      forall u | u in s'.pc
        ensures u !in Open(s')
      {
        if u in s.pc { assert u !in Open(s); }
      }
    }
  }

  lemma {:induction false} GoodExec(s: State, steps: seq<Step>)
    requires Good(s)
    ensures Good(Exec(s, steps))
    decreases |steps|
  {
    if steps != [] {
      if Enabled(s, steps[0]) && Harmless(s, steps[0]) { GoodStep(s, steps[0]); }
      GoodExec(Try(s, steps[0]), steps[1..]);
    }
  }

  // ---- the condition is exact

  /** Somebody is about to take over a lock that is not lost. */
  ghost predicate Doomed(s: State) { Tokens(s) >= 1 && Open(s) != {} }

  function Probing(s: State): set<Tid> { set u | u in Open(s) && s.pc[u].Probe? }

  lemma ProbeFails(s: State, u: Tid)
    requires u in Probing(s) && u != 0
    ensures Enabled(s, ProbeOwner(u, false)) && Tokens(Do(s, ProbeOwner(u, false))) == Tokens(s)
    ensures Open(Do(s, ProbeOwner(u, false))) == Open(s) && Probing(Do(s, ProbeOwner(u, false))) == Probing(s) - {u}
  {
    TokenFlow(s, ProbeOwner(u, false));
    var s' := Do(s, ProbeOwner(u, false));
    assert forall x :: Exists(s', x) == Exists(s, x);
  }

  lemma ClaimLeaves(s: State, u: Tid)
    requires u in Open(s) && u !in Probing(s) && u != 0
    ensures Enabled(s, WriteClaim(u)) && Tokens(Do(s, WriteClaim(u))) == Tokens(s)
    ensures Open(Do(s, WriteClaim(u))) == Open(s) - {u}
  {
    TokenFlow(s, WriteClaim(u));
    var s' := Do(s, WriteClaim(u));
    assert forall x :: Exists(s', x) == Exists(s, x);
  }

  lemma ExecCons(s: State, st: Step, more: seq<Step>)
    ensures Exec(s, [st] + more) == Exec(Try(s, st), more)
  {
    assert ([st] + more)[1..] == more;
  }

  lemma {:induction false} ExecJoin(s: State, a: seq<Step>, b: seq<Step>)
    ensures Exec(s, a + b) == Exec(Exec(s, a), b)
    decreases |a|
  {
    if a == [] {
      assert a + b == b;
    } else {
      assert a + b == [a[0]] + (a[1..] + b);
      ExecCons(s, a[0], a[1..] + b);
      ExecJoin(Try(s, a[0]), a[1..], b);
    }
  }

  predicate NobodyDies(steps: seq<Step>) { forall i :: 0 <= i < |steps| ==> !steps[i].Die? }

  /** What a takeover leaves: one token more, with `h` inside, and everybody outside the window where they were. */
  ghost predicate TakenOver(s: State, s': State, h: Tid) {
    && Tokens(s') == Tokens(s) + 1 && s'.value == s.value && At(s', h).In? && 0 !in s'.pc
    && forall u :: u in s.pc && s.pc[u].Waiting? ==> At(s', u) == s.pc[u]
  }

  lemma FinderTakes(s: State, u: Tid)
    requires At(s, u).Asleep? && s.cell == u && Open(s) == {} && u != 0 && 0 !in s.pc
    ensures Enabled(s, Recheck(u, false)) && Harmless(s, Recheck(u, false))
    ensures TakenOver(s, Do(s, Recheck(u, false)), u)
  {
    TokenFlow(s, Recheck(u, false));
  }

  /** A step inside the window: no token moves and no waiter notices. */
  ghost predicate Quiet(s: State, s': State) {
    && Tokens(s') == Tokens(s) && s'.value == s.value && 0 !in s'.pc
    && forall u :: u in s.pc && s.pc[u].Waiting? ==> u in s'.pc && s'.pc[u] == s.pc[u]
  }

  lemma QuietFirst(s: State, s1: State, s2: State, h: Tid)
    requires Quiet(s, s1) && TakenOver(s1, s2, h)
    ensures TakenOver(s, s2, h)
  {
  }

  /** One step of somebody in an open window, which empties bit by bit. */
  lemma WindowShrinks(s: State) returns (st: Step)
    requires Open(s) != {} && 0 !in s.pc
    ensures Enabled(s, st) && Harmless(s, st) && !st.Die? && Quiet(s, Do(s, st))
    ensures Open(Do(s, st)) <= Open(s) && |Open(Do(s, st))| <= |Open(s)|
    ensures Open(Do(s, st)) == Open(s) ==> |Probing(Do(s, st))| < |Probing(s)|
    ensures Open(Do(s, st)) != Open(s) ==> |Open(Do(s, st))| < |Open(s)|
    ensures Open(Do(s, st)) == {} ==> At(Do(s, st), st.who).Asleep? && Do(s, st).cell == st.who
  {
    if Probing(s) != {} {
      var u :| u in Probing(s);
      st := ProbeOwner(u, false);
      ProbeFails(s, u);
    } else {
      var u :| u in Open(s);
      st := WriteClaim(u);
      ClaimLeaves(s, u);
    }
    NextPc(s, st);
  }

  /** The last one out of the window takes the lock, whether its token was lost or not. */
  lemma {:induction false} WindowTakesOver(s: State) returns (more: seq<Step>, h: Tid)
    requires Open(s) != {} && 0 !in s.pc
    ensures NobodyDies(more) && TakenOver(s, Exec(s, more), h)
    decreases |Open(s)|, |Probing(s)|
  {
    var st := WindowShrinks(s);
    var s' := Do(s, st);
    var rest;
    if Open(s') == {} {
      h := st.who;
      FinderTakes(s', h);
      ExecCons(s', Recheck(h, false), []);
      rest := [Recheck(h, false)];
      assert Exec(s', rest) == Do(s', Recheck(h, false));
    } else {
      rest, h := WindowTakesOver(s');
    }
    ExecCons(s, st, rest);
    more := [st] + rest;
    QuietFirst(s, s', Exec(s', rest), h);
  }

  /** Somebody is about to take the lock, although its token is not lost. */
  lemma DoomedBreaks(s: State) returns (more: seq<Step>)
    requires Doomed(s) && 0 !in s.pc
    ensures Tokens(Exec(s, more)) >= 2
  {
    var h;
    more, h := WindowTakesOver(s);
  }

  lemma {:induction false} FreshId(used: set<Tid>) returns (t: Tid)
    ensures t != 0 && forall u :: u in used ==> u < t
    decreases |used|
  {
    if used == {} {
      t := 1;
    } else {
      var x :| x in used;
      var r := FreshId(used - {x});
      t := if r > x then r else x + 1;
      assert forall u :: u in used ==> u == x || u in used - {x};
    }
  }

  /** A newcomer that finds a dead owner opens its window, whether the token is there or not. */
  lemma LateWaiterOpens(s: State) returns (more: seq<Step>, s': State)
    requires !Exists(s, s.cell) && (s.cell == 0 ==> Tokens(s) == 0) && 0 !in s.pc
    ensures NobodyDies(more) && s' == Exec(s, more) && Open(s') != {} && Tokens(s') == Tokens(s) && s'.value == s.value
    ensures 0 !in s'.pc && forall u :: u in s.pc ==> u in s'.pc && s'.pc[u] == s.pc[u]
  {
    var w := FreshId(s.pc.Keys);
    assert w !in s.pc.Keys;
    var s1 := Do(s, Enter(w));
    TokenFlow(s, Enter(w));
    var s2 := Do(s1, TimeOut(w));
    TokenFlow(s1, TimeOut(w));
    var s3 := Do(s2, TestSelf(w, false));
    TokenFlow(s2, TestSelf(w, false));
    s' := Do(s3, LoadCell(w));
    TokenFlow(s3, LoadCell(w));
    assert w in Open(s');
    more := [Enter(w), TimeOut(w), TestSelf(w, false), LoadCell(w)];
    ExecCons(s3, LoadCell(w), []);
    ExecCons(s2, TestSelf(w, false), [LoadCell(w)]);
    ExecCons(s1, TimeOut(w), [TestSelf(w, false), LoadCell(w)]);
    ExecCons(s, Enter(w), [TimeOut(w), TestSelf(w, false), LoadCell(w)]);
  }

  /** A waiter that comes by after the published thread has died takes the lock although its token exists. */
  lemma DeadOwnerDooms(s: State) returns (more: seq<Step>)
    requires Tokens(s) == 1 && s.cell != 0 && !Exists(s, s.cell) && 0 !in s.pc
    ensures Tokens(Exec(s, more)) >= 2
  {
    var first, s' := LateWaiterOpens(s);
    var rest := DoomedBreaks(s');
    ExecJoin(s, first, rest);
    more := first + rest;
  }

  lemma HarmfulBreaks(s: State, st: Step) returns (more: seq<Step>)
    requires Good(s) && 0 !in s.pc && Enabled(s, st) && !Harmless(s, st)
    ensures Tokens(Exec(Do(s, st), more)) >= 2
  {
    var s', t := Do(s, st), st.who;
    TokenFlow(s, st);
    NextPc(s, st);
    match st {
      case LoadCell(_) =>
        assert t in Open(s');
        more := DoomedBreaks(s');
      case Recheck(_, _) =>
        var u :| u in Open(s);
        assert u in Open(s');
        more := DoomedBreaks(s');
      case Die(_) =>
        if s.cell == t {
          more := DeadOwnerDooms(s');
        } else {
          var u :| u in s.pc && u != t && s.pc[u] == Probe(t);
          assert u in Open(s');
          more := DoomedBreaks(s');
        }
    }
  }

  /**
   Exclusive exactly when harmless: from any good state, a step can be followed by harmless steps only in exclusive
   runs if and only if it is harmless itself.
   */
  lemma ExclusiveIff(s: State, st: Step)
    requires Good(s) && 0 !in s.pc && Enabled(s, st)
    ensures (forall more :: Tokens(Exec(Do(s, st), more)) <= 1) <==> Harmless(s, st)
  {
    if Harmless(s, st) {
      GoodStep(s, st);
      forall more
        ensures Tokens(Exec(Do(s, st), more)) <= 1
      {
        GoodExec(Do(s, st), more);
      }
    } else {
      var more := HarmfulBreaks(s, st);
      assert Tokens(Exec(Do(s, st), more)) > 1;
    }
  }

  // ---- the timing rule is enough

  /** A sleeper whose id stands has everybody in the window on its list, except those that probe the sleeper itself. */
  ghost predicate Listed(s: State) {
    0 !in s.pc &&
    forall u, w :: u in s.pc && s.pc[u].Asleep? && s.cell == u && w in Window(s) && s.pc[w] != Probe(u) ==>
      (u, w) in s.owed
  }

  lemma ListedStep(s: State, st: Step)
    requires Listed(s) && Enabled(s, st)
    ensures Listed(Do(s, st))
  {
    var s', t := Do(s, st), st.who;
    NextPc(s, st);
    forall u, w | u in s'.pc && s'.pc[u].Asleep? && s'.cell == u && w in Window(s') && s'.pc[w] != Probe(u)
      ensures (u, w) in s'.owed
    {
      if !st.WriteClaim? && w in s.pc && u in s.pc && InWindow(s.pc[w]) { assert w in Window(s); }
      if st.WriteClaim? && w in s.pc { assert w in Window(s); }
    }
  }

  /** Death and first publication must still be harmless; the sleepers only have to keep time. */
  lemma TimelyIsHarmless(s: State, st: Step)
    requires Listed(s) && Enabled(s, st) && st.Recheck? && Timely(s, st)
    ensures Harmless(s, st)
  {
    var t := st.who;
    assert Open(s) <= Window(s);
    if s.cell == t {
      assert forall w :: w in Window(s) ==> (t, w) !in s.owed;
      assert forall w :: w in Window(s) ==> s.pc[w] == Probe(t);
    }
  }

  function TryTimely(s: State, st: Step): State {
    if Enabled(s, st) && Timely(s, st) && (!st.Recheck? ==> Harmless(s, st)) then Do(s, st) else s
  }

  function ExecTimely(s: State, steps: seq<Step>): State
    decreases |steps|
  {
    if steps == [] then s else ExecTimely(TryTimely(s, steps[0]), steps[1..])
  }

  lemma {:induction false} TimelyExec(s: State, steps: seq<Step>)
    requires Good(s) && Listed(s)
    ensures Good(ExecTimely(s, steps)) && Listed(ExecTimely(s, steps))
    decreases |steps|
  {
    if steps != [] {
      var st := steps[0];
      if TryTimely(s, st) != s {
        ListedStep(s, st);
        if st.Recheck? { TimelyIsHarmless(s, st); }
        GoodStep(s, st);
      }
      TimelyExec(TryTimely(s, st), steps[1..]);
    }
  }

  /**
   Dead-owner recovery is exclusive over any number of waiters, crashes and recoveries: value plus live holders never
   exceeds one, and each token that its holder took to the grave, or forgot, is taken over at most once.
   */
  lemma RecoveryExclusive(steps: seq<Step>)
    ensures var s := ExecTimely(INIT, steps); s.value + |Holders(s)| <= 1 && s.steals <= s.losses <= s.steals + 1
  {
    assert Holders(INIT) == {};
    TimelyExec(INIT, steps);
  }

  /** The lock as its users see it: a count, the threads inside, and tokens nobody holds. */
  datatype Lock = Lock(value: nat, holders: set<Tid>, lost: int)

  function Seen(s: State): Lock { Lock(s.value, Holders(s), s.losses - s.steals) }

  /** Acquire, release, die or leave with the token, or take over a lost one. */
  ghost predicate LockStep(a: Lock, t: Tid, b: Lock) {
    || b == a
    || (a.value > 0 && t !in a.holders && b == Lock(a.value - 1, a.holders + {t}, a.lost))
    || (t in a.holders && b == Lock(a.value + 1, a.holders - {t}, a.lost))
    || (t in a.holders && b == Lock(a.value, a.holders - {t}, a.lost + 1))
    || (a.lost > 0 && t !in a.holders && b == Lock(a.value, a.holders + {t}, a.lost - 1))
  }

  lemma HoldersAfter(s: State, st: Step)
    requires Enabled(s, st)
    ensures Holders(Do(s, st)) ==
      if Holding(At(Do(s, st), st.who)) then Holders(s) + {st.who} else Holders(s) - {st.who}
    ensures st.who in Holders(s) <==> Holding(At(s, st.who))
  {
    NextPc(s, st);
  }

  /** Only these steps change who is inside or how many tokens there are. */
  predicate Moves(s: State, st: Step) {
    st.Take? || st.Release? || st.Leak? || (st.Die? && Holding(At(s, st.who))) || (st.Recheck? && s.cell == st.who)
  }

  lemma UnseenStep(s: State, st: Step)
    requires Enabled(s, st) && !Moves(s, st)
    ensures Seen(Do(s, st)) == Seen(s)
  {
    HoldersAfter(s, st);
    var s' := Do(s, st);
    assert Holding(At(s', st.who)) == Holding(At(s, st.who));
    assert Holders(s') == Holders(s);
  }

  /**
   Recovery is a lock whose lost tokens are taken over one by one, which is what the queue's step system assumes of it.
   */
  lemma RecoveryRefinesLock(s: State, st: Step)
    requires Good(s) && Enabled(s, st) && Harmless(s, st)
    ensures LockStep(Seen(s), st.who, Seen(Do(s, st)))
  {
    if Moves(s, st) {
      HoldersAfter(s, st);
      if st.Recheck? {
        assert Tokens(s) == 0;
      }
    } else {
      UnseenStep(s, st);
    }
  }

  // ---- rounds

  predicate Trying(p: Pc) { p.Waiting? || p.Got? || p.SelfTest? || p.Load? || p.Probe? || p.Claim? || p.Asleep? }

  /** A round that ends without the lock: my own id stands, the owner lives, or somebody wrote over my claim. */
  predicate RoundFails(s: State, st: Step)
    requires Enabled(s, st)
  {
    || (st.TestSelf? && s.cell == st.who)
    || (st.ProbeOwner? && Exists(s, At(s, st.who).owner))
    || (st.Recheck? && s.cell != st.who)
  }

  /**
   Wait returns without the lock exactly for an error of its wait or a failed round with the budget used up; a failed
   round goes back to the wait exactly when it is not; and Wait returns with the lock exactly once its id stands.
   */
  lemma WaitEndsIff(s: State, st: Step)
    requires Enabled(s, st) && Trying(At(s, st.who))
    ensures var p' := At(Do(s, st), st.who);
      && (p'.Out? <==> st.Fail? || (RoundFails(s, st) && st.last))
      && (p'.Waiting? <==> RoundFails(s, st) && !st.last)
      && (p'.In? <==> st.Publish? || (st.Recheck? && s.cell == st.who))
      && (p'.In? ==> Do(s, st).cell == st.who)
  {
  }

  /** Any thread may die, any wait may fail or run out, and a holder may go with or without Post. */
  lemma AlwaysPossible(s: State, t: Tid, last: bool)
    requires t != 0 && !At(s, t).Dead?
    ensures Enabled(s, Die(t)) && (At(s, t).Out? ==> Enabled(s, Enter(t))) && (At(s, t).Got? ==> Enabled(s, Publish(t)))
    ensures At(s, t).Waiting? ==>
      Enabled(s, Fail(t)) && Enabled(s, TimeOut(t)) && (Enabled(s, Take(t)) <==> s.value > 0)
    ensures At(s, t).In? ==> Enabled(s, Release(t)) && Enabled(s, Leak(t))
    ensures Trying(At(s, t)) && !At(s, t).Waiting? && !At(s, t).Got? ==>
      || Enabled(s, TestSelf(t, last)) || Enabled(s, LoadCell(t)) || Enabled(s, ProbeOwner(t, last))
      || Enabled(s, WriteClaim(t)) || Enabled(s, Recheck(t, last))
  {
  }

  /** A thread that is past its self-test is not the published one, and none asks for itself. */
  ghost predicate LooksAtOthers(s: State) {
    0 !in s.pc && forall t :: t in s.pc ==> (s.pc[t].Load? ==> s.cell != t) && s.pc[t] != Probe(t)
  }

  lemma {:induction false} NobodyAsksForItself(s: State, steps: seq<Step>)
    requires LooksAtOthers(s)
    ensures LooksAtOthers(Exec(s, steps))
    decreases |steps|
  {
    if steps != [] {
      if Enabled(s, steps[0]) { NextPc(s, steps[0]); }
      NobodyAsksForItself(Try(s, steps[0]), steps[1..]);
    }
  }

  // ---- when recovery works, and when it cannot

  /**
   A lost lock can still be had: its owner is dead, somebody is about to write its id, or the named one sleeps on it.
   */
  predicate Recoverable(s: State) { !Exists(s, s.cell) || Open(s) != {} || At(s, s.cell).Asleep? }

  lemma TakesOver(s: State) returns (more: seq<Step>, h: Tid)
    requires Tokens(s) == 0 && Recoverable(s) && 0 !in s.pc
    ensures NobodyDies(more) && TakenOver(s, Exec(s, more), h)
  {
    if Open(s) != {} {
      more, h := WindowTakesOver(s);
    } else if !Exists(s, s.cell) {
      var first, s' := LateWaiterOpens(s);
      var rest;
      rest, h := WindowTakesOver(s');
      ExecJoin(s, first, rest);
      more := first + rest;
      QuietFirst(s, s', Exec(s', rest), h);
    } else {
      h := s.cell;
      FinderTakes(s, h);
      ExecCons(s, Recheck(h, false), []);
      more := [Recheck(h, false)];
      assert Exec(s, more) == Do(s, Recheck(h, false));
    }
  }

  lemma StrandedStep(s: State, st: Step)
    requires Tokens(s) == 0 && !Recoverable(s) && Enabled(s, st) && !st.Die?
    ensures Tokens(Do(s, st)) == 0 && !Recoverable(Do(s, st))
  {
    var s', t := Do(s, st), st.who;
    TokenFlow(s, st);
    NextPc(s, st);
    assert t !in Holders(s) && t !in Open(s);
    forall u | u in s'.pc
      ensures u !in Open(s')
    {
      assert u !in Open(s);
    }
  }

  lemma {:induction false} StaysStranded(s: State, steps: seq<Step>)
    requires Tokens(s) == 0 && !Recoverable(s) && NobodyDies(steps)
    ensures Tokens(Exec(s, steps)) == 0
    decreases |steps|
  {
    if steps != [] {
      var st := steps[0];
      if Enabled(s, st) && Harmless(s, st) { StrandedStep(s, st); }
      StaysStranded(Try(s, st), steps[1..]);
    }
  }

  /** Exactly when a lost lock comes back without another death. */
  lemma RecoverableIff(s: State)
    requires Tokens(s) == 0 && 0 !in s.pc
    ensures (exists more :: NobodyDies(more) && Tokens(Exec(s, more)) == 1) <==> Recoverable(s)
  {
    if Recoverable(s) {
      var more, h := TakesOver(s);
    } else {
      forall more | NobodyDies(more)
        ensures Tokens(Exec(s, more)) == 0
      {
        StaysStranded(s, more);
      }
    }
  }

  lemma HandsOver(s: State, h: Tid, w: Tid)
    requires At(s, h).In? && At(s, w).Waiting? && s.value == 0 && 0 !in s.pc
    ensures At(Exec(s, [Release(h), Take(w), Publish(w)]), w).In?
  {
    var s1 := Do(s, Release(h));
    var s2 := Do(s1, Take(w));
    ExecCons(s2, Publish(w), []);
    ExecCons(s1, Take(w), [Publish(w)]);
    ExecCons(s, Release(h), [Take(w), Publish(w)]);
  }

  /** And a waiter gets it by then, whoever takes it over first, exactly when it comes back at all. */
  lemma WaiterServedIff(s: State, w: Tid)
    requires Tokens(s) == 0 && 0 !in s.pc && At(s, w).Waiting?
    ensures (exists more :: NobodyDies(more) && At(Exec(s, more), w).In?) <==> Recoverable(s)
  {
    if Recoverable(s) {
      var first, h := TakesOver(s);
      var s' := Exec(s, first);
      assert w in s.pc;
      HandsOver(s', h, w);
      ExecJoin(s, first, [Release(h), Take(w), Publish(w)]);
      assert NobodyDies(first + [Release(h), Take(w), Publish(w)]);
    } else {
      forall more | NobodyDies(more)
        ensures !At(Exec(s, more), w).In?
      {
        StaysStranded(s, more);
        assert w !in Holders(Exec(s, more));
      }
    }
  }

  // ---- one waiter on its own

  predicate AllBy(steps: seq<Step>, w: Tid) { forall i :: 0 <= i < |steps| ==> steps[i].who == w }

  lemma DeadOwnerIsFound(s: State, w: Tid)
    requires At(s, w).Waiting? && w != 0 && s.cell != w && !Exists(s, s.cell) && Tokens(s) == 0
    ensures Exec(s, [TimeOut(w), TestSelf(w, false), LoadCell(w), ProbeOwner(w, false)]) == s.(pc := s.pc[w := Claim])
  {
    var s1 := Do(s, TimeOut(w));
    TokenFlow(s, TimeOut(w));
    var s2 := Do(s1, TestSelf(w, false));
    TokenFlow(s1, TestSelf(w, false));
    var s3 := Do(s2, LoadCell(w));
    var s4 := Do(s3, ProbeOwner(w, false));
    ExecCons(s3, ProbeOwner(w, false), []);
    ExecCons(s2, LoadCell(w), [ProbeOwner(w, false)]);
    ExecCons(s1, TestSelf(w, false), [LoadCell(w), ProbeOwner(w, false)]);
    ExecCons(s, TimeOut(w), [TestSelf(w, false), LoadCell(w), ProbeOwner(w, false)]);
    assert s4.pc == s.pc[w := Claim];
  }

  lemma LoneClaimHolds(s: State, w: Tid)
    requires At(s, w).Claim? && Open(s) == {w} && 0 !in s.pc
    ensures At(Exec(s, [WriteClaim(w), Recheck(w, false)]), w).In?
  {
    assert w in Open(s) && w !in Probing(s);
    ClaimLeaves(s, w);
    var s1 := Do(s, WriteClaim(w));
    FinderTakes(s1, w);
    ExecCons(s1, Recheck(w, false), []);
    ExecCons(s, WriteClaim(w), [Recheck(w, false)]);
  }

  /** A waiter that finds a dead owner and nobody else about to take over gets the lost lock by its own six steps. */
  lemma LoneWaiterRecovers(s: State, w: Tid)
    requires At(s, w).Waiting? && !Exists(s, s.cell) && Tokens(s) == 0 && Open(s) == {} && 0 !in s.pc
    ensures var look := [TimeOut(w), TestSelf(w, false), LoadCell(w), ProbeOwner(w, false)];
      At(Exec(s, look + [WriteClaim(w), Recheck(w, false)]), w).In?
  {
    DeadOwnerIsFound(s, w);
    var s4 := s.(pc := s.pc[w := Claim]);
    forall u
      ensures u in Open(s4) <==> u == w
    {
      assert u !in Open(s);
    }
    LoneClaimHolds(s4, w);
    var look := [TimeOut(w), TestSelf(w, false), LoadCell(w), ProbeOwner(w, false)];
    ExecJoin(s, look, [WriteClaim(w), Recheck(w, false)]);
  }

  /** What keeps a lone waiter out: the named thread lives, or somebody else stands in an open window. */
  ghost predicate Outside(s: State, w: Tid) {
    Tokens(s) == 0 && (At(s, w).Dead? || OwnerLives(s, w) || exists u :: u in Open(s) && u != w)
  }

  predicate OwnerLives(s: State, w: Tid) {
    Exists(s, s.cell) &&
    (At(s, w).Out? || At(s, w).Waiting? || At(s, w).SelfTest? || At(s, w).Load? || At(s, w) == Probe(s.cell))
  }

  lemma OutsideStep(s: State, st: Step)
    requires Outside(s, st.who) && Enabled(s, st) && Harmless(s, st)
    ensures Outside(Do(s, st), st.who)
  {
    var s', w := Do(s, st), st.who;
    TokenFlow(s, st);
    NextPc(s, st);
    assert w !in Holders(s);
    if u :| u in Open(s) && u != w {
      assert u in Open(s');
    }
  }

  lemma {:induction false} StaysOutside(s: State, steps: seq<Step>, w: Tid)
    requires Outside(s, w) && AllBy(steps, w)
    ensures Outside(Exec(s, steps), w)
    decreases |steps|
  {
    if steps != [] {
      var st := steps[0];
      if Enabled(s, st) && Harmless(s, st) { OutsideStep(s, st); }
      StaysOutside(Try(s, st), steps[1..], w);
    }
  }

  /** Exactly when a waiter can recover a lost lock by itself, while all others stand still. */
  lemma LoneWaiterIff(s: State, w: Tid)
    requires Tokens(s) == 0 && 0 !in s.pc && At(s, w).Waiting?
    ensures (exists more :: AllBy(more, w) && At(Exec(s, more), w).In?) <==> !Exists(s, s.cell) && Open(s) == {}
  {
    if !Exists(s, s.cell) && Open(s) == {} {
      LoneWaiterRecovers(s, w);
      var look := [TimeOut(w), TestSelf(w, false), LoadCell(w), ProbeOwner(w, false)];
      var more := look + [WriteClaim(w), Recheck(w, false)];
      assert AllBy(more, w);
    } else {
      if u :| u in Open(s) { assert u != w; }
      forall more | AllBy(more, w)
        ensures !At(Exec(s, more), w).In?
      {
        StaysOutside(s, more, w);
        assert w !in Holders(Exec(s, more));
      }
    }
  }

  // ---- locks lost for as long as somebody lives

  predicate Spares(steps: seq<Step>, x: Tid) { forall i :: 0 <= i < |steps| ==> steps[i] != Die(x) }

  /**
   The token is lost, the cell names a living thread that is not about to find itself, and nobody looks at anybody
   else.
   */
  ghost predicate Orphaned(s: State, x: Tid) {
    && Tokens(s) == 0 && s.cell == x && Exists(s, x) && !At(s, x).Asleep?
    && forall u :: u in Window(s) ==> s.pc[u] == Probe(x) || s.pc[u] == Probe(u)
  }

  /**
   A holder that dies before it has published itself loses the lock for as long as the thread named before it lives.
   */
  lemma {:induction false} OrphanedForever(s: State, steps: seq<Step>, x: Tid)
    requires Orphaned(s, x) && Spares(steps, x)
    ensures Orphaned(Exec(s, steps), x)
    decreases |steps|
  {
    if steps != [] {
      var st := steps[0];
      if Enabled(s, st) && Harmless(s, st) { OrphanedStep(s, st, x); }
      OrphanedForever(Try(s, st), steps[1..], x);
    }
  }

  lemma OrphanedStep(s: State, st: Step, x: Tid)
    requires Orphaned(s, x) && Enabled(s, st) && st != Die(x)
    ensures Orphaned(Do(s, st), x)
  {
    var s', t := Do(s, st), st.who;
    TokenFlow(s, st);
    NextPc(s, st);
    assert InWindow(At(s, t)) ==> t in Window(s);
    assert t !in Holders(s);
    forall u | u in Window(s')
      ensures s'.pc[u] == Probe(x) || s'.pc[u] == Probe(u)
    {
      if u != t { assert u in Window(s); }
    }
  }

  /** A death that makes a prober's window open. */
  lemma ProbedDies(s: State, u: Tid, y: Tid)
    requires Tokens(s) == 0 && u in s.pc && s.pc[u] == Probe(y) && y != u && Exists(s, y) && 0 !in s.pc
    ensures Enabled(s, Die(y)) && Harmless(s, Die(y))
    ensures Tokens(Do(s, Die(y))) == 0 && u in Open(Do(s, Die(y))) && 0 !in Do(s, Die(y)).pc
  {
    TokenFlow(s, Die(y));
    assert y !in Holders(s);
  }

  lemma NotOrphaned(s: State) returns (more: seq<Step>)
    requires Tokens(s) == 0 && 0 !in s.pc && !Orphaned(s, s.cell)
    ensures Spares(more, s.cell) && Tokens(Exec(s, more)) == 1
  {
    var h;
    if Recoverable(s) {
      more, h := TakesOver(s);
    } else {
      var u :| u in Window(s) && s.pc[u] != Probe(s.cell) && s.pc[u] != Probe(u);
      assert u !in Open(s);
      var y := s.pc[u].owner;
      ProbedDies(s, u, y);
      var rest;
      rest, h := TakesOver(Do(s, Die(y)));
      ExecCons(s, Die(y), rest);
      more := [Die(y)] + rest;
    }
  }

  /** Exactly when no run that spares the named thread brings a lost lock back, whoever else dies. */
  lemma OrphanedIff(s: State)
    requires Tokens(s) == 0 && 0 !in s.pc
    ensures (forall more :: Spares(more, s.cell) ==> Tokens(Exec(s, more)) == 0) <==> Orphaned(s, s.cell)
  {
    if Orphaned(s, s.cell) {
      forall more | Spares(more, s.cell)
        ensures Tokens(Exec(s, more)) == 0
      {
        OrphanedForever(s, more, s.cell);
      }
    } else {
      var more := NotOrphaned(s);
    }
  }

  // ---- runs from a new semaphore

  lemma {:induction false} StartsGood(s: State, steps: seq<Step>)
    requires Good(s) && 0 !in s.pc
    ensures Good(Exec(s, steps)) && 0 !in Exec(s, steps).pc
    decreases |steps|
  {
    if steps != [] {
      if Enabled(s, steps[0]) && Harmless(s, steps[0]) {
        GoodStep(s, steps[0]);
        NextPc(s, steps[0]);
      }
      StartsGood(Try(s, steps[0]), steps[1..]);
    }
  }

  lemma NewIsGood()
    ensures Good(INIT) && 0 !in INIT.pc
  {
    assert Holders(INIT) == {};
  }

  lemma ThenStep(s: State, steps: seq<Step>, st: Step)
    requires Enabled(Exec(s, steps), st) && Harmless(Exec(s, steps), st)
    ensures Exec(s, steps + [st]) == Do(Exec(s, steps), st)
  {
    ExecJoin(s, steps, [st]);
    ExecCons(Exec(s, steps), st, []);
  }

  /** Thread 1 has the lock and gives it back; thread 2 gets it and has not published itself yet. */
  function HandOver(): seq<Step> { [Enter(1), Take(1), Publish(1)] + [Release(1)] + [Enter(2)] + [Take(2)] }

  lemma HandOverState()
    ensures Exec(INIT, HandOver()) == State(0, 1, map[1 := Out, 2 := Got], {}, 0, 0)
  {
    var s1 := Do(INIT, Enter(1));
    var s2 := Do(s1, Take(1));
    ExecCons(s2, Publish(1), []);
    ExecCons(s1, Take(1), [Publish(1)]);
    ExecCons(INIT, Enter(1), [Take(1), Publish(1)]);
    var a := [Enter(1), Take(1), Publish(1)];
    assert Exec(INIT, a) == State(0, 1, map[1 := In], {}, 0, 0);
    ThenStep(INIT, a, Release(1));
    ThenStep(INIT, a + [Release(1)], Enter(2));
    ThenStep(INIT, a + [Release(1)] + [Enter(2)], Take(2));
    assert Exec(INIT, HandOver()).pc == map[1 := Out, 2 := Got];
  }

  lemma OrphanState()
    ensures Exec(INIT, HandOver() + [Die(2)]) == State(0, 1, map[1 := Out, 2 := Dead], {}, 1, 0)
  {
    HandOverState();
    var s := Exec(INIT, HandOver());
    NewIsGood();
    StartsGood(INIT, HandOver());
    assert Holders(s) == {2};
    ThenStep(INIT, HandOver(), Die(2));
    assert Do(s, Die(2)).pc == map[1 := Out, 2 := Dead];
  }

  /** If the second holder now dies, the lock is lost for as long as the first thread lives. */
  lemma OrphanIsReachable()
    ensures Orphaned(Exec(INIT, HandOver() + [Die(2)]), 1)
  {
    OrphanState();
    var s := State(0, 1, map[1 := Out, 2 := Dead], {}, 1, 0);
    assert Holders(s) == {} && Window(s) == {};
  }

  /** If the first thread exits instead, long after it released the lock, two threads can end up with tokens. */
  lemma ExitAfterReleaseBreaks() returns (more: seq<Step>)
    ensures Enabled(Exec(INIT, HandOver()), Die(1))
    ensures Tokens(Exec(Do(Exec(INIT, HandOver()), Die(1)), more)) >= 2
  {
    HandOverState();
    NewIsGood();
    StartsGood(INIT, HandOver());
    var s := Exec(INIT, HandOver());
    assert Holders(s) == {2};
    more := HarmfulBreaks(s, Die(1));
  }

  /** The first holder ever has not published itself when another thread runs out of patience. */
  function EarlyLook(): seq<Step> { [Enter(1), Enter(2), Take(1)] + [TimeOut(2)] + [TestSelf(2, false)] }

  lemma EarlyLookState()
    ensures Exec(INIT, EarlyLook()) == State(0, 0, map[1 := Got, 2 := Load], {}, 0, 0)
  {
    var s1 := Do(INIT, Enter(1));
    var s2 := Do(s1, Enter(2));
    ExecCons(s2, Take(1), []);
    ExecCons(s1, Enter(2), [Take(1)]);
    ExecCons(INIT, Enter(1), [Enter(2), Take(1)]);
    var a := [Enter(1), Enter(2), Take(1)];
    assert Exec(INIT, a) == State(0, 0, map[1 := Got, 2 := Waiting], {}, 0, 0);
    ThenStep(INIT, a, TimeOut(2));
    ThenStep(INIT, a + [TimeOut(2)], TestSelf(2, false));
    assert Exec(INIT, EarlyLook()).pc == map[1 := Got, 2 := Load];
  }

  /** The id cell that was never written counts as a dead owner, and the lock is taken although it is held. */
  lemma UnwrittenIdBreaks() returns (more: seq<Step>)
    ensures Enabled(Exec(INIT, EarlyLook()), LoadCell(2))
    ensures Tokens(Exec(Do(Exec(INIT, EarlyLook()), LoadCell(2)), more)) >= 2
  {
    EarlyLookState();
    NewIsGood();
    StartsGood(INIT, EarlyLook());
    var s := Exec(INIT, EarlyLook());
    assert Holders(s) == {1};
    more := HarmfulBreaks(s, LoadCell(2));
  }

  /** Thread 3 looks at the first holder while the second one gets in. */
  function LateProbe(): seq<Step> {
    [Enter(1), Enter(3), Take(1)] + [TimeOut(3)] + [Publish(1)] + [TestSelf(3, false)] + [LoadCell(3)] + [Release(1)] +
    [Enter(2)] + [Take(2)] + [Publish(2)]
  }

  lemma LateProbeState()
    ensures Exec(INIT, LateProbe()) == State(0, 2, map[1 := Out, 2 := In, 3 := Probe(1)], {}, 0, 0)
  {
    var s1 := Do(INIT, Enter(1));
    var s2 := Do(s1, Enter(3));
    ExecCons(s2, Take(1), []);
    ExecCons(s1, Enter(3), [Take(1)]);
    ExecCons(INIT, Enter(1), [Enter(3), Take(1)]);
    var a := [Enter(1), Enter(3), Take(1)];
    ThenStep(INIT, a, TimeOut(3));
    a := a + [TimeOut(3)];
    ThenStep(INIT, a, Publish(1));
    a := a + [Publish(1)];
    ThenStep(INIT, a, TestSelf(3, false));
    a := a + [TestSelf(3, false)];
    assert Exec(INIT, a) == State(0, 1, map[1 := In, 3 := Load], {}, 0, 0);
    LateProbeEnd(a);
  }

  lemma LateProbeEnd(a: seq<Step>)
    requires Exec(INIT, a) == State(0, 1, map[1 := In, 3 := Load], {}, 0, 0)
    ensures Exec(INIT, a + [LoadCell(3)] + [Release(1)] + [Enter(2)] + [Take(2)] + [Publish(2)])
            == State(0, 2, map[1 := Out, 2 := In, 3 := Probe(1)], {}, 0, 0)
  {
    ThenStep(INIT, a, LoadCell(3));
    ThenStep(INIT, a + [LoadCell(3)], Release(1));
    ThenStep(INIT, a + [LoadCell(3)] + [Release(1)], Enter(2));
    ThenStep(INIT, a + [LoadCell(3)] + [Release(1)] + [Enter(2)], Take(2));
    ThenStep(INIT, a + [LoadCell(3)] + [Release(1)] + [Enter(2)] + [Take(2)], Publish(2));
  }

  lemma ProbedDeathHarms(s: State)
    requires s == State(0, 2, map[1 := Out, 2 := In, 3 := Probe(1)], {}, 0, 0)
    ensures Enabled(s, Die(1)) && !Harmless(s, Die(1))
  {
    assert Holders(s) == {2};
    assert s.pc[3] == Probe(1);
  }

  /**
   A thread that exits while somebody still asks for it, with another owner published, lets the lock be taken twice.
   */
  lemma ProbedExitBreaks() returns (more: seq<Step>)
    ensures Enabled(Exec(INIT, LateProbe()), Die(1))
    ensures Tokens(Exec(Do(Exec(INIT, LateProbe()), Die(1)), more)) >= 2
  {
    LateProbeState();
    NewIsGood();
    StartsGood(INIT, LateProbe());
    ProbedDeathHarms(Exec(INIT, LateProbe()));
    more := HarmfulBreaks(Exec(INIT, LateProbe()), Die(1));
  }

  /** The holder is dead, one waiter sleeps on its claim and another is still about to write its own. */
  function TwoClaims(): seq<Step> {
    [Enter(1), Take(1), Publish(1)] + [Enter(2)] + [Enter(3)] + [Die(1)] +
    [TimeOut(2)] + [TestSelf(2, false)] + [LoadCell(2)] + [ProbeOwner(2, false)] +
    [TimeOut(3)] + [TestSelf(3, false)] + [LoadCell(3)] + [ProbeOwner(3, false)] + [WriteClaim(2)]
  }

  lemma TwoWaiters()
    ensures Exec(INIT, [Enter(1), Take(1), Publish(1)] + [Enter(2)] + [Enter(3)])
            == State(0, 1, map[1 := In, 2 := Waiting, 3 := Waiting], {}, 0, 0)
  {
    var s1 := Do(INIT, Enter(1));
    var s2 := Do(s1, Take(1));
    ExecCons(s2, Publish(1), []);
    ExecCons(s1, Take(1), [Publish(1)]);
    ExecCons(INIT, Enter(1), [Take(1), Publish(1)]);
    var a := [Enter(1), Take(1), Publish(1)];
    ThenStep(INIT, a, Enter(2));
    ThenStep(INIT, a + [Enter(2)], Enter(3));
  }

  lemma HolderDies(a: seq<Step>)
    requires Exec(INIT, a) == State(0, 1, map[1 := In, 2 := Waiting, 3 := Waiting], {}, 0, 0)
    ensures Exec(INIT, a + [Die(1)]) == State(0, 1, map[1 := Dead, 2 := Waiting, 3 := Waiting], {}, 1, 0)
  {
    var s := Exec(INIT, a);
    assert Holders(s) == {1};
    ThenStep(INIT, a, Die(1));
    assert Do(s, Die(1)).pc == map[1 := Dead, 2 := Waiting, 3 := Waiting];
  }

  lemma FirstClaims(a: seq<Step>)
    requires Exec(INIT, a) == State(0, 1, map[1 := Dead, 2 := Claim, 3 := Claim], {}, 1, 0)
    ensures Exec(INIT, a + [WriteClaim(2)]) == State(0, 2, map[1 := Dead, 2 := Asleep, 3 := Claim], {(2, 3)}, 1, 0)
  {
    var s := Exec(INIT, a);
    ThenStep(INIT, a, WriteClaim(2));
    assert Window(s) == {2, 3};
    assert Do(s, WriteClaim(2)).owed == {(2, 3)};
  }

  lemma TwoClaimsState()
    ensures Exec(INIT, TwoClaims()) == State(0, 2, map[1 := Dead, 2 := Asleep, 3 := Claim], {(2, 3)}, 1, 0)
  {
    TwoWaiters();
    var a := [Enter(1), Take(1), Publish(1)] + [Enter(2)] + [Enter(3)];
    HolderDies(a);
    a := a + [Die(1)];
    FindsDead(a, 2);
    a := a + [TimeOut(2)] + [TestSelf(2, false)] + [LoadCell(2)] + [ProbeOwner(2, false)];
    FindsDead(a, 3);
    a := a + [TimeOut(3)] + [TestSelf(3, false)] + [LoadCell(3)] + [ProbeOwner(3, false)];
    assert Exec(INIT, a).pc == map[1 := Dead, 2 := Claim, 3 := Claim];
    FirstClaims(a);
  }

  /** One waiter up to the point where it is about to write its id. */
  lemma FindsDead(a: seq<Step>, w: Tid)
    requires var s := Exec(INIT, a); At(s, w).Waiting? && w > 1 && s.cell == 1 && At(s, 1).Dead? && s.owed == {}
    ensures Exec(INIT, a + [TimeOut(w)] + [TestSelf(w, false)] + [LoadCell(w)] + [ProbeOwner(w, false)])
            == Exec(INIT, a).(pc := Exec(INIT, a).pc[w := Claim])
  {
    ThenStep(INIT, a, TimeOut(w));
    ThenStep(INIT, a + [TimeOut(w)], TestSelf(w, false));
    ThenStep(INIT, a + [TimeOut(w)] + [TestSelf(w, false)], LoadCell(w));
    ThenStep(INIT, a + [TimeOut(w)] + [TestSelf(w, false)] + [LoadCell(w)], ProbeOwner(w, false));
  }

  /** A sleep that is too short lets two waiters take over the same lost lock. */
  lemma ShortSleepBreaks() returns (more: seq<Step>)
    ensures Enabled(Exec(INIT, TwoClaims()), Recheck(2, false)) && !Timely(Exec(INIT, TwoClaims()), Recheck(2, false))
    ensures Tokens(Exec(Do(Exec(INIT, TwoClaims()), Recheck(2, false)), more)) >= 2
  {
    TwoClaimsState();
    NewIsGood();
    StartsGood(INIT, TwoClaims());
    var s := Exec(INIT, TwoClaims());
    assert (2, 3) in s.owed;
    assert 3 in Open(s);
    more := HarmfulBreaks(s, Recheck(2, false));
  }
}
