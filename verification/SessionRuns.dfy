/** The session tables over whole runs of calls by any processes, on the bytes of the segment. */
module SessionRuns {
  import opened Basics
  import opened SegmentBytes
  import opened SessionTables
  import opened SessionMemory

  /** A fresh shared memory object. */
  function NewSegment(): (m: seq<Byte>)
    ensures Sized(m)
  {
    seq(SEGMENT, _ => 0)
  }

  function Run(m: seq<Byte>, calls: seq<Call>): (n: seq<Byte>)
    requires Sized(m)
    ensures Sized(n)
  {
    if calls == [] then m else Bytes(Run(m, calls[..|calls| - 1]), calls[|calls| - 1])
  }

  /** Every call keeps to its caller's bytes, where it happens. */
  ghost predicate AllHome(m: seq<Byte>, calls: seq<Call>)
    requires Sized(m)
  {
    forall n :: 0 <= n < |calls| ==> StaysHome(Run(m, calls[..n]), calls[n])
  }

  // ---- one slot a process

  lemma SamePids(m: seq<Byte>, n: seq<Byte>, i: nat)
    requires Sized(m) && Sized(n) && i < APPS && forall a :: 0 <= a < SEGMENT && !Own(i, a) ==> n[a] == m[a]
    ensures View(n).pids == View(m).pids
  {
    OneApp(m, n, i);
  }

  lemma StartUpSound(t: Tables, pid: Pid)
    requires Sound(t)
    ensures Sound(StartUp(t, pid)) && Sound(CleanUp(t, pid))
  {
  }

  lemma PidsSound(t: Tables, t': Tables)
    requires Sound(t) && t'.pids == t.pids && |t'.apps| == APPS && forall i :: 0 <= i < APPS ==> AppSized(t'.apps[i])
    ensures Sound(t')
  {
  }

  lemma HomeSound(m: seq<Byte>, c: Call)
    requires Sized(m) && Sound(View(m)) && StaysHome(m, c)
    ensures Sound(View(Bytes(m, c)))
  {
    StartUpSound(View(m), c.pid);
    match c {
      case DoStartUp(pid) => StartUpRefines(m, pid);
      case DoCleanUp(pid) => CleanUpRefines(m, pid);
      case _ =>
        HomePids(m, c);
        PidsSound(View(m), View(Bytes(m, c)));
    }
  }

  lemma HomePids(m: seq<Byte>, c: Call)
    requires Sized(m) && StaysHome(m, c) && !c.DoStartUp? && !c.DoCleanUp?
    ensures View(Bytes(m, c)).pids == View(m).pids
  {
    var i := SlotFor(m, c);
    IsolatedIff(m, c);
    if i < APPS { SamePids(m, Bytes(m, c), i); }
  }

  lemma NewIsBlank()
    ensures View(NewSegment()) == Zeroed()
  {
    var m := NewSegment();
    forall i | 0 <= i < APPS
      ensures PidIn(m, i) == 0 && AppIn(m, i) == Blank()
    {
      LoadZero(m, PidAt(i), 4);
      forall k | 0 <= k < SLOTS
        ensures ServiceIn(m, i, k) == Service(0, 0) && !HandleIn(m, i, k)
      {
        LoadZero(m, CounterAt(i, k), 8);
        LoadZero(m, CounterAt(i, k) + 8, 8);
      }
    }
  }

  /** Over every run of calls that keep to their callers' bytes a process has at most one slot. */
  lemma {:induction false} RunSound(calls: seq<Call>)
    requires AllHome(NewSegment(), calls)
    ensures Sound(View(Run(NewSegment(), calls)))
  {
    if calls == [] {
      NewIsBlank();
    } else {
      var n := |calls| - 1;
      assert forall k :: 0 <= k < n ==> calls[..n][..k] == calls[..k];
      RunSound(calls[..n]);
      HomeSound(Run(NewSegment(), calls[..n]), calls[n]);
    }
  }

  // ---- isolation

  /** A call of one process that stays at home leaves every byte of the others' slots as it is. */
  lemma OthersUntouched(m: seq<Byte>, c: Call, i: nat)
    requires Sized(m) && Sound(View(m)) && i < APPS && PidIn(m, i) != 0 && PidIn(m, i) != c.pid && StaysHome(m, c)
    ensures forall a :: 0 <= a < SEGMENT && (Own(i, a) || OwnPid(i, a)) ==> Bytes(m, c)[a] == m[a]
    ensures PidIn(Bytes(m, c), i) == PidIn(m, i) && AppIn(Bytes(m, c), i) == AppIn(m, i)
  {
    var j := SlotFor(m, c);
    IsolatedIff(m, c);
    if j < APPS {
      assert j != i;
      assert forall a :: Own(i, a) || OwnPid(i, a) ==> !Allowed(c, j, a);
    }
    SameApp(m, Bytes(m, c), i);
    SamePid(m, Bytes(m, c), i);
  }

  lemma {:induction false} OthersUntouchedRun(m: seq<Byte>, calls: seq<Call>, i: nat)
    requires Sized(m) && Sound(View(m)) && i < APPS && PidIn(m, i) != 0 && AllHome(m, calls)
    requires forall k :: 0 <= k < |calls| ==> calls[k].pid != PidIn(m, i)
    ensures Sound(View(Run(m, calls)))
    ensures PidIn(Run(m, calls), i) == PidIn(m, i) && AppIn(Run(m, calls), i) == AppIn(m, i)
  {
    if calls != [] {
      var n := |calls| - 1;
      assert forall k :: 0 <= k < n ==> calls[..n][..k] == calls[..k];
      OthersUntouchedRun(m, calls[..n], i);
      OthersUntouched(Run(m, calls[..n]), calls[n], i);
      HomeSound(Run(m, calls[..n]), calls[n]);
    }
  }

  // ---- sessions

  /**
   Cleaning up makes a process absent, and only then may it start again; a session starts blank whoever had the slot.
   */
  lemma SessionLife(calls: seq<Call>, pid: Pid)
    requires AllHome(NewSegment(), calls)
    ensures var m := Run(NewSegment(), calls); var t := View(m); var n := StartUpBytes(m, pid);
      && pid !in View(CleanUpBytes(m, pid)).pids
      && (StartUpReply(t, pid) == LFS_SUCCESS <==> pid !in t.pids && 0 in t.pids)
      && (StartUpReply(t, pid) == LFS_ERR_ALREADY_STARTED <==> pid in t.pids)
      && (StartUpReply(t, pid) == LFS_ERR_INTERNAL_ERROR <==> pid !in t.pids && 0 !in t.pids)
      && (StartUpReply(t, pid) == LFS_SUCCESS ==> Started(View(n), pid) && AppOf(View(n), pid) == Blank())
      && (StartUpReply(t, pid) != LFS_SUCCESS ==> n == m)
  {
    RunSound(calls);
    var m := Run(NewSegment(), calls);
    StartUpRefines(m, pid);
    CleanUpRefines(m, pid);
    StartedBlank(View(m), pid);
  }

  lemma StartedBlank(t: Tables, pid: Pid)
    requires Sound(t)
    ensures pid !in CleanUp(t, pid).pids
    ensures StartUpReply(t, pid) == LFS_SUCCESS <==> pid !in t.pids && 0 in t.pids
    ensures StartUpReply(t, pid) == LFS_SUCCESS ==>
      Started(StartUp(t, pid), pid) && AppOf(StartUp(t, pid), pid) == Blank()
  {
    if StartUpReply(t, pid) == LFS_SUCCESS {
      var i := IndexOf(t.pids, 0);
      assert StartUp(t, pid).pids[i] == pid;
    }
  }

  /** The log of one session. */
  function LogRun(m: seq<Byte>, calls: seq<Call>, pid: Pid): Log
    requires Sized(m)
  {
    if calls == [] then Nothing()
    else
      var t, c, g := View(Run(m, calls[..|calls| - 1])), calls[|calls| - 1], LogRun(m, calls[..|calls| - 1], pid);
      if c.pid == pid && InBounds(t, c) then Logged(t, c, pid, g) else g
  }

  /** The session keeps its own indices in its tables and does not end; the others' calls stay at home. */
  predicate Keeps(m: seq<Byte>, c: Call, pid: Pid)
    requires Sized(m)
  {
    if c.pid == pid then InBounds(View(m), c) && !c.DoCleanUp? else StaysHome(m, c)
  }

  ghost predicate WithinBounds(m: seq<Byte>, calls: seq<Call>, pid: Pid)
    requires Sized(m)
  {
    forall n :: 0 <= n < |calls| ==> Keeps(Run(m, calls[..n]), calls[n], pid)
  }

  lemma CreateLogged(m: seq<Byte>, pid: Pid, g: Log)
    requires Sized(m) && Session(View(m), pid, g)
    ensures Session(View(CreateBytes(m, pid)), pid, g)
  {
    CreateRefines(m, pid);
    HandlesOnly(View(m), CreateHandle(View(m), pid), pid, g);
  }

  lemma DestroyLogged(m: seq<Byte>, pid: Pid, h: nat, g: Log)
    requires Sized(m) && Session(View(m), pid, g) && h <= SLOTS
    ensures Session(View(DestroyBytes(m, pid, h)), pid, g)
  {
    DestroyRefines(m, pid, h, false);
    HandlesOnly(View(m), DestroyHandle(View(m), pid, h), pid, g);
  }

  lemma OwnCallLogged(m: seq<Byte>, c: Call, pid: Pid, g: Log)
    requires Sized(m) && Session(View(m), pid, g) && c.pid == pid && InBounds(View(m), c) && !c.DoCleanUp?
    ensures Session(View(Bytes(m, c)), pid, Logged(View(m), c, pid, g))
  {
    match c {
      case DoStartUp(_) =>
        StartUpRefines(m, pid);
      case DoOpen(_, lib) =>
        OpenRefines(m, pid, lib);
        OpenLogged(View(m), pid, lib, g);
      case DoIssue(_, service) =>
        IssueRefines(m, pid, service);
        IssueLogged(View(m), pid, service, g);
      case DoCreate(_) =>
        CreateLogged(m, pid, g);
      case DoDestroy(_, h) =>
        DestroyLogged(m, pid, h, g);
    }
  }

  lemma HandlesOnly(t: Tables, t': Tables, pid: Pid, g: Log)
    requires Session(t, pid, g) && t' == t.(apps := t'.apps) && |t'.apps| == APPS
    requires forall i :: 0 <= i < APPS ==> AppSized(t'.apps[i]) && t'.apps[i].services == t.apps[i].services
    ensures Session(t', pid, g)
  {
    ServicesLogged(t, t', pid, g);
  }

  lemma OtherCallLogged(m: seq<Byte>, c: Call, pid: Pid, g: Log)
    requires Sized(m) && Session(View(m), pid, g) && c.pid != pid && StaysHome(m, c)
    ensures Session(View(Bytes(m, c)), pid, g)
  {
    var i, n := SlotIn(m, pid), Bytes(m, c);
    HomeSound(m, c);
    OthersUntouched(m, c, i);
    assert View(n).pids[i] == pid;
    assert SlotOf(View(n), pid) == i;
    ServicesLogged(View(m), View(n), pid, g);
  }

  lemma BlankSession(t: Tables, pid: Pid)
    requires Sound(t) && Started(t, pid) && AppOf(t, pid) == Blank()
    ensures Session(t, pid, Nothing())
  {
  }

  lemma {:induction false} SessionRun(m: seq<Byte>, calls: seq<Call>, pid: Pid)
    requires Sized(m) && Sound(View(m)) && Started(View(m), pid) && AppOf(View(m), pid) == Blank()
    requires WithinBounds(m, calls, pid)
    ensures Session(View(Run(m, calls)), pid, LogRun(m, calls, pid))
  {
    if calls == [] {
      BlankSession(View(m), pid);
    } else {
      var n := |calls| - 1;
      assert forall k :: 0 <= k < n ==> calls[..n][..k] == calls[..k];
      SessionRun(m, calls[..n], pid);
      var mid := Run(m, calls[..n]);
      assert Keeps(mid, calls[n], pid);
      if calls[n].pid == pid {
        OwnCallLogged(mid, calls[n], pid, LogRun(m, calls[..n], pid));
      } else {
        OtherCallLogged(mid, calls[n], pid, LogRun(m, calls[..n], pid));
      }
    }
  }

  /**
   Within one session, whatever other processes do at home: no two successful opens return the same service, the ids
   issued on a slot go up by one from the first without a repeat, and a request succeeds exactly on an opened service.
   */
  lemma SessionIdentity(m: seq<Byte>, calls: seq<Call>, pid: Pid)
    requires Sized(m) && Sound(View(m)) && Started(View(m), pid) && AppOf(View(m), pid) == Blank()
    requires WithinBounds(m, calls, pid)
    ensures var g, n := LogRun(m, calls, pid), Run(m, calls);
      && Distinct(g.opens) && |g.ids| == SLOTS
      && (forall k :: 0 <= k < SLOTS ==> Consecutive(g.ids[k], FirstId(g, k)) && Distinct(g.ids[k]))
      && (forall service :: 0 < service <= SLOTS ==>
            (IssueBytesReply(n, pid, service).hr == LFS_SUCCESS <==> service in g.opens) &&
            IssueBytesReply(n, pid, service).out == FirstId(g, service - 1) + |g.ids[service - 1]|)
  {
    SessionRun(m, calls, pid);
    var g, n := LogRun(m, calls, pid), Run(m, calls);
    forall k | 0 <= k < SLOTS
      ensures Consecutive(g.ids[k], FirstId(g, k)) && Distinct(g.ids[k])
    {
      assert SlotLogged(AppOf(View(n), pid).services[k], g, k);
    }
    forall service | 0 < service <= SLOTS
      ensures (IssueBytesReply(n, pid, service).hr == LFS_SUCCESS <==> service in g.opens) &&
              IssueBytesReply(n, pid, service).out == FirstId(g, service - 1) + |g.ids[service - 1]|
    {
      IssueRefines(n, pid, service);
      assert SlotLogged(AppOf(View(n), pid).services[service - 1], g, service - 1);
    }
  }

  // ---- runs from a new segment that leave home

  /** StartUp by processes 1 to k, in this order. */
  function Starts(k: nat): seq<Call>
    requires k < 0x8000_0000
  {
    if k == 0 then [] else Starts(k - 1) + [DoStartUp(k)]
  }

  /** Processes 1 to k sit in this order on blank slots, and nobody else. */
  ghost predicate FirstOnes(t: Tables, k: nat) {
    && |t.pids| == APPS && |t.apps| == APPS && k <= APPS
    && (forall i :: 0 <= i < APPS ==> t.pids[i] == if i < k then i + 1 else 0)
    && (forall i :: 0 <= i < APPS ==> t.apps[i] == Blank())
  }

  lemma RunSnoc(m: seq<Byte>, calls: seq<Call>, c: Call)
    requires Sized(m)
    ensures Run(m, calls + [c]) == Bytes(Run(m, calls), c)
  {
    assert (calls + [c])[..|calls + [c]| - 1] == calls;
  }

  lemma NobodyYet()
    ensures FirstOnes(View(NewSegment()), 0)
  {
    NewIsBlank();
  }

  /** The segment after the first k starts. */
  lemma {:induction false} StartsFill(k: nat) returns (m: seq<Byte>)
    requires k <= APPS
    ensures m == Run(NewSegment(), Starts(k)) && Sized(m) && FirstOnes(View(m), k)
  {
    if k == 0 {
      m := NewSegment();
      NobodyYet();
    } else {
      var before := StartsFill(k - 1);
      m := StartUpBytes(before, k);
      StartsNext(before, k);
      RunSnoc(NewSegment(), Starts(k - 1), DoStartUp(k));
    }
  }

  lemma StartsNext(m: seq<Byte>, k: Pid)
    requires Sized(m) && k <= APPS && FirstOnes(View(m), k - 1)
    ensures FirstOnes(View(StartUpBytes(m, k)), k)
  {
    StartUpRefines(m, k);
    NextStart(View(m), k);
  }

  lemma NextStart(t: Tables, k: nat)
    requires 0 < k <= APPS && FirstOnes(t, k - 1)
    ensures FirstOnes(StartUp(t, k), k)
  {
    assert IndexOf(t.pids, 0) == k - 1 by { assert t.pids[k - 1] == 0; }
    assert k !in t.pids;
  }

  lemma SlotOfFirst(t: Tables, k: nat, p: nat)
    requires FirstOnes(t, k) && 0 < p <= k
    ensures SlotOf(t, p) == p - 1
  {
    assert t.pids[p - 1] == p;
  }

  /**
   When k processes have started and the last but one asks for service 8705, the last, which has not called anything,
   has a request counted on its first service, and its first open gets service 2.
   */
  lemma NeighbourMoves(k: nat, lib: Ulong)
    requires 2 <= k <= APPS && lib != 0
    ensures var m := Run(NewSegment(), Starts(k)); var n := IssueBytes(m, k - 1, LAST_SERVICE + 1);
      && View(n) == Counted(View(m), k - 1, 0)
      && OpenBytesReply(m, k, lib) == Reply(LFS_SUCCESS, 1) && OpenBytesReply(n, k, lib) == Reply(LFS_SUCCESS, 2)
  {
    var m := StartsFill(k);
    NeighbourFrom(m, k, lib);
  }

  lemma NeighbourFrom(m: seq<Byte>, k: nat, lib: Ulong)
    requires 2 <= k <= APPS && lib != 0 && Sized(m) && FirstOnes(View(m), k)
    ensures var n := IssueBytes(m, k - 1, LAST_SERVICE + 1);
      && View(n) == Counted(View(m), k - 1, 0)
      && OpenBytesReply(m, k, lib) == Reply(LFS_SUCCESS, 1) && OpenBytesReply(n, k, lib) == Reply(LFS_SUCCESS, 2)
  {
    SlotOfFirst(View(m), k, k - 1);
    ReachesNeighbour(m, k - 1, 1, 1);
    OpensDiffer(m, IssueBytes(m, k - 1, LAST_SERVICE + 1), View(m), k, lib);
  }

  lemma OpensDiffer(m: seq<Byte>, n: seq<Byte>, t: Tables, k: nat, lib: Ulong)
    requires 2 <= k <= APPS && lib != 0 && Sized(m) && Sized(n) && FirstOnes(t, k)
    requires View(m) == t && View(n) == Counted(t, k - 1, 0)
    ensures OpenBytesReply(m, k, lib) == Reply(LFS_SUCCESS, 1) && OpenBytesReply(n, k, lib) == Reply(LFS_SUCCESS, 2)
  {
    CountedFree(t, k);
    FirstOpens(m, t, k, lib);
    FirstOpens(n, Counted(t, k - 1, 0), k, lib);
  }

  /** What an open answers is the first free service. */
  lemma FirstOpens(m: seq<Byte>, t: Tables, k: Pid, lib: Ulong)
    requires Sized(m) && t == View(m) && SlotOf(t, k) < APPS && lib != 0
    ensures OpenBytesReply(m, k, lib) == Reply(LFS_SUCCESS, FreeService(t.apps[SlotOf(t, k)].services) + 1)
  {
  }

  lemma CountedFree(t: Tables, k: nat)
    requires 2 <= k <= APPS && FirstOnes(t, k)
    ensures SlotOf(t, k) == SlotOf(Counted(t, k - 1, 0), k) == k - 1
    ensures FreeService(t.apps[k - 1].services) == 0 && FreeService(Counted(t, k - 1, 0).apps[k - 1].services) == 1
  {
    SlotOfFirst(t, k, k);
    var x := Counted(t, k - 1, 0).apps[k - 1].services;
    assert t.apps[k - 1].services[0].reqId == 0;
    assert x[0].reqId == 1 && x[1].reqId == 0;
  }

  /**
   When k processes have started, 58 or more, the last one has a service number that is the entry of the first process
   in the pid table: after a request for it two slots belong to process 2.
   */
  lemma PidsCollide(k: nat)
    requires 58 <= k <= APPS
    ensures var m, service := Run(NewSegment(), Starts(k)), (APPS - (k - 1)) * LAST_SERVICE + 1;
      service < 0x1_0000 && Sound(View(m)) && !Sound(View(IssueBytes(m, k, service)))
  {
    var m := StartsFill(k);
    CollideFrom(m, k);
  }

  lemma CollideFrom(m: seq<Byte>, k: nat)
    requires 58 <= k <= APPS && Sized(m) && FirstOnes(View(m), k)
    ensures var service := (APPS - (k - 1)) * LAST_SERVICE + 1;
      service < 0x1_0000 && Sound(View(m)) && !Sound(View(IssueBytes(m, k, service)))
  {
    var service := (APPS - (k - 1)) * LAST_SERVICE + 1;
    SlotOfFirst(View(m), k, k);
    FirstPids(m, k);
    PowerIs();
    ReachesPids(m, k, 0);
    TwoSlots(IssueBytes(m, k, service));
  }

  lemma FirstPids(m: seq<Byte>, k: nat)
    requires Sized(m) && FirstOnes(View(m), k) && k >= 2
    ensures PidIn(m, 0) == 1 && PidIn(m, 1) == 2 && Sound(View(m))
  {
    assert View(m).pids[0] == PidIn(m, 0) && View(m).pids[1] == PidIn(m, 1);
  }

  lemma TwoSlots(n: seq<Byte>)
    requires Sized(n) && PidIn(n, 0) == PidIn(n, 1) == 2
    ensures !Sound(View(n))
  {
    assert View(n).pids[0] == View(n).pids[1] == 2;
  }
}
