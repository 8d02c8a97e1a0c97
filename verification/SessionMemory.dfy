/**
 The manager's segment as the bytes it is. Every call finds its process in the pid table and computes an address in that
 process's application block, and no call compares an index with the length of its array. `View` reads the tables.
 */
module SessionMemory {
  import opened Basics
  import opened SegmentBytes
  import opened SessionTables

  /** sizeof(SPData), the offset of the handles, and sizeof(AppData). */
  const SP_BYTES: nat := 16
  const HANDLES: nat := 0x2_0000
  const APP_BYTES: nat := 0x2_2000

  /**
   The offsets of pidTable and of what follows it, and sizeof(ShMemLayout); a timer is a pointer and 64 characters.
   */
  const PIDS: nat := 0x88_0000
  const TIMERS: nat := 0x88_0100
  const SEGMENT: nat := 0x88_0100 + 65535 * 72

  predicate Sized(m: seq<Byte>) { |m| == SEGMENT }

  function CounterAt(i: nat, k: nat): nat { i * APP_BYTES + k * SP_BYTES }

  function HandleAt(i: nat, k: int): int { i * APP_BYTES + HANDLES + k }

  function PidAt(i: nat): nat { PIDS + 4 * i }

  /** The bytes of an application's block. */
  predicate Own(i: nat, a: int) { i * APP_BYTES <= a < (i + 1) * APP_BYTES }

  predicate OwnPid(i: nat, a: int) { PidAt(i) <= a < PidAt(i) + 4 }

  // ---- the tables in the bytes

  function ServiceIn(m: seq<Byte>, i: nat, k: nat): Service
    requires Sized(m) && i < APPS && k <= SLOTS
  {
    Service(Load(m, CounterAt(i, k), 8), Load(m, CounterAt(i, k) + 8, 8))
  }

  function HandleIn(m: seq<Byte>, i: nat, k: nat): bool
    requires Sized(m) && i < APPS && k < SLOTS
  {
    m[HandleAt(i, k)] != 0
  }

  function AppIn(m: seq<Byte>, i: nat): App
    requires Sized(m) && i < APPS
  {
    App(seq(SLOTS, k requires 0 <= k < SLOTS => ServiceIn(m, i, k)),
        seq(SLOTS, k requires 0 <= k < SLOTS => HandleIn(m, i, k)))
  }

  function PidIn(m: seq<Byte>, i: nat): nat
    requires Sized(m) && i < APPS
  {
    Load(m, PidAt(i), 4)
  }

  function View(m: seq<Byte>): Tables
    requires Sized(m)
  {
    Tables(seq(APPS, i requires 0 <= i < APPS => PidIn(m, i)), seq(APPS, i requires 0 <= i < APPS => AppIn(m, i)))
  }

  /** Two memories that agree on a block agree on its application. */
  lemma SameApp(m: seq<Byte>, n: seq<Byte>, i: nat)
    requires Sized(m) && Sized(n) && i < APPS && forall a :: 0 <= a < SEGMENT && Own(i, a) ==> n[a] == m[a]
    ensures AppIn(n, i) == AppIn(m, i)
  {
    forall k | 0 <= k < SLOTS
      ensures ServiceIn(n, i, k) == ServiceIn(m, i, k) && HandleIn(n, i, k) == HandleIn(m, i, k)
    {
      SameService(m, n, i, k);
      assert Own(i, HandleAt(i, k));
    }
  }

  lemma SameService(m: seq<Byte>, n: seq<Byte>, i: nat, k: nat)
    requires Sized(m) && Sized(n) && i < APPS && k < SLOTS
    requires forall a :: CounterAt(i, k) <= a < CounterAt(i, k) + SP_BYTES ==> n[a] == m[a]
    ensures ServiceIn(n, i, k) == ServiceIn(m, i, k)
  {
    LoadSame(m, n, CounterAt(i, k), 8);
    LoadSame(m, n, CounterAt(i, k) + 8, 8);
  }

  lemma SamePid(m: seq<Byte>, n: seq<Byte>, i: nat)
    requires Sized(m) && Sized(n) && i < APPS && forall a :: 0 <= a < SEGMENT && OwnPid(i, a) ==> n[a] == m[a]
    ensures PidIn(n, i) == PidIn(m, i)
  {
    forall a | PidAt(i) <= a < PidAt(i) + 4
      ensures n[a] == m[a]
    {
      assert OwnPid(i, a);
    }
    LoadSame(m, n, PidAt(i), 4);
  }

  /** A change inside one block is a change of one application. */
  lemma OneApp(m: seq<Byte>, n: seq<Byte>, i: nat)
    requires Sized(m) && Sized(n) && i < APPS && forall a :: 0 <= a < SEGMENT && !Own(i, a) ==> n[a] == m[a]
    ensures View(n) == Tables(View(m).pids, View(m).apps[i := AppIn(n, i)])
  {
    forall j | 0 <= j < APPS
      ensures PidIn(n, j) == PidIn(m, j) && (j != i ==> AppIn(n, j) == AppIn(m, j))
    {
      assert forall a :: OwnPid(j, a) ==> !Own(i, a);
      SamePid(m, n, j);
      if j != i {
        assert forall a :: Own(j, a) ==> !Own(i, a);
        SameApp(m, n, j);
      }
    }
  }

  // ---- the calls

  function SlotIn(m: seq<Byte>, pid: nat): (i: nat)
    requires Sized(m)
    ensures i <= APPS && (i < APPS ==> PidIn(m, i) == pid)
  {
    SlotOf(View(m), pid)
  }

  /** clearMem on an application's block. */
  function Cleared(m: seq<Byte>, i: nat): (n: seq<Byte>)
    requires Sized(m) && i < APPS
    ensures Sized(n) && forall a :: 0 <= a < SEGMENT ==> n[a] == if Own(i, a) then 0 else m[a]
  {
    m[..i * APP_BYTES] + seq(APP_BYTES, _ => 0) + m[(i + 1) * APP_BYTES..]
  }

  function StartUpBytes(m: seq<Byte>, pid: Pid): (n: seq<Byte>)
    requires Sized(m)
    ensures Sized(n)
  {
    var i := SlotIn(m, 0);
    if SlotIn(m, pid) < APPS || i == APPS then m else Cleared(Store(m, PidAt(i), 4, pid), i)
  }

  function CleanUpBytes(m: seq<Byte>, pid: Pid): (n: seq<Byte>)
    requires Sized(m)
    ensures Sized(n)
  {
    var i := SlotIn(m, pid);
    if i == APPS then m else Store(m, PidAt(i), 4, 0)
  }

  function CreateBytes(m: seq<Byte>, pid: Pid): (n: seq<Byte>)
    requires Sized(m)
    ensures Sized(n)
  {
    var i := SlotIn(m, pid);
    if i == APPS then m
    else
      var k := IndexOf(AppIn(m, i).handles, false);
      if k < SLOTS then m[HandleAt(i, k) := 1] else m
  }

  /** The handle is taken as a signed long and less one as an index, wherever that leads. */
  function DestroyBytes(m: seq<Byte>, pid: Pid, h: int): (n: seq<Byte>)
    requires Sized(m)
    ensures Sized(n)
  {
    var i := SlotIn(m, pid);
    if h == 0 || i == APPS then m
    else
      var a := HandleAt(i, h - 1);
      if 0 <= a < SEGMENT && m[a] != 0 then m[a := 0] else m
  }

  /** `beyond` says whether the byte is set when it lies outside of the segment. */
  function DestroyBytesReply(m: seq<Byte>, pid: Pid, h: int, beyond: bool): int
    requires Sized(m)
  {
    var i := SlotIn(m, pid);
    if h == 0 then LFS_ERR_INVALID_APP_HANDLE
    else if i == APPS then LFS_ERR_NOT_STARTED
    else
      var a := HandleAt(i, h - 1);
      if (if 0 <= a < SEGMENT then m[a] != 0 else beyond) || h == 1 then LFS_SUCCESS else LFS_ERR_INVALID_APP_HANDLE
  }

  /** The two stores of an open: the counter at 1 and, where there is a library, its pointer behind it. */
  function Opened(m: seq<Byte>, a: nat, lib: Ulong): (n: seq<Byte>)
    requires a + SP_BYTES <= |m|
    ensures |n| == |m|
  {
    var one := Store(m, a, 8, 1);
    if lib == 0 then one else Store(one, a + 8, 8, lib)
  }

  /** With all slots taken the search ends past the last one, and that is where the new service goes. */
  function OpenBytes(m: seq<Byte>, pid: Pid, lib: Ulong): (n: seq<Byte>)
    requires Sized(m)
    ensures Sized(n)
  {
    var i := SlotIn(m, pid);
    if i == APPS then m
    else Opened(m, CounterAt(i, FreeService(AppIn(m, i).services)), lib)
  }

  function OpenBytesReply(m: seq<Byte>, pid: Pid, lib: Ulong): Reply
    requires Sized(m)
  {
    var i := SlotIn(m, pid);
    if i == APPS then Reply(LFS_ERR_NOT_STARTED, 0)
    else if lib == 0 then Reply(LFS_ERR_INVALID_SERVPROV, 0)
    else Reply(LFS_SUCCESS, FreeService(AppIn(m, i).services) + 1)
  }

  lemma ServiceInSegment(i: nat, service: Ushort)
    requires i < APPS && service > 0
    ensures CounterAt(i, service - 1) + SP_BYTES <= SEGMENT
  {
  }

  function IssueBytes(m: seq<Byte>, pid: Pid, service: Ushort): (n: seq<Byte>)
    requires Sized(m)
    ensures Sized(n)
  {
    var i := SlotIn(m, pid);
    if service == 0 || i == APPS then m
    else
      ServiceInSegment(i, service);
      Bumped(m, CounterAt(i, service - 1))
  }

  function IssueBytesReply(m: seq<Byte>, pid: Pid, service: Ushort): Reply
    requires Sized(m)
  {
    var i := SlotIn(m, pid);
    if service == 0 then Reply(LFS_ERR_INVALID_HSERVICE, 0)
    else if i == APPS then Reply(LFS_ERR_NOT_STARTED, 0)
    else
      ServiceInSegment(i, service);
      AnswerAt(m, CounterAt(i, service - 1))
  }

  function Bytes(m: seq<Byte>, c: Call): (n: seq<Byte>)
    requires Sized(m)
    ensures Sized(n)
  {
    match c
    case DoStartUp(pid) => StartUpBytes(m, pid)
    case DoCleanUp(pid) => CleanUpBytes(m, pid)
    case DoCreate(pid) => CreateBytes(m, pid)
    case DoDestroy(pid, h) => DestroyBytes(m, pid, h)
    case DoOpen(pid, lib) => OpenBytes(m, pid, lib)
    case DoIssue(pid, service) => IssueBytes(m, pid, service)
  }

  // ---- inside the tables the calls do what the tables say

  lemma HandleWritten(m: seq<Byte>, n: seq<Byte>, i: nat, k: nat, b: Byte)
    requires Sized(m) && Sized(n) && i < APPS && k < SLOTS && n == m[HandleAt(i, k) := b]
    ensures AppIn(n, i) == AppIn(m, i).(handles := AppIn(m, i).handles[k := b != 0])
  {
    forall j | 0 <= j < SLOTS
      ensures ServiceIn(n, i, j) == ServiceIn(m, i, j)
    {
      SameService(m, n, i, j);
    }
    forall j | 0 <= j < SLOTS && j != k
      ensures HandleIn(n, i, j) == HandleIn(m, i, j)
    {
      assert HandleAt(i, j) != HandleAt(i, k);
    }
  }

  lemma ServiceWritten(m: seq<Byte>, n: seq<Byte>, i: nat, k: nat)
    requires Sized(m) && Sized(n) && i < APPS && k < SLOTS
    requires forall a :: 0 <= a < SEGMENT && !(CounterAt(i, k) <= a < CounterAt(i, k) + SP_BYTES) ==> n[a] == m[a]
    ensures AppIn(n, i) == AppIn(m, i).(services := AppIn(m, i).services[k := ServiceIn(n, i, k)])
  {
    forall j | 0 <= j < SLOTS
      ensures HandleIn(n, i, j) == HandleIn(m, i, j) && (j != k ==> ServiceIn(n, i, j) == ServiceIn(m, i, j))
    {
      assert HandleAt(i, j) >= CounterAt(i, k) + SP_BYTES;
      if j != k { SameService(m, n, i, j); }
    }
  }

  lemma CreateRefines(m: seq<Byte>, pid: Pid)
    requires Sized(m)
    ensures View(CreateBytes(m, pid)) == CreateHandle(View(m), pid)
  {
    var i, n := SlotIn(m, pid), CreateBytes(m, pid);
    if i < APPS {
      var k := IndexOf(AppIn(m, i).handles, false);
      if k < SLOTS {
        HandleWritten(m, n, i, k, 1);
        OneApp(m, n, i);
      }
    }
  }

  /** Clearing a handle in the bytes is clearing it in the tables, whether it was set or not. */
  lemma HandleEnded(m: seq<Byte>, j: nat, k: nat)
    requires Sized(m) && j < APPS && k < SLOTS
    ensures var n := if HandleIn(m, j, k) then m[HandleAt(j, k) := 0] else m; var a := AppIn(m, j);
      View(n) == View(m).(apps := View(m).apps[j := a.(handles := a.handles[k := false])])
  {
    var a := AppIn(m, j);
    if HandleIn(m, j, k) {
      var n := m[HandleAt(j, k) := 0];
      HandleWritten(m, n, j, k, 0);
      OneApp(m, n, j);
    } else {
      assert a.handles[k := false] == a.handles;
      assert View(m).apps[j := a] == View(m).apps;
    }
  }

  lemma DestroyRefines(m: seq<Byte>, pid: Pid, h: nat, beyond: bool)
    requires Sized(m) && h <= SLOTS
    ensures View(DestroyBytes(m, pid, h)) == DestroyHandle(View(m), pid, h)
    ensures DestroyBytesReply(m, pid, h, beyond) == DestroyHandleReply(View(m), pid, h)
  {
    var i := SlotIn(m, pid);
    if i < APPS && h > 0 {
      assert AppIn(m, i).handles[h - 1] == HandleIn(m, i, h - 1);
      HandleEnded(m, i, h - 1);
    }
  }

  lemma OpenRefines(m: seq<Byte>, pid: Pid, lib: Ulong)
    requires Sized(m) && HasRoom(View(m), pid)
    ensures View(OpenBytes(m, pid, lib)) == Open(View(m), pid, lib)
    ensures OpenBytesReply(m, pid, lib) == OpenReply(View(m), pid, lib)
  {
    var i, n := SlotIn(m, pid), OpenBytes(m, pid, lib);
    if i < APPS {
      var k := FreeService(AppIn(m, i).services);
      OpenWrites(m, i, k, lib);
      ServiceWritten(m, n, i, k);
      OneApp(m, n, i);
    }
  }

  lemma OpenWrites(m: seq<Byte>, i: nat, k: nat, lib: Ulong)
    requires Sized(m) && i < APPS && k <= SLOTS
    ensures var a := CounterAt(i, k); var n := Opened(m, a, lib);
      && (forall b :: 0 <= b < SEGMENT && !(a <= b < a + SP_BYTES) ==> n[b] == m[b])
      && ServiceIn(n, i, k) == Service(1, if lib == 0 then ServiceIn(m, i, k).lib else lib)
  {
    var a := CounterAt(i, k);
    var one := Store(m, a, 8, 1);
    PowerIs();
    StoreFrame(m, a, 8, 1);
    LoadStore(m, a, 8, 1);
    if lib == 0 {
      LoadSame(m, one, a + 8, 8);
    } else {
      var n := Store(one, a + 8, 8, lib);
      StoreFrame(one, a + 8, 8, lib);
      LoadStore(one, a + 8, 8, lib);
      LoadSame(one, n, a, 8);
    }
  }

  /** One counter of one application one further. */
  function Counted(t: Tables, j: nat, k: nat): Tables
    requires j < |t.apps| && k < |t.apps[j].services|
  {
    var a := t.apps[j];
    var x := a.services[k];
    t.(apps := t.apps[j := a.(services := a.services[k := x.(reqId := (x.reqId + 1) % WIDTH)])])
  }

  lemma CounterWritten(m: seq<Byte>, j: nat, k: nat)
    requires Sized(m) && j < APPS && k < SLOTS
    ensures var n, x := Bumped(m, CounterAt(j, k)), ServiceIn(m, j, k);
      && ServiceIn(n, j, k) == x.(reqId := (x.reqId + 1) % WIDTH)
      && forall a :: 0 <= a < SEGMENT && !(CounterAt(j, k) <= a < CounterAt(j, k) + SP_BYTES) ==> n[a] == m[a]
  {
    BumpedOnce(m, CounterAt(j, k));
    LoadSame(m, Bumped(m, CounterAt(j, k)), CounterAt(j, k) + 8, 8);
  }

  lemma CounterInBlock(j: nat, k: nat, a: nat)
    requires j < APPS && k < SLOTS && CounterAt(j, k) <= a < CounterAt(j, k) + SP_BYTES
    ensures Own(j, a)
  {
  }

  lemma CounterBumped(m: seq<Byte>, j: nat, k: nat)
    requires Sized(m) && j < APPS && k < SLOTS
    ensures View(Bumped(m, CounterAt(j, k))) == Counted(View(m), j, k)
    ensures View(m).apps[j].services[k] == ServiceIn(m, j, k)
  {
    var n := Bumped(m, CounterAt(j, k));
    CounterWritten(m, j, k);
    ServiceWritten(m, n, j, k);
    forall a | 0 <= a < SEGMENT && !Own(j, a)
      ensures n[a] == m[a]
    {
      if CounterAt(j, k) <= a < CounterAt(j, k) + SP_BYTES { CounterInBlock(j, k, a); }
    }
    OneApp(m, n, j);
    assert View(m).apps[j] == AppIn(m, j);
  }

  lemma IssueCounts(t: Tables, pid: nat, service: nat)
    requires ServiceInTable(t, pid, service) && service > 0 && Started(t, pid)
    ensures Issue(t, pid, service) == Counted(t, SlotOf(t, pid), service - 1)
    ensures var x := t.apps[SlotOf(t, pid)].services[service - 1];
      IssueReply(t, pid, service) == Reply(if x.lib != 0 then LFS_SUCCESS else LFS_ERR_INVALID_HSERVICE, x.reqId)
  {
  }

  function AnswerAt(m: seq<Byte>, a: nat): Reply
    requires a + SP_BYTES <= |m|
  {
    Reply(if Load(m, a + 8, 8) != 0 then LFS_SUCCESS else LFS_ERR_INVALID_HSERVICE, Load(m, a, 8))
  }

  lemma IssueHere(m: seq<Byte>, i: nat, pid: Pid, service: Ushort)
    requires Sized(m) && i == SlotIn(m, pid) < APPS && service > 0 && CounterAt(i, service - 1) + SP_BYTES <= SEGMENT
    ensures IssueBytes(m, pid, service) == Bumped(m, CounterAt(i, service - 1))
    ensures IssueBytesReply(m, pid, service) == AnswerAt(m, CounterAt(i, service - 1))
  {
  }

  lemma IssueInTable(m: seq<Byte>, t: Tables, i: nat, pid: Pid, service: Ushort)
    requires Sized(m) && t == View(m) && i == SlotOf(t, pid) < APPS && 0 < service <= SLOTS
    ensures View(Bumped(m, CounterAt(i, service - 1))) == Issue(t, pid, service)
    ensures AnswerAt(m, CounterAt(i, service - 1)) == IssueReply(t, pid, service)
  {
    CounterBumped(m, i, service - 1);
    IssueCounts(t, pid, service);
  }

  lemma IssueRefines(m: seq<Byte>, pid: Pid, service: Ushort)
    requires Sized(m) && service <= SLOTS
    ensures View(IssueBytes(m, pid, service)) == Issue(View(m), pid, service)
    ensures IssueBytesReply(m, pid, service) == IssueReply(View(m), pid, service)
  {
    var i := SlotIn(m, pid);
    if i < APPS && service > 0 {
      IssueHere(m, i, pid, service);
      IssueInTable(m, View(m), i, pid, service);
    }
  }

  lemma ClearedIsBlank(m: seq<Byte>, i: nat)
    requires Sized(m) && i < APPS
    ensures AppIn(Cleared(m, i), i) == Blank()
  {
    var n := Cleared(m, i);
    forall k | 0 <= k < SLOTS
      ensures ServiceIn(n, i, k) == Service(0, 0) && !HandleIn(n, i, k)
    {
      LoadZero(n, CounterAt(i, k), 8);
      LoadZero(n, CounterAt(i, k) + 8, 8);
      assert Own(i, HandleAt(i, k));
    }
  }

  /** Writing one entry of the pid table. */
  lemma PidWritten(m: seq<Byte>, i: nat, pid: nat)
    requires Sized(m) && i < APPS && pid < 0x8000_0000
    ensures View(Store(m, PidAt(i), 4, pid)) == View(m).(pids := View(m).pids[i := pid])
  {
    var n := Store(m, PidAt(i), 4, pid);
    PowerIs();
    StoreFrame(m, PidAt(i), 4, pid);
    LoadStore(m, PidAt(i), 4, pid);
    forall j | 0 <= j < APPS
      ensures AppIn(n, j) == AppIn(m, j) && (j != i ==> PidIn(n, j) == PidIn(m, j))
    {
      assert forall a :: Own(j, a) ==> a < PidAt(i);
      SameApp(m, n, j);
      if j != i {
        assert forall a :: OwnPid(j, a) ==> !OwnPid(i, a);
        SamePid(m, n, j);
      }
    }
  }

  lemma StartUpRefines(m: seq<Byte>, pid: Pid)
    requires Sized(m)
    ensures View(StartUpBytes(m, pid)) == StartUp(View(m), pid)
  {
    var i := SlotIn(m, 0);
    if SlotIn(m, pid) == APPS && i < APPS {
      var one := Store(m, PidAt(i), 4, pid);
      PidWritten(m, i, pid);
      ClearedIsBlank(one, i);
      OneApp(one, Cleared(one, i), i);
    }
  }

  lemma CleanUpRefines(m: seq<Byte>, pid: Pid)
    requires Sized(m)
    ensures View(CleanUpBytes(m, pid)) == CleanUp(View(m), pid)
  {
    var i := SlotIn(m, pid);
    if i < APPS { PidWritten(m, i, 0); }
  }

  // ---- which bytes a call may reach, and which it does

  /**
   What is a caller's to change: the entry of the pid table for CleanUp, its block for the others, both for StartUp.
   */
  predicate Allowed(c: Call, i: nat, a: int) {
    (!c.DoCleanUp? && Own(i, a)) || ((c.DoStartUp? || c.DoCleanUp?) && OwnPid(i, a))
  }

  /** The slot a call works on. */
  function SlotFor(m: seq<Byte>, c: Call): (i: nat)
    requires Sized(m)
    ensures i <= APPS
  {
    if c.DoStartUp? && SlotIn(m, c.pid) == APPS then SlotIn(m, 0) else SlotIn(m, c.pid)
  }

  /** The last service whose counter lies in the caller's own block: 8192 services and 512 times 16 handles. */
  const LAST_SERVICE: nat := 8704

  /**
   A guard on the arguments that keeps a call at home: a service of at most 8704, a handle whose byte lies in the
   caller's block, or outside of the segment, or is not set.
   */
  predicate StaysHome(m: seq<Byte>, c: Call)
    requires Sized(m)
  {
    var i := SlotFor(m, c);
    match c
    case DoIssue(_, service) => i < APPS ==> service <= LAST_SERVICE
    case DoDestroy(_, h) =>
      i < APPS && h != 0 ==>
        var a := HandleAt(i, h - 1);
        Own(i, a) || !(0 <= a < SEGMENT) || m[a] == 0
    case _ => true
  }

  lemma IssueIsolatedIff(m: seq<Byte>, c: Call)
    requires Sized(m) && c.DoIssue? && SlotIn(m, c.pid) < APPS
    ensures var i := SlotIn(m, c.pid);
      (forall a :: 0 <= a < SEGMENT && !Own(i, a) ==> Bytes(m, c)[a] == m[a]) <==> c.service <= LAST_SERVICE
  {
    if c.service > 0 {
      var i := SlotIn(m, c.pid);
      ServiceInSegment(i, c.service);
      var a := CounterAt(i, c.service - 1);
      BumpedOnce(m, a);
      if c.service <= LAST_SERVICE {
        assert forall b :: a <= b < a + 8 ==> Own(i, b);
      } else {
        assert !Own(i, a);
      }
    }
  }

  lemma DestroyIsolatedIff(m: seq<Byte>, c: Call)
    requires Sized(m) && c.DoDestroy? && SlotIn(m, c.pid) < APPS
    ensures var i := SlotIn(m, c.pid);
      (forall a :: 0 <= a < SEGMENT && !Own(i, a) ==> Bytes(m, c)[a] == m[a]) <==> StaysHome(m, c)
  {
    var a := HandleAt(SlotIn(m, c.pid), c.h - 1);
    if !StaysHome(m, c) { assert Bytes(m, c)[a] != m[a]; }
  }

  lemma OthersIsolated(m: seq<Byte>, c: Call)
    requires Sized(m) && !c.DoIssue? && !c.DoDestroy? && SlotFor(m, c) < APPS
    ensures forall a :: 0 <= a < SEGMENT && !Allowed(c, SlotFor(m, c), a) ==> Bytes(m, c)[a] == m[a]
  {
    var i := SlotFor(m, c);
    match c {
      case DoStartUp(pid) => if SlotIn(m, pid) == APPS { StoreFrame(m, PidAt(i), 4, pid); }
      case DoCleanUp(_) => StoreFrame(m, PidAt(i), 4, 0);
      case DoCreate(_) =>
      case DoOpen(_, lib) => OpenWrites(m, i, FreeService(AppIn(m, i).services), lib);
    }
  }

  /** Exactly then it leaves every byte alone that is not its caller's. */
  lemma IsolatedIff(m: seq<Byte>, c: Call)
    requires Sized(m)
    ensures var i := SlotFor(m, c);
      (forall a :: 0 <= a < SEGMENT && !Allowed(c, i, a) ==> Bytes(m, c)[a] == m[a]) <==> StaysHome(m, c)
  {
    if SlotFor(m, c) < APPS {
      if c.DoIssue? { IssueIsolatedIff(m, c); }
      else if c.DoDestroy? { DestroyIsolatedIff(m, c); }
      else { OthersIsolated(m, c); }
    }
  }

  // ---- where a call goes that does not stay at home

  /** What an open without a free slot leaves in its caller's handles. */
  ghost predicate Overwritten(a: App, a': App, lib: nat) {
    && a'.services == a.services && |a'.handles| == |a.handles| == SLOTS
    && a'.handles[0] && (forall h :: 1 <= h < 8 ==> !a'.handles[h])
    && (forall h :: 16 <= h < SLOTS ==> a'.handles[h] == a.handles[h])
    && (lib == 0 ==> forall h :: 8 <= h < 16 ==> a'.handles[h] == a.handles[h])
  }

  /** The bytes of such an open, from the first handle on. */
  ghost predicate FullBytes(m: seq<Byte>, n: seq<Byte>, at: nat, lib: nat)
    requires Sized(m) && Sized(n) && at + SP_BYTES <= SEGMENT
  {
    && (forall b :: 0 <= b < SEGMENT && !(at <= b < at + SP_BYTES) ==> n[b] == m[b])
    && n[at] == 1 && (forall b :: at < b < at + 8 ==> n[b] == 0)
    && (lib == 0 ==> forall b :: at + 8 <= b < at + SP_BYTES ==> n[b] == m[b])
  }

  lemma OpenedBytes(m: seq<Byte>, at: nat, lib: Ulong)
    requires Sized(m) && at + SP_BYTES <= SEGMENT
    ensures FullBytes(m, Opened(m, at, lib), at, lib) && (lib != 0 ==> Load(Opened(m, at, lib), at + 8, 8) == lib)
  {
    var one := Store(m, at, 8, 1);
    OneStored(m, at);
    if lib != 0 {
      PowerIs();
      StoreFrame(one, at + 8, 8, lib);
      LoadStore(one, at + 8, 8, lib);
    }
  }

  lemma OverwrittenView(m: seq<Byte>, n: seq<Byte>, i: nat, lib: nat)
    requires Sized(m) && Sized(n) && i < APPS && FullBytes(m, n, CounterAt(i, SLOTS), lib)
    ensures Overwritten(AppIn(m, i), AppIn(n, i), lib)
  {
    forall k | 0 <= k < SLOTS
      ensures ServiceIn(n, i, k) == ServiceIn(m, i, k)
    {
      SameService(m, n, i, k);
    }
    forall h | 0 <= h < SLOTS
      ensures AppIn(n, i).handles[h] == (n[CounterAt(i, SLOTS) + h] != 0)
      ensures AppIn(m, i).handles[h] == (m[CounterAt(i, SLOTS) + h] != 0)
    {
      assert HandleAt(i, h) == CounterAt(i, SLOTS) + h;
    }
  }

  /**
   An open without a free slot stays in its block but not in the service table: it returns service 8193, makes handle 1
   live, ends handles 2 to 8, and leaves its library's pointer in the next eight.
   */
  lemma FullOpenOverwrites(m: seq<Byte>, pid: Pid, lib: Ulong)
    requires Sized(m) && SlotIn(m, pid) < APPS && !HasRoom(View(m), pid)
    ensures var i, n := SlotIn(m, pid), OpenBytes(m, pid, lib);
      Overwritten(AppIn(m, i), AppIn(n, i), lib) && (lib != 0 ==> Load(n, HandleAt(i, 8), 8) == lib)
    ensures lib != 0 ==> OpenBytesReply(m, pid, lib) == Reply(LFS_SUCCESS, SLOTS + 1)
  {
    var i := SlotIn(m, pid);
    var at := CounterAt(i, SLOTS);
    FullOpenIs(m, i, pid, lib);
    OpenedBytes(m, at, lib);
    OverwrittenView(m, Opened(m, at, lib), i, lib);
    assert at + 8 == HandleAt(i, 8);
  }

  lemma FullOpenIs(m: seq<Byte>, i: nat, pid: Pid, lib: Ulong)
    requires Sized(m) && i == SlotIn(m, pid) < APPS && !HasRoom(View(m), pid)
    ensures OpenBytes(m, pid, lib) == Opened(m, CounterAt(i, SLOTS), lib)
    ensures lib != 0 ==> OpenBytesReply(m, pid, lib) == Reply(LFS_SUCCESS, SLOTS + 1)
  {
    assert FreeService(AppIn(m, i).services) == SLOTS;
  }

  lemma OneStored(m: seq<Byte>, a: nat)
    requires a + 8 <= |m|
    ensures Store(m, a, 8, 1)[a] == 1 && forall i :: a < i < a + 8 ==> Store(m, a, 8, 1)[i] == 0
    ensures forall i :: 0 <= i < |m| && !(a <= i < a + 8) ==> Store(m, a, 8, 1)[i] == m[i]
  {
    StoreFrame(m, a, 8, 1);
    FirstByte(m, a, 8, 1);
    StoreZero(m[a := 1], a + 1, 7);
  }

  /**
   Service 8704 d + s of one slot is service s of the slot d further on: its counter moves, and its id is the answer.
   */
  lemma ReachesNeighbour(m: seq<Byte>, pid: Pid, d: nat, s: nat)
    requires Sized(m) && 0 < s <= SLOTS && d * LAST_SERVICE + s < 0x1_0000 && SlotIn(m, pid) + d < APPS
    ensures var j, service := SlotIn(m, pid) + d, d * LAST_SERVICE + s;
      View(IssueBytes(m, pid, service)) == Counted(View(m), j, s - 1) &&
      IssueBytesReply(m, pid, service).out == View(m).apps[j].services[s - 1].reqId
  {
    var i, service := SlotIn(m, pid), d * LAST_SERVICE + s;
    SameCounter(i, d, s);
    CounterBumped(m, i + d, s - 1);
  }

  lemma SameCounter(i: nat, d: nat, s: nat)
    requires s > 0
    ensures CounterAt(i, d * LAST_SERVICE + s - 1) == CounterAt(i + d, s - 1)
  {
  }

  /** And handle 139264 d + h is handle h of that slot, which a destruction ends. */
  lemma EndsNeighbour(m: seq<Byte>, pid: Pid, d: nat, h: nat)
    requires Sized(m) && 0 < h <= SLOTS && SlotIn(m, pid) + d < APPS
    ensures var j := SlotIn(m, pid) + d; var a := AppIn(m, j);
      View(DestroyBytes(m, pid, d * APP_BYTES + h)) ==
      View(m).(apps := View(m).apps[j := a.(handles := a.handles[h - 1 := false])])
  {
    var i := SlotIn(m, pid);
    assert HandleAt(i, d * APP_BYTES + h - 1) == HandleAt(i + d, h - 1);
    HandleEnded(m, i + d, h - 1);
  }

  /** From the last seven slots a service number reaches the pid table and makes one process another. */
  lemma ReachesPids(m: seq<Byte>, pid: Pid, j: nat)
    requires Sized(m) && j < 16 && SlotIn(m, pid) < APPS && PidIn(m, 4 * j) + 1 < Power(4)
    requires (APPS - SlotIn(m, pid)) * LAST_SERVICE + j + 1 < 0x1_0000
    ensures var service := (APPS - SlotIn(m, pid)) * LAST_SERVICE + j + 1;
      PidIn(IssueBytes(m, pid, service), 4 * j) == PidIn(m, 4 * j) + 1
    ensures var service := (APPS - SlotIn(m, pid)) * LAST_SERVICE + j + 1;
      forall i :: 0 <= i < APPS && i != 4 * j && i != 4 * j + 1 ==> PidIn(IssueBytes(m, pid, service), i) == PidIn(m, i)
    ensures var service := (APPS - SlotIn(m, pid)) * LAST_SERVICE + j + 1;
      PidIn(IssueBytes(m, pid, service), 4 * j + 1) == PidIn(m, 4 * j + 1)
  {
    var i, service := SlotIn(m, pid), (APPS - SlotIn(m, pid)) * LAST_SERVICE + j + 1;
    var a := PidAt(4 * j);
    assert CounterAt(i, service - 1) == a;
    var n := IssueBytes(m, pid, service);
    BumpedOnce(m, a);
    BumpLowHalf(m, a);
    assert PidAt(4 * j + 1) == a + 4;
    forall k | 0 <= k < APPS && k != 4 * j && k != 4 * j + 1
      ensures PidIn(n, k) == PidIn(m, k)
    {
      assert forall b :: OwnPid(k, b) ==> !(a <= b < a + 8);
      SamePid(m, n, k);
    }
  }

  lemma TwoHalves(lo: nat, hi: nat, lo': nat, hi': nat)
    requires lo < 0x1_0000_0000 && lo' < 0x1_0000_0000 && lo + 0x1_0000_0000 * hi == lo' + 0x1_0000_0000 * hi'
    ensures lo == lo' && hi == hi'
  {
  }

  /** x++ on 64 bits, seen as two times 32. */
  lemma BumpLowHalf(m: seq<Byte>, a: nat)
    requires a + 8 <= |m| && Load(m, a, 4) + 1 < Power(4)
    ensures Load(Bumped(m, a), a, 4) == Load(m, a, 4) + 1 && Load(Bumped(m, a), a + 4, 4) == Load(m, a + 4, 4)
  {
    var n := Bumped(m, a);
    PowerIs();
    BumpedOnce(m, a);
    Halves(m, a);
    Halves(n, a);
    LoadBound(m, a + 4, 4);
    LoadBound(n, a, 4);
    var lo, hi, lo', hi' := Load(m, a, 4), Load(m, a + 4, 4), Load(n, a, 4), Load(n, a + 4, 4);
    NoWrap(lo, hi);
    TwoHalves(lo + 1, hi, lo', hi');
  }

  lemma NoWrap(lo: nat, hi: nat)
    requires lo + 1 < 0x1_0000_0000 && hi < 0x1_0000_0000
    ensures (lo + 0x1_0000_0000 * hi + 1) % WIDTH == lo + 1 + 0x1_0000_0000 * hi
  {
  }

  lemma LoadFour(m: seq<Byte>, a: nat, k: nat)
    requires a + 4 + k <= |m|
    ensures Load(m, a, 4 + k) == Load(m, a, 4) + 0x1_0000_0000 * Load(m, a + 4, k)
  {
    var x0: int, x1: int, x2: int, x3: int := m[a], m[a + 1], m[a + 2], m[a + 3];
    assert Load(m, a + 3, 1 + k) == x3 + 256 * Load(m, a + 4, k) && Load(m, a + 3, 1) == x3;
    assert Load(m, a + 2, 2 + k) == x2 + 256 * Load(m, a + 3, 1 + k) && Load(m, a + 2, 2) == x2 + 256 * x3;
    assert Load(m, a + 1, 3 + k) == x1 + 256 * Load(m, a + 2, 2 + k);
    assert Load(m, a + 1, 3) == x1 + 256 * Load(m, a + 2, 2);
  }

  lemma Halves(m: seq<Byte>, a: nat)
    requires a + 8 <= |m|
    ensures Load(m, a, 8) == Load(m, a, 4) + 0x1_0000_0000 * Load(m, a + 4, 4)
  {
    LoadFour(m, a, 4);
  }
}
