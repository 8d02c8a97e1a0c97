/** The session calls in place, over the bytes of the shared segment; every call runs under the segment's mutex. */
module SessionManager {
  import opened Basics
  import opened SegmentBytes
  import opened SessionTables
  import opened SessionMemory
  import opened SessionAnswers
  import SessionRuns

  lemma FirstIndex<T>(s: seq<T>, x: T, i: nat)
    requires i <= |s| && (i < |s| ==> s[i] == x) && forall j :: 0 <= j < i ==> s[j] != x
    ensures i == IndexOf(s, x)
  {
  }

  lemma FirstFree(s: seq<Service>, i: nat)
    requires i <= |s| && (i < |s| ==> s[i].reqId == 0) && forall j :: 0 <= j < i ==> s[j].reqId != 0
    ensures i == FreeService(s)
  {
  }

  class ShMemLayout {
    const bytes: array<Byte>

    ghost predicate Valid() { bytes.Length == SEGMENT }

    constructor ()
      ensures Valid() && fresh(bytes) && bytes[..] == SessionRuns.NewSegment()
    {
      bytes := new Byte[SEGMENT](_ => 0);
    }

    /** One store of k bytes, low byte first. */
    method Put(a: nat, k: nat, v: nat)
      requires a + k <= bytes.Length
      modifies bytes
      ensures bytes[..] == Store(old(bytes[..]), a, k, v)
      decreases k
    {
      if k > 0 {
        ghost var was := bytes[..];
        var low: Byte := v % 256;
        bytes[a] := low;
        assert bytes[..] == was[a := low];
        Put(a + 1, k - 1, v / 256);
      }
    }

    /** std::find over pidTable. */
    method Find(pid: nat) returns (i: nat)
      requires Valid()
      ensures i == SlotIn(bytes[..], pid)
    {
      i := 0;
      while i < APPS && Load(bytes[..], PidAt(i), 4) != pid
        invariant i <= APPS && forall j :: 0 <= j < i ==> View(bytes[..]).pids[j] != pid
      {
        i := i + 1;
      }
      FirstIndex(View(bytes[..]).pids, pid, i);
    }

    /** std::find over the handles of one application. */
    method FindFreeHandle(i: nat) returns (k: nat)
      requires Valid() && i < APPS
      ensures k == IndexOf(AppIn(bytes[..], i).handles, false)
    {
      k := 0;
      while k < SLOTS && bytes[HandleAt(i, k)] != 0
        invariant k <= SLOTS && forall j :: 0 <= j < k ==> AppIn(bytes[..], i).handles[j]
      {
        k := k + 1;
      }
      FirstIndex(AppIn(bytes[..], i).handles, false, k);
    }

    /** std::find_if over its services; the end is as good an answer as any. */
    method FindFreeService(i: nat) returns (k: nat)
      requires Valid() && i < APPS
      ensures k == FreeService(AppIn(bytes[..], i).services)
    {
      k := 0;
      while k < SLOTS && Load(bytes[..], CounterAt(i, k), 8) != 0
        invariant k <= SLOTS && forall j :: 0 <= j < k ==> AppIn(bytes[..], i).services[j].reqId != 0
      {
        k := k + 1;
      }
      FirstFree(AppIn(bytes[..], i).services, k);
    }

    /** clearMem on one application. */
    method Clear(i: nat)
      requires Valid() && i < APPS
      modifies bytes
      ensures bytes[..] == Cleared(old(bytes[..]), i)
    {
      var a := i * APP_BYTES;
      while a < (i + 1) * APP_BYTES
        invariant i * APP_BYTES <= a <= (i + 1) * APP_BYTES
        invariant forall b :: 0 <= b < SEGMENT ==> bytes[b] == if i * APP_BYTES <= b < a then 0 else old(bytes[b])
      {
        bytes[a] := 0;
        a := a + 1;
      }
    }

    method LFSStartUp(pid: Pid) returns (hr: int)
      requires Valid()
      modifies bytes
      ensures bytes[..] == StartUpBytes(old(bytes[..]), pid) && hr == StartUpReply(View(old(bytes[..])), pid)
      ensures hr == LFS_ERR_ALREADY_STARTED <==> HasSession(old(bytes[..]), pid)
      ensures hr == LFS_ERR_INTERNAL_ERROR <==> !HasSession(old(bytes[..]), pid) && SlotIn(old(bytes[..]), 0) == APPS
      ensures hr == LFS_SUCCESS <==> !HasSession(old(bytes[..]), pid) && SlotIn(old(bytes[..]), 0) < APPS
    {
      SessionIs(bytes[..], pid);
      var i := Find(pid);
      if i < APPS {
        return LFS_ERR_ALREADY_STARTED;
      }
      i := Find(0);
      if i == APPS {
        return LFS_ERR_INTERNAL_ERROR;
      }
      Put(PidAt(i), 4, pid);
      Clear(i);
      return LFS_SUCCESS;
    }

    method LFSCleanUp(pid: Pid) returns (hr: int)
      requires Valid()
      modifies bytes
      ensures bytes[..] == CleanUpBytes(old(bytes[..]), pid)
      ensures hr == if HasSession(old(bytes[..]), pid) then LFS_SUCCESS else LFS_ERR_NOT_STARTED
    {
      SessionIs(bytes[..], pid);
      var i := Find(pid);
      if i < APPS {
        Put(PidAt(i), 4, 0);
        return LFS_SUCCESS;
      }
      return LFS_ERR_NOT_STARTED;
    }

    /** `before` is what the caller's handle variable held; `hasOut` says whether there is one. */
    method LFSCreateAppHandle(pid: Pid, hasOut: bool, before: nat) returns (hr: int, handle: nat)
      requires Valid()
      modifies bytes
      ensures !hasOut ==> bytes[..] == old(bytes[..]) && hr == LFS_ERR_INVALID_POINTER
      ensures hasOut ==> bytes[..] == CreateBytes(old(bytes[..]), pid)
      ensures hasOut ==> Reply(hr, handle) == CreateHandleReply(View(old(bytes[..])), pid, before)
      ensures hasOut ==> (hr == LFS_ERR_NOT_STARTED <==> !HasSession(old(bytes[..]), pid))
      ensures hasOut ==> (hr == LFS_ERR_INTERNAL_ERROR <==> HasSession(old(bytes[..]), pid) && handle == 0)
      ensures hasOut ==> (hr == LFS_SUCCESS <==> HasSession(old(bytes[..]), pid) && handle != 0)
    {
      SessionIs(bytes[..], pid);
      handle := before;
      if !hasOut {
        return LFS_ERR_INVALID_POINTER, handle;
      }
      var i := Find(pid);
      if i == APPS {
        return LFS_ERR_NOT_STARTED, handle;
      }
      var k := FindFreeHandle(i);
      if k < SLOTS {
        handle := k + 1;
        bytes[HandleAt(i, k)] := 1;
      }
      hr := if handle != 0 then LFS_SUCCESS else LFS_ERR_INTERNAL_ERROR;
    }

    /** `beyond` is what lies at the handle's address outside of the segment. */
    method LFSDestroyAppHandle(pid: Pid, handle: int, beyond: bool) returns (hr: int)
      requires Valid()
      modifies bytes
      ensures bytes[..] == DestroyBytes(old(bytes[..]), pid, handle)
      ensures hr == DestroyBytesReply(old(bytes[..]), pid, handle, beyond)
      ensures hr == LFS_ERR_NOT_STARTED <==> handle != 0 && !HasSession(old(bytes[..]), pid)
      ensures hr == LFS_SUCCESS <==>
        handle != 0 && HasSession(old(bytes[..]), pid) &&
        (handle == 1 || Marked(old(bytes[..]), SlotIn(old(bytes[..]), pid), handle, beyond))
    {
      DestroyAnswers(bytes[..], pid, handle, beyond);
      if handle == 0 {
        return LFS_ERR_INVALID_APP_HANDLE;
      }
      var idx := handle - 1;
      var i := Find(pid);
      if i == APPS {
        return LFS_ERR_NOT_STARTED;
      }
      var a := HandleAt(i, idx);
      if 0 <= a < SEGMENT {
        if bytes[a] != 0 {
          bytes[a] := 0;
          idx := 0;
        }
      } else if beyond {
        idx := 0;
      }
      hr := if idx == 0 then LFS_SUCCESS else LFS_ERR_INVALID_APP_HANDLE;
    }

    /** The table part of LFSAsyncOpen; `lib` is the library the provider path loads to, 0 when loading throws. */
    method LFSAsyncOpen(pid: Pid, lib: Ulong) returns (hr: int, service: nat, requestId: nat)
      requires Valid()
      modifies bytes
      ensures bytes[..] == OpenBytes(old(bytes[..]), pid, lib)
      ensures Reply(hr, service) == OpenBytesReply(old(bytes[..]), pid, lib)
      ensures requestId == if hr == LFS_SUCCESS then 1 else 0
      ensures hr == LFS_ERR_NOT_STARTED <==> !HasSession(old(bytes[..]), pid)
      ensures hr == LFS_ERR_INVALID_SERVPROV <==> HasSession(old(bytes[..]), pid) && lib == 0
    {
      SessionIs(bytes[..], pid);
      service, requestId := 0, 0;
      var i := Find(pid);
      if i == APPS {
        return LFS_ERR_NOT_STARTED, service, requestId;
      }
      var k := FindFreeService(i);
      Put(CounterAt(i, k), 8, 1);
      if lib == 0 {
        return LFS_ERR_INVALID_SERVPROV, service, requestId;
      }
      Put(CounterAt(i, k) + 8, 8, lib);
      return LFS_SUCCESS, k + 1, 1;
    }

    /** The library and the id of one service, whose counter moves on. */
    method Request(a: nat) returns (lib: nat, id: nat)
      requires Valid() && a + SP_BYTES <= SEGMENT
      modifies bytes
      ensures bytes[..] == Bumped(old(bytes[..]), a)
      ensures lib == Load(old(bytes[..]), a + 8, 8) && id == Load(old(bytes[..]), a, 8)
    {
      lib := Load(bytes[..], a + 8, 8);
      id := Load(bytes[..], a, 8);
      Put(a, 8, (id + 1) % WIDTH);
    }

    /** GET_LIB_AND_REQUEST, for every call on an opened service. */
    method GetLibAndRequest(pid: Pid, service: Ushort, hasOut: bool) returns (hr: int, requestId: nat)
      requires Valid()
      modifies bytes
      ensures service != 0 && !hasOut ==> bytes[..] == old(bytes[..]) && hr == LFS_ERR_INVALID_POINTER
      ensures service == 0 || hasOut ==> bytes[..] == IssueBytes(old(bytes[..]), pid, service)
      ensures service == 0 || hasOut ==> Reply(hr, requestId) == IssueBytesReply(old(bytes[..]), pid, service)
      ensures service == 0 ==> hr == LFS_ERR_INVALID_HSERVICE
      ensures hr == LFS_ERR_NOT_STARTED <==> service != 0 && hasOut && !HasSession(old(bytes[..]), pid)
    {
      IssueAnswers(bytes[..], pid, service);
      requestId := 0;
      if service == 0 {
        return LFS_ERR_INVALID_HSERVICE, 0;
      }
      if !hasOut {
        return LFS_ERR_INVALID_POINTER, 0;
      }
      var i := Find(pid);
      if i == APPS {
        return LFS_ERR_NOT_STARTED, 0;
      }
      ServiceInSegment(i, service);
      IssueHere(bytes[..], i, pid, service);
      var lib;
      lib, requestId := Request(CounterAt(i, service - 1));
      hr := if lib != 0 then LFS_SUCCESS else LFS_ERR_INVALID_HSERVICE;
    }
  }
}
