/** What each session call answers, and when, for any bytes of the segment; and which table it leaves alone. */
module SessionAnswers {
  import opened Basics
  import opened SegmentBytes
  import opened SessionTables
  import opened SessionMemory

  ghost predicate HasSession(m: seq<Byte>, pid: Pid)
    requires Sized(m)
  {
    exists i: nat :: i < APPS && PidIn(m, i) == pid
  }

  lemma SessionIs(m: seq<Byte>, pid: nat)
    requires Sized(m)
    ensures SlotIn(m, pid) < APPS <==> exists i: nat :: i < APPS && PidIn(m, i) == pid
    ensures SlotIn(m, pid) < APPS <==> pid in View(m).pids
  {
    var t := View(m);
    assert forall i: nat :: i < APPS ==> t.pids[i] == PidIn(m, i);
  }

  /** The start of a process that has a session is told so; a full table is an internal error only for the others. */
  lemma StartUpAnswers(m: seq<Byte>, pid: Pid)
    requires Sized(m)
    ensures var hr, free := StartUpReply(View(m), pid), exists i: nat :: i < APPS && PidIn(m, i) == 0;
      && (hr == LFS_ERR_ALREADY_STARTED <==> HasSession(m, pid))
      && (hr == LFS_ERR_INTERNAL_ERROR <==> !HasSession(m, pid) && !free)
      && (hr == LFS_SUCCESS <==> !HasSession(m, pid) && free)
  {
    SessionIs(m, pid);
    SessionIs(m, 0);
  }

  /** Handle h of slot i is taken. */
  predicate Taken(m: seq<Byte>, i: nat, h: nat)
    requires Sized(m) && i < APPS && 0 < h <= SLOTS
  {
    m[i * APP_BYTES + HANDLES + h - 1] != 0
  }

  ghost predicate AllTaken(m: seq<Byte>, i: nat, k: nat)
    requires Sized(m) && i < APPS && k <= SLOTS
  {
    forall h :: 0 < h <= k ==> Taken(m, i, h)
  }

  /** The lowest free handle is the one created; without one the caller's variable decides between the two answers. */
  lemma CreateAnswers(m: seq<Byte>, pid: Pid, before: nat)
    requires Sized(m)
    ensures var r, i := CreateHandleReply(View(m), pid, before), SlotIn(m, pid);
      && (r.hr == LFS_ERR_NOT_STARTED <==> !HasSession(m, pid))
      && (r.hr == LFS_ERR_INTERNAL_ERROR <==> HasSession(m, pid) && AllTaken(m, i, SLOTS) && before == 0)
      && (r.hr == LFS_SUCCESS <==> HasSession(m, pid) && (!AllTaken(m, i, SLOTS) || before != 0))
      && (if HasSession(m, pid) && !AllTaken(m, i, SLOTS) then
            0 < r.out <= SLOTS && !Taken(m, i, r.out) && AllTaken(m, i, r.out - 1)
          else r.out == before)
  {
    SessionIs(m, pid);
    var i := SlotIn(m, pid);
    if i < APPS {
      var s := AppIn(m, i).handles;
      assert forall h: nat :: 0 < h <= SLOTS ==> s[h - 1] == Taken(m, i, h);
      var k := IndexOf(s, false);
      assert AllTaken(m, i, k);
      assert k < SLOTS ==> !Taken(m, i, k + 1);
    }
  }

  /** The byte a handle stands for, in the segment or beyond it. */
  predicate Marked(m: seq<Byte>, i: nat, h: int, beyond: bool)
    requires Sized(m)
  {
    var a := i * APP_BYTES + HANDLES + h - 1;
    if 0 <= a < SEGMENT then m[a] != 0 else beyond
  }

  /** Handle 0 is invalid for everyone, and so, to a process with a session, is any but handle 1 that is not marked. */
  lemma DestroyAnswers(m: seq<Byte>, pid: Pid, h: int, beyond: bool)
    requires Sized(m)
    ensures var hr, marked := DestroyBytesReply(m, pid, h, beyond), Marked(m, SlotIn(m, pid), h, beyond);
      && (hr == LFS_ERR_INVALID_APP_HANDLE <==> h == 0 || (HasSession(m, pid) && h != 1 && !marked))
      && (hr == LFS_ERR_NOT_STARTED <==> h != 0 && !HasSession(m, pid))
      && (hr == LFS_SUCCESS <==> h != 0 && HasSession(m, pid) && (h == 1 || marked))
  {
    SessionIs(m, pid);
  }

  ghost predicate CountersSet(m: seq<Byte>, i: nat, k: nat)
    requires Sized(m) && i < APPS && k <= SLOTS
  {
    forall j :: 0 <= j < k ==> ServiceIn(m, i, j).reqId != 0
  }

  /** The service handed out is the first one whose counter is 0, or the one past the end. */
  lemma OpenAnswers(m: seq<Byte>, pid: Pid, lib: Ulong)
    requires Sized(m)
    ensures var r, i := OpenBytesReply(m, pid, lib), SlotIn(m, pid);
      && (r.hr == LFS_ERR_NOT_STARTED <==> !HasSession(m, pid))
      && (r.hr == LFS_ERR_INVALID_SERVPROV <==> HasSession(m, pid) && lib == 0)
      && (r.hr == LFS_SUCCESS <==> HasSession(m, pid) && lib != 0)
      && (r.hr != LFS_SUCCESS ==> r.out == 0)
      && (r.hr == LFS_SUCCESS ==>
            && 0 < r.out <= SLOTS + 1 && CountersSet(m, i, r.out - 1)
            && (r.out <= SLOTS ==> ServiceIn(m, i, r.out - 1).reqId == 0))
  {
    SessionIs(m, pid);
    var i := SlotIn(m, pid);
    if i < APPS {
      var s := AppIn(m, i).services;
      assert forall j :: 0 <= j < SLOTS ==> s[j] == ServiceIn(m, i, j);
    }
  }

  /** A request needs a library; the id it answers is the counter before it moves on, library or not. */
  lemma IssueAnswers(m: seq<Byte>, pid: Pid, service: Ushort)
    requires Sized(m)
    ensures var r, i := IssueBytesReply(m, pid, service), SlotIn(m, pid);
      var a := i * APP_BYTES + (service - 1) * SP_BYTES;
      && (r.hr == LFS_ERR_NOT_STARTED <==> service != 0 && !HasSession(m, pid))
      && (service == 0 || !HasSession(m, pid) ==> r.out == 0 && (service == 0 ==> r.hr == LFS_ERR_INVALID_HSERVICE))
      && (service != 0 && HasSession(m, pid) ==>
            && 0 <= a && a + SP_BYTES <= SEGMENT && r.out == Load(m, a, 8)
            && (r.hr == LFS_SUCCESS <==> Load(m, a + 8, 8) != 0)
            && (r.hr == LFS_ERR_INVALID_HSERVICE <==> Load(m, a + 8, 8) == 0))
  {
    SessionIs(m, pid);
    var i := SlotIn(m, pid);
    if i < APPS && service > 0 {
      ServiceInSegment(i, service);
      IssueHere(m, i, pid, service);
    }
  }

  /** Calls for handles leave the services of their caller alone. */
  lemma HandlesApart(m: seq<Byte>, c: Call)
    requires Sized(m) && SlotIn(m, c.pid) < APPS && InBounds(View(m), c) && (c.DoCreate? || c.DoDestroy?)
    ensures var i := SlotIn(m, c.pid); AppIn(Bytes(m, c), i).services == AppIn(m, i).services
  {
    var i, n := SlotIn(m, c.pid), Bytes(m, c);
    forall k | 0 <= k < SLOTS
      ensures ServiceIn(n, i, k) == ServiceIn(m, i, k)
    {
      SameService(m, n, i, k);
    }
  }

  /** And calls for services its handles. */
  lemma ServicesApart(m: seq<Byte>, c: Call)
    requires Sized(m) && SlotIn(m, c.pid) < APPS && InBounds(View(m), c) && (c.DoOpen? || c.DoIssue?)
    ensures var i := SlotIn(m, c.pid); AppIn(Bytes(m, c), i).handles == AppIn(m, i).handles
  {
    if c.DoOpen? { OpenApart(m, c.pid, c.lib); } else { IssueApart(m, c.pid, c.service); }
  }

  lemma OpenApart(m: seq<Byte>, pid: Pid, lib: Ulong)
    requires Sized(m) && SlotIn(m, pid) < APPS && HasRoom(View(m), pid)
    ensures AppIn(OpenBytes(m, pid, lib), SlotIn(m, pid)).handles == AppIn(m, SlotIn(m, pid)).handles
  {
    OpenWrites(m, SlotIn(m, pid), FreeService(AppIn(m, SlotIn(m, pid)).services), lib);
  }

  lemma IssueApart(m: seq<Byte>, pid: Pid, service: Ushort)
    requires Sized(m) && SlotIn(m, pid) < APPS && ServiceInTable(View(m), pid, service)
    ensures AppIn(IssueBytes(m, pid, service), SlotIn(m, pid)).handles == AppIn(m, SlotIn(m, pid)).handles
  {
    var i := SlotIn(m, pid);
    if service > 0 {
      ServiceInSegment(i, service);
      IssueHere(m, i, pid, service);
      BumpApart(m, i, service - 1);
    }
  }

  lemma BumpApart(m: seq<Byte>, i: nat, k: nat)
    requires Sized(m) && i < APPS && k < SLOTS
    ensures Sized(Bumped(m, CounterAt(i, k))) && AppIn(Bumped(m, CounterAt(i, k)), i).handles == AppIn(m, i).handles
  {
    BumpedOnce(m, CounterAt(i, k));
  }
}
