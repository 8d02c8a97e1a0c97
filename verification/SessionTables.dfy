/**
 The tables every process shares through the manager's segment, as values: who has a session, its application handles
 and its service slots. Each call is atomic, under the segment's mutex. The functions say what a call does while its
 indices lie in the tables; what it does beyond them is a matter of addresses.
 */
module SessionTables {
  import opened Basics

  const APPS: nat := 64
  const SLOTS: nat := 8192

  /** SPData; a library of 0 is the null pointer. */
  datatype Service = Service(reqId: nat, lib: nat)

  datatype App = App(services: seq<Service>, handles: seq<bool>)

  datatype Tables = Tables(pids: seq<nat>, apps: seq<App>)

  /** An application's slot after clearMem. */
  function Blank(): App { App(seq(SLOTS, _ => Service(0, 0)), seq(SLOTS, _ => false)) }

  /** The zeroed segment. */
  function Zeroed(): Tables { Tables(seq(APPS, _ => 0), seq(APPS, _ => Blank())) }

  ghost predicate AppSized(a: App) { |a.services| == SLOTS && |a.handles| == SLOTS }

  /** Every process has at most one slot. */
  ghost predicate Sound(t: Tables) {
    && |t.pids| == APPS && |t.apps| == APPS
    && (forall i :: 0 <= i < APPS ==> AppSized(t.apps[i]))
    && (forall i, j :: 0 <= i < j < APPS && t.pids[i] != 0 ==> t.pids[i] != t.pids[j])
  }

  /** std::find: the first position of x, or the length. */
  function IndexOf<T(==)>(s: seq<T>, x: T): (k: nat)
    ensures k <= |s| && (k < |s| ==> s[k] == x) && forall j :: 0 <= j < k ==> s[j] != x
    ensures k < |s| <==> x in s
  {
    if s == [] || s[0] == x then 0 else IndexOf(s[1..], x) + 1
  }

  function FreeService(s: seq<Service>): (k: nat)
    ensures k <= |s| && (k < |s| ==> s[k].reqId == 0) && forall j :: 0 <= j < k ==> s[j].reqId != 0
  {
    if s == [] || s[0].reqId == 0 then 0 else FreeService(s[1..]) + 1
  }

  function SlotOf(t: Tables, pid: nat): nat { IndexOf(t.pids, pid) }

  predicate Started(t: Tables, pid: nat) { SlotOf(t, pid) < |t.pids| && SlotOf(t, pid) < |t.apps| }

  function AppOf(t: Tables, pid: nat): App
    requires Started(t, pid)
  {
    t.apps[SlotOf(t, pid)]
  }

  function WithApp(t: Tables, pid: nat, a: App): Tables
    requires Started(t, pid)
  {
    t.(apps := t.apps[SlotOf(t, pid) := a])
  }

  // ---- the calls: new tables and result

  datatype Reply = Reply(hr: int, out: nat)

  function StartUp(t: Tables, pid: nat): Tables {
    if pid in t.pids || SlotOf(t, 0) >= |t.pids| || SlotOf(t, 0) >= |t.apps| then t
    else Tables(t.pids[SlotOf(t, 0) := pid], t.apps[SlotOf(t, 0) := Blank()])
  }

  function StartUpReply(t: Tables, pid: nat): int {
    if pid in t.pids then LFS_ERR_ALREADY_STARTED else if 0 in t.pids then LFS_SUCCESS else LFS_ERR_INTERNAL_ERROR
  }

  function CleanUp(t: Tables, pid: nat): Tables {
    if SlotOf(t, pid) < |t.pids| then t.(pids := t.pids[SlotOf(t, pid) := 0]) else t
  }

  function CreateHandle(t: Tables, pid: nat): Tables {
    if !Started(t, pid) then t
    else
      var a := AppOf(t, pid);
      var k := IndexOf(a.handles, false);
      if k < |a.handles| then WithApp(t, pid, a.(handles := a.handles[k := true])) else t
  }

  /** `before` is what the caller's variable held; a full table leaves it as it was. */
  function CreateHandleReply(t: Tables, pid: nat, before: nat): Reply {
    if !Started(t, pid) then Reply(LFS_ERR_NOT_STARTED, before)
    else
      var k := IndexOf(AppOf(t, pid).handles, false);
      var out := if k < |AppOf(t, pid).handles| then k + 1 else before;
      Reply(if out != 0 then LFS_SUCCESS else LFS_ERR_INTERNAL_ERROR, out)
  }

  predicate HandleInTable(t: Tables, pid: nat, h: nat) { Started(t, pid) ==> h <= |AppOf(t, pid).handles| }

  function DestroyHandle(t: Tables, pid: nat, h: nat): Tables
    requires HandleInTable(t, pid, h)
  {
    if h == 0 || !Started(t, pid) then t
    else WithApp(t, pid, AppOf(t, pid).(handles := AppOf(t, pid).handles[h - 1 := false]))
  }

  function DestroyHandleReply(t: Tables, pid: nat, h: nat): int
    requires HandleInTable(t, pid, h)
  {
    if h == 0 then LFS_ERR_INVALID_APP_HANDLE
    else if !Started(t, pid) then LFS_ERR_NOT_STARTED
    else if AppOf(t, pid).handles[h - 1] || h - 1 == 0 then LFS_SUCCESS
    else LFS_ERR_INVALID_APP_HANDLE
  }

  /** `lib` is the library the provider path loads to, 0 when loading throws; the slot is taken either way. */
  predicate HasRoom(t: Tables, pid: nat) {
    Started(t, pid) ==> FreeService(AppOf(t, pid).services) < |AppOf(t, pid).services|
  }

  function Open(t: Tables, pid: nat, lib: nat): Tables
    requires HasRoom(t, pid)
  {
    if !Started(t, pid) then t
    else
      var a := AppOf(t, pid);
      var k := FreeService(a.services);
      WithApp(t, pid, a.(services := a.services[k := Service(1, if lib == 0 then a.services[k].lib else lib)]))
  }

  /** The service handle, when there is one. The request id is 1 with it and 0 otherwise. */
  function OpenReply(t: Tables, pid: nat, lib: nat): Reply {
    if !Started(t, pid) then Reply(LFS_ERR_NOT_STARTED, 0)
    else if lib == 0 then Reply(LFS_ERR_INVALID_SERVPROV, 0)
    else Reply(LFS_SUCCESS, FreeService(AppOf(t, pid).services) + 1)
  }

  /** GET_LIB_AND_REQUEST: the id is issued and the counter moves on before the library is looked at. */
  predicate ServiceInTable(t: Tables, pid: nat, service: nat) {
    Started(t, pid) ==> service <= |AppOf(t, pid).services|
  }

  function Issue(t: Tables, pid: nat, service: nat): Tables
    requires ServiceInTable(t, pid, service)
  {
    if service == 0 || !Started(t, pid) then t
    else
      var a := AppOf(t, pid);
      var x := a.services[service - 1];
      WithApp(t, pid, a.(services := a.services[service - 1 := x.(reqId := (x.reqId + 1) % WIDTH)]))
  }

  function IssueReply(t: Tables, pid: nat, service: nat): Reply
    requires ServiceInTable(t, pid, service)
  {
    if service == 0 then Reply(LFS_ERR_INVALID_HSERVICE, 0)
    else if !Started(t, pid) then Reply(LFS_ERR_NOT_STARTED, 0)
    else
      var x := AppOf(t, pid).services[service - 1];
      Reply(if x.lib != 0 then LFS_SUCCESS else LFS_ERR_INVALID_HSERVICE, x.reqId)
  }

  // ---- handles

  ghost predicate Live(t: Tables, pid: nat, h: nat) {
    Started(t, pid) && 0 < h <= |AppOf(t, pid).handles| && AppOf(t, pid).handles[h - 1]
  }

  lemma SlotKept(t: Tables, pid: nat, a: App)
    requires Started(t, pid)
    ensures Started(WithApp(t, pid, a), pid) && AppOf(WithApp(t, pid, a), pid) == a
  {
  }

  /**
   A created handle was not live, becomes live and disturbs no other; success is fresh exactly when a slot was free.
   */
  lemma CreatedIsFresh(t: Tables, pid: nat, before: nat)
    requires Sound(t) && pid != 0
    ensures var r, t' := CreateHandleReply(t, pid, before), CreateHandle(t, pid);
      && (r.hr == LFS_SUCCESS <==> Started(t, pid) && (false in AppOf(t, pid).handles || before != 0))
      && (Started(t, pid) && false in AppOf(t, pid).handles ==>
            !Live(t, pid, r.out) && forall h :: Live(t', pid, h) <==> Live(t, pid, h) || h == r.out)
      && (Started(t, pid) && false !in AppOf(t, pid).handles ==> r.out == before && t' == t)
  {
    if Started(t, pid) && false in AppOf(t, pid).handles {
      var a := AppOf(t, pid);
      var k := IndexOf(a.handles, false);
      SlotKept(t, pid, a.(handles := a.handles[k := true]));
    }
  }

  /** Destroying ends exactly one handle; it reports success for a live handle, and for handle 1 whether live or not. */
  lemma DestroyedIsGone(t: Tables, pid: nat, h: nat)
    requires Sound(t) && pid != 0 && h <= SLOTS
    ensures forall g :: Live(DestroyHandle(t, pid, h), pid, g) <==> Live(t, pid, g) && g != h
    ensures DestroyHandleReply(t, pid, h) == LFS_SUCCESS <==> Live(t, pid, h) || (h == 1 && Started(t, pid))
  {
    if h != 0 && Started(t, pid) {
      var a := AppOf(t, pid);
      SlotKept(t, pid, a.(handles := a.handles[h - 1 := false]));
    }
  }

  // ---- services and request ids of one session

  /** What a session has been given: service slots consumed by opens, handles returned, ids issued per slot. */
  datatype Log = Log(consumed: set<nat>, opens: seq<nat>, ids: seq<seq<nat>>)

  function Nothing(): Log { Log({}, [], seq(SLOTS, _ => [])) }

  datatype Call =
    | DoStartUp(pid: Pid)
    | DoCleanUp(pid: Pid)
    | DoCreate(pid: Pid)
    | DoDestroy(pid: Pid, h: int)    // the handle as a signed long
    | DoOpen(pid: Pid, lib: Ulong)
    | DoIssue(pid: Pid, service: Ushort)

  /** Indices that lie in the tables, room for another open, and no counter about to wrap. */
  predicate InBounds(t: Tables, c: Call) {
    match c
    case DoDestroy(pid, h) => h >= 0 && HandleInTable(t, pid, h)
    case DoOpen(pid, _) => HasRoom(t, pid)
    case DoIssue(pid, service) =>
      ServiceInTable(t, pid, service) &&
      (Started(t, pid) && service > 0 ==> AppOf(t, pid).services[service - 1].reqId + 1 < WIDTH)
    case _ => true
  }

  /** The log of the session of `pid` after one of its own calls. */
  function Logged(t: Tables, c: Call, pid: nat, g: Log): Log
    requires c.pid == pid ==> InBounds(t, c)
  {
    if c.pid != pid || !Started(t, pid) then g
    else
      match c
      case DoOpen(_, lib) =>
        var k := FreeService(AppOf(t, pid).services);
        Log(g.consumed + {k}, if lib != 0 then g.opens + [OpenReply(t, pid, lib).out] else g.opens, g.ids)
      case DoIssue(_, service) =>
        if 0 < service <= |g.ids| then
          g.(ids := g.ids[service - 1 := g.ids[service - 1] + [IssueReply(t, pid, service).out]])
        else g
      case _ => g
  }

  /** The first id issued on a slot: an open starts the counter at 1, an unopened slot counts from 0. */
  function FirstId(g: Log, k: nat): nat { if k in g.consumed then 1 else 0 }

  ghost predicate Consecutive(ids: seq<nat>, first: nat) { forall n :: 0 <= n < |ids| ==> ids[n] == first + n }

  ghost predicate SlotLogged(x: Service, g: Log, k: nat)
    requires k < |g.ids|
  {
    x.reqId == FirstId(g, k) + |g.ids[k]| && Consecutive(g.ids[k], FirstId(g, k)) && (x.lib != 0 <==> k + 1 in g.opens)
  }

  ghost predicate Distinct(s: seq<nat>) { forall i, j :: 0 <= i < j < |s| ==> s[i] != s[j] }

  ghost predicate Session(t: Tables, pid: nat, g: Log) {
    && Sound(t) && Started(t, pid) && |g.ids| == SLOTS
    && (forall k :: 0 <= k < SLOTS ==> SlotLogged(AppOf(t, pid).services[k], g, k))
    && Distinct(g.opens) && (forall h :: h in g.opens ==> h > 0 && h - 1 in g.consumed)
  }

  lemma WithAppSound(t: Tables, pid: nat, a: App)
    requires Sound(t) && Started(t, pid) && AppSized(a)
    ensures Sound(WithApp(t, pid, a))
  {
  }

  lemma OpenLogged(t: Tables, pid: Pid, lib: Ulong, g: Log)
    requires Session(t, pid, g) && InBounds(t, DoOpen(pid, lib))
    ensures Session(Open(t, pid, lib), pid, Logged(t, DoOpen(pid, lib), pid, g))
  {
    var a := AppOf(t, pid);
    var k := FreeService(a.services);
    var a' := a.(services := a.services[k := Service(1, if lib == 0 then a.services[k].lib else lib)]);
    var g' := Logged(t, DoOpen(pid, lib), pid, g);
    assert SlotLogged(a.services[k], g, k) && k !in g.consumed && k + 1 !in g.opens;
    SlotKept(t, pid, a');
    WithAppSound(t, pid, a');
    forall j | 0 <= j < SLOTS
      ensures SlotLogged(a'.services[j], g', j)
    {
      assert SlotLogged(a.services[j], g, j);
    }
  }

  lemma IssueLogged(t: Tables, pid: Pid, service: Ushort, g: Log)
    requires Session(t, pid, g) && InBounds(t, DoIssue(pid, service))
    ensures Session(Issue(t, pid, service), pid, Logged(t, DoIssue(pid, service), pid, g))
  {
    if service > 0 {
      var a := AppOf(t, pid);
      var x := a.services[service - 1];
      var a' := a.(services := a.services[service - 1 := x.(reqId := (x.reqId + 1) % WIDTH)]);
      var g' := Logged(t, DoIssue(pid, service), pid, g);
      assert SlotLogged(x, g, service - 1);
      SlotKept(t, pid, a');
      WithAppSound(t, pid, a');
      forall j | 0 <= j < SLOTS
        ensures SlotLogged(a'.services[j], g', j)
      {
        assert SlotLogged(a.services[j], g, j);
      }
    }
  }

  /** Whatever leaves the services alone leaves the log of the session as it is. */
  lemma ServicesLogged(t: Tables, t': Tables, pid: Pid, g: Log)
    requires Session(t, pid, g) && Sound(t') && Started(t', pid) && AppOf(t', pid).services == AppOf(t, pid).services
    ensures Session(t', pid, g)
  {
    forall k | 0 <= k < SLOTS
      ensures SlotLogged(AppOf(t', pid).services[k], g, k)
    {
      assert SlotLogged(AppOf(t, pid).services[k], g, k);
    }
  }

  /** The id an open gives to itself is given again to the first request on the new service. */
  lemma OpenIdRepeats(t: Tables, pid: nat, lib: nat)
    requires Sound(t) && Started(t, pid) && lib != 0 && HasRoom(t, pid)
    ensures var service := OpenReply(t, pid, lib).out;
      IssueReply(Open(t, pid, lib), pid, service) == Reply(LFS_SUCCESS, 1)
  {
    var a := AppOf(t, pid);
    var k := FreeService(a.services);
    SlotKept(t, pid, a.(services := a.services[k := Service(1, lib)]));
  }
}
