/** The life of a transfer in src/lib/UrlDownloader.cpp: the manager that owns the libcurl connections,
    the downloaders that own the manager's attention, and everything the user code and libcurl may do to
    them, in any order. */
module UrlDownloader {
  import opened Options

  /** The address of a connection: a new one may get the address of one already deleted. */
  type Ptr = nat

  /** A UrlDownloader object, told apart for ever. */
  type Id = nat

  datatype Conn = Conn(serial: nat, owner: Option<Id>, abortRequested: bool, inCallback: bool, added: bool)

  /** The closures handed to Idler::singleIdler. */
  datatype Idler =
    | AddLater(conn: Ptr, serial: nat)
    | Sweep(conn: Ptr, serial: nat)
    | DropSweep(conn: Ptr, serial: nat)
    | Destroy(d: Id)

  /** The fields of UrlDownloaderCurlManager; `disposed` counts the disposals of each serial. */
  datatype Manager = Manager(
    live: map<Ptr, Conn>,
    serialCounter: nat,
    depth: nat,
    idlers: multiset<Idler>,
    disposed: multiset<nat>)
  {
    predicate IsLive(p: Ptr, serial: nat) { p in live && live[p].serial == serial }

    /** disposeConn: never inside a libcurl callback. */
    function Dispose(p: Ptr): Manager
      requires p in live && depth == 0
    {
      this.(live := live - {p}, disposed := disposed + multiset{live[p].serial})
    }

    /** addNow, when libcurl takes the handle: never inside a libcurl callback, never twice. */
    function Add(p: Ptr): Manager
      requires p in live && depth == 0 && !live[p].added
    {
      this.(live := live[p := live[p].(added := true)])
    }

    /** startTransfer: the manager after it, and whether the connection is kept. */
    function Start(p: Ptr, owner: Id, addOk: bool): (Manager, bool)
      requires p !in live
    {
      var serial := serialCounter + 1;
      var m := this.(serialCounter := serial, live := live[p := Conn(serial, Some(owner), false, false, false)]);
      if depth > 0 then (m.(idlers := idlers + multiset{AddLater(p, serial)}), true)
      else if addOk then (m.Add(p), true)
      else (m.Dispose(p), false)
    }

    /** abortTransfer. */
    function Abort(p: Ptr): Manager {
      if p !in live then this
      else
        var c := live[p].(owner := None, abortRequested := true);
        var m := this.(live := live[p := c]);
        if depth > 0 || c.inCallback then m.(idlers := idlers + multiset{Sweep(p, c.serial)})
        else m.Dispose(p)
    }

    /** dropTransferFromCallback. */
    function Drop(p: Ptr): Manager {
      if p !in live then this
      else this.(live := live[p := live[p].(abortRequested := true)],
                 idlers := idlers + multiset{DropSweep(p, live[p].serial)})
    }

    function SetInCallback(p: Ptr, value: bool): Manager
      requires p in live
    {
      this.(live := live[p := live[p].(inCallback := value)])
    }
  }

  datatype Downloader = Downloader(conn: Option<Ptr>, cancelled: bool, autodelete: bool, destroyScheduled: bool)

  /** Where the thread is: in the event loop, in curl_multi_socket_action, in the user code called from a
      body callback, in checkMultiInfo, or in the user code called from completeCb. */
  datatype Phase =
    | Loop
    | Dispatch
    | Writing(conn: Ptr, serial: nat)
    | Collecting
    | Completing(d: Id, resume: Phase)

  /** The whole system. `answered` counts the transferDone calls of each serial, `signals` the signals each
      downloader emitted, `freed` the deletions of each downloader. */
  datatype State = State(
    mgr: Manager,
    dls: map<Id, Downloader>,
    used: set<Id>,
    phase: Phase,
    answered: multiset<nat>,
    signals: multiset<Id>,
    freed: multiset<Id>)

  const INIT: State :=
    State(Manager(map[], 0, 0, multiset{}, multiset{}), map[], {}, Loop, multiset{}, multiset{}, multiset{})

  datatype Event =
    // user code
    | New(d: Id, autodelete: bool)
    | StartDownload(d: Id, conn: Ptr, ready: bool, addOk: bool)
    | Cancel(d: Id)
    | Delete(d: Id)
    // libcurl and the event loop
    | BeginDispatch
    | BeginWrite(conn: Ptr)
    | EndWrite
    | SocketRefused(conn: Ptr)
    | EndDispatch
    | Done(conn: Ptr)
    | EndCollect
    | NextSignal
    | EndComplete
    | RunIdler(idler: Idler, addOk: bool)

  predicate InUserCode(s: State) { s.phase.Loop? || s.phase.Writing? || s.phase.Completing? }

  /** What may happen. User code keeps the contract of UrlDownloader.h: it never deletes an autodelete
      object, nor an object from its own completion handler. libcurl reports the end of a connection it has
      and calls back for a connection it has. */
  predicate Enabled(s: State, e: Event) {
    match e
    case New(d, _) => InUserCode(s) && d !in s.used
    case StartDownload(d, p, _, _) => InUserCode(s) && d in s.dls && p !in s.mgr.live
    case Cancel(d) => InUserCode(s) && d in s.dls
    case Delete(d) => InUserCode(s) && d in s.dls && !s.dls[d].autodelete
                      && (s.phase.Completing? ==> s.phase.d != d)
    case BeginDispatch => s.phase.Loop?
    case BeginWrite(p) => s.phase.Dispatch? && p in s.mgr.live && s.mgr.live[p].added
                          && !s.mgr.live[p].abortRequested && s.mgr.live[p].owner.Some?
    case EndWrite => s.phase.Writing?
    case SocketRefused(p) => p in s.mgr.live
    case EndDispatch => s.phase.Dispatch?
    case Done(p) => s.phase.Collecting? && p in s.mgr.live && s.mgr.live[p].added
    case EndCollect => s.phase.Collecting?
    case NextSignal => s.phase.Completing?
    case EndComplete => s.phase.Completing?
    case RunIdler(i, _) => s.phase.Loop? && i in s.mgr.idlers
  }

  // ----- the downloader -----

  /** Destroy(): schedules the deletion once. */
  function ScheduleDestroy(s: State, d: Id): State
    requires d in s.dls
  {
    if s.dls[d].destroyScheduled then s
    else s.(dls := s.dls[d := s.dls[d].(destroyScheduled := true)],
            mgr := s.mgr.(idlers := s.mgr.idlers + multiset{Destroy(d)}))
  }

  /** closeHandles(). */
  function CloseHandles(s: State, d: Id): State
    requires d in s.dls
  {
    match s.dls[d].conn
    case None => s
    case Some(p) => s.(mgr := s.mgr.Abort(p), dls := s.dls[d := s.dls[d].(conn := None)])
  }

  function DoCancel(s: State, d: Id): State
    requires d in s.dls
  {
    if s.dls[d].cancelled then s
    else
      var s1 := CloseHandles(s.(dls := s.dls[d := s.dls[d].(cancelled := true)]), d);
      if s1.dls[d].autodelete then ScheduleDestroy(s1, d) else s1
  }

  /** The destructor. */
  function DoDelete(s: State, d: Id): State
    requires d in s.dls
  {
    var s1 := CloseHandles(s, d);
    s1.(dls := s1.dls - {d}, freed := s1.freed + multiset{d})
  }

  /** start(): refused when cancelled, when a transfer is under way, or when it is not `ready`: no URL, no handle from
      libcurl, or a destination that cannot be opened. */
  function DoStart(s: State, d: Id, p: Ptr, ready: bool, addOk: bool): State
    requires d in s.dls && p !in s.mgr.live
  {
    if s.dls[d].cancelled || s.dls[d].conn.Some? || !ready then s
    else
      var (m, kept) := s.mgr.Start(p, d, addOk);
      s.(mgr := m, dls := if kept then s.dls[d := s.dls[d].(conn := Some(p))] else s.dls)
  }

  /** transferDone() and the first signal of completeCb(), when the owner still lives. */
  function Answer(s: State, owner: Option<Id>, serial: nat, resume: Phase): State {
    if owner.None? || owner.value !in s.dls then s.(phase := resume)
    else
      var d := owner.value;
      var s1 := s.(dls := s.dls[d := s.dls[d].(conn := None)], answered := s.answered + multiset{serial});
      if s1.dls[d].cancelled then s1.(phase := resume)
      else s1.(signals := s1.signals + multiset{d}, phase := Completing(d, resume))
  }

  function DisposeAndAnswer(s: State, p: Ptr, resume: Phase): State
    requires p in s.mgr.live && s.mgr.depth == 0
  {
    var c := s.mgr.live[p];
    Answer(s.(mgr := s.mgr.Dispose(p)), c.owner, c.serial, resume)
  }

  function Idle(s: State, i: Idler, addOk: bool): State
    requires s.mgr.depth == 0 && i in s.mgr.idlers
    requires i.Destroy? ==> i.d in s.dls
    requires i.AddLater? && s.mgr.IsLive(i.conn, i.serial) ==> !s.mgr.live[i.conn].added
  {
    var s1 := s.(mgr := s.mgr.(idlers := s.mgr.idlers - multiset{i}));
    match i
    case AddLater(p, serial) =>
      if !s.mgr.IsLive(p, serial) then s1
      else if addOk then s1.(mgr := s1.mgr.Add(p))
      else DisposeAndAnswer(s1, p, s.phase)
    case Sweep(p, serial) =>
      if !s.mgr.IsLive(p, serial) then s1 else s1.(mgr := s1.mgr.Dispose(p))
    case DropSweep(p, serial) =>
      if !s.mgr.IsLive(p, serial) then s1 else DisposeAndAnswer(s1, p, s.phase)
    case Destroy(d) => DoDelete(s1, d)
  }

  // ----- the invariant -----

  /** A connection and its downloader point to each other. */
  ghost predicate Linked(live: map<Ptr, Conn>, dls: map<Id, Downloader>) {
    && (forall p <- live :: live[p].owner.Some? ==>
          live[p].owner.value in dls && dls[live[p].owner.value].conn == Some(p))
    && (forall d <- dls :: dls[d].conn.Some? ==>
          dls[d].conn.value in live && live[dls[d].conn.value].owner == Some(d))
  }

  ghost predicate CancelledIdle(dls: map<Id, Downloader>) {
    forall d <- dls :: dls[d].cancelled ==> dls[d].conn == None
  }

  /** Every serial handed out is that of one live connection, or has been disposed of once. */
  ghost predicate Counted(live: map<Ptr, Conn>, serialCounter: nat, disposed: multiset<nat>) {
    && (forall p <- live :: 0 < live[p].serial <= serialCounter && disposed[live[p].serial] == 0)
    && (forall p <- live, q <- live :: live[p].serial == live[q].serial ==> p == q)
    && (forall k: nat :: disposed[k] <= 1 && (disposed[k] == 1 ==> 0 < k <= serialCounter))
    && (forall k: nat :: 0 < k <= serialCounter && disposed[k] == 0 ==> HasSerial(live, k))
  }

  ghost predicate HasSerial(live: map<Ptr, Conn>, serial: nat) {
    exists p: Ptr :: p in live && live[p].serial == serial
  }

  /** A connection not yet added is still to be added, exactly once; one that nobody will answer, or that
      must die, is still to be swept. */
  ghost predicate Pending(live: map<Ptr, Conn>, serialCounter: nat, idlers: multiset<Idler>) {
    && (forall p <- live :: PendingConn(live[p], p, idlers))
    && (forall i <- idlers :: !i.Destroy? ==> i.serial <= serialCounter)
  }

  ghost predicate PendingConn(c: Conn, p: Ptr, idlers: multiset<Idler>) {
    && idlers[AddLater(p, c.serial)] == (if c.added then 0 else 1)
    && (c.owner.None? || c.abortRequested ==> Sweep(p, c.serial) in idlers || DropSweep(p, c.serial) in idlers)
    && (Sweep(p, c.serial) in idlers ==> c.owner.None?)
  }

  ghost predicate MgrOk(m: Manager) {
    Counted(m.live, m.serialCounter, m.disposed) && Pending(m.live, m.serialCounter, m.idlers)
  }

  /** An autodelete object is scheduled for one deletion at most, and every object is deleted once at most. */
  ghost predicate FreedOnce(idlers: multiset<Idler>, dls: map<Id, Downloader>, used: set<Id>, freed: multiset<Id>) {
    && (forall d: Id :: idlers[Destroy(d)] == if d in dls && dls[d].destroyScheduled then 1 else 0)
    && (forall d <- dls :: dls[d].destroyScheduled ==> dls[d].autodelete)
    && dls.Keys <= used
    && (forall d: Id :: freed[d] == if d in used && d !in dls then 1 else 0)
  }

  /** libcurl is on the stack exactly when dispatchDepth says so, the connection whose callback runs user
      code stays alive under it, and so does the downloader whose handlers run. */
  ghost predicate Stacked(depth: nat, live: map<Ptr, Conn>, phase: Phase, dls: map<Id, Downloader>) {
    && depth == (if phase.Dispatch? || phase.Writing? then 1 else 0)
    && (forall p <- live :: live[p].inCallback ==> phase == Writing(p, live[p].serial))
    && (phase.Writing? ==> phase.conn in live && live[phase.conn].serial == phase.serial && live[phase.conn].inCallback)
    && (phase.Completing? ==> phase.d in dls && (phase.resume.Loop? || phase.resume.Collecting?))
  }

  ghost predicate AnsweredOnce(answered: multiset<nat>, disposed: multiset<nat>) {
    forall k: nat :: answered[k] <= disposed[k]
  }

  ghost predicate Sound(s: State) {
    && MgrOk(s.mgr)
    && Linked(s.mgr.live, s.dls)
    && FreedOnce(s.mgr.idlers, s.dls, s.used, s.freed)
    && Stacked(s.mgr.depth, s.mgr.live, s.phase, s.dls)
    && AnsweredOnce(s.answered, s.mgr.disposed)
  }

  ghost predicate Inv(s: State) { Sound(s) && CancelledIdle(s.dls) }

  /** What the code relies on when it handles an event: libcurl is not on its stack when it adds or disposes
      of a connection, a connection is added once, and nothing that is touched has been deleted. */
  predicate Safe(s: State, e: Event)
    requires Enabled(s, e)
  {
    match e
    case BeginWrite(p) => s.mgr.live[p].owner.value in s.dls
    case EndWrite => s.phase.conn in s.mgr.live
    case EndDispatch => s.mgr.depth > 0
    case Done(p) => s.mgr.depth == 0
    case NextSignal => s.phase.d in s.dls
    case EndComplete => s.phase.d in s.dls
    case RunIdler(i, _) =>
      && s.mgr.depth == 0
      && (i.Destroy? ==> i.d in s.dls)
      && (i.AddLater? && s.mgr.IsLive(i.conn, i.serial) ==> !s.mgr.live[i.conn].added)
    case _ => true
  }

  /** One step. */
  function Next(s: State, e: Event): State
    requires Enabled(s, e) && Safe(s, e)
  {
    match e
    case New(d, autodelete) =>
      s.(dls := s.dls[d := Downloader(None, false, autodelete, false)], used := s.used + {d})
    case StartDownload(d, p, ready, addOk) => DoStart(s, d, p, ready, addOk)
    case Cancel(d) => DoCancel(s, d)
    case Delete(d) => DoDelete(s, d)
    case BeginDispatch => s.(phase := Dispatch, mgr := s.mgr.(depth := s.mgr.depth + 1))
    case BeginWrite(p) =>
      s.(phase := Writing(p, s.mgr.live[p].serial), mgr := s.mgr.SetInCallback(p, true),
         signals := s.signals + multiset{s.mgr.live[p].owner.value})
    case EndWrite => s.(phase := Dispatch, mgr := s.mgr.SetInCallback(s.phase.conn, false))
    case SocketRefused(p) => s.(mgr := s.mgr.Drop(p))
    case EndDispatch => s.(phase := Collecting, mgr := s.mgr.(depth := s.mgr.depth - 1))
    case Done(p) => DisposeAndAnswer(s, p, Collecting)
    case EndCollect => s.(phase := Loop)
    case NextSignal =>
      if s.dls[s.phase.d].cancelled then s else s.(signals := s.signals + multiset{s.phase.d})
    case EndComplete =>
      (if s.dls[s.phase.d].autodelete then ScheduleDestroy(s, s.phase.d) else s).(phase := s.phase.resume)
    case RunIdler(i, addOk) => Idle(s, i, addOk)
  }

  /** In every state that keeps the invariant, whatever event comes, the code is safe. */
  lemma InvSafe(s: State, e: Event)
    requires Inv(s) && Enabled(s, e)
    ensures Safe(s, e)
  {
  }

  // ----- the manager keeps its part -----

  lemma CountedUpdate(live: map<Ptr, Conn>, n: nat, disposed: multiset<nat>, p: Ptr, c: Conn)
    requires Counted(live, n, disposed) && p in live && c.serial == live[p].serial
    ensures Counted(live[p := c], n, disposed)
  {
    forall k: nat | 0 < k <= n && disposed[k] == 0
      ensures HasSerial(live[p := c], k)
    {
      var q: Ptr :| q in live && live[q].serial == k;
      assert live[p := c][q].serial == k;
    }
  }

  lemma CountedDispose(live: map<Ptr, Conn>, n: nat, disposed: multiset<nat>, p: Ptr)
    requires Counted(live, n, disposed) && p in live
    ensures Counted(live - {p}, n, disposed + multiset{live[p].serial})
  {
    var more := disposed + multiset{live[p].serial};
    forall k: nat | 0 < k <= n && more[k] == 0
      ensures HasSerial(live - {p}, k)
    {
      assert disposed[k] == 0;
      var q: Ptr :| q in live && live[q].serial == k;
      assert q in live - {p} && (live - {p})[q].serial == k;
    }
  }

  lemma CountedStart(live: map<Ptr, Conn>, n: nat, disposed: multiset<nat>, p: Ptr, c: Conn)
    requires Counted(live, n, disposed) && p !in live && c.serial == n + 1
    ensures Counted(live[p := c], n + 1, disposed)
  {
    var started := live[p := c];
    assert started[p].serial == n + 1;
    forall k: nat | 0 < k <= n && disposed[k] == 0
      ensures HasSerial(started, k)
    {
      var q: Ptr :| q in live && live[q].serial == k;
      assert started[q].serial == k;
    }
  }

  lemma PendingSame(live: map<Ptr, Conn>, n: nat, idlers: multiset<Idler>, p: Ptr, c: Conn, more: multiset<Idler>)
    requires Pending(live, n, idlers)
    requires forall i <- more :: (i.Sweep? || i.DropSweep?) && i.serial <= n && i.conn == p
    requires PendingConn(c, p, idlers + more)
    ensures Pending(live[p := c], n, idlers + more)
  {
    forall q <- live | q != p
      ensures PendingConn(live[q], q, idlers + more)
    {
      assert PendingConn(live[q], q, idlers);
      assert AddLater(q, live[q].serial) !in more;
    }
  }

  lemma DisposeOk(m: Manager, p: Ptr)
    requires MgrOk(m) && p in m.live && m.depth == 0
    ensures MgrOk(m.Dispose(p))
  {
    CountedDispose(m.live, m.serialCounter, m.disposed, p);
  }

  /** Only what the manager holds for the connection matters to the ones that stay. */
  lemma AbortOk(m: Manager, p: Ptr)
    requires MgrOk(m)
    ensures MgrOk(m.Abort(p))
  {
    hide Counted;
    if p in m.live {
      var c := m.live[p].(owner := None, abortRequested := true);
      CountedUpdate(m.live, m.serialCounter, m.disposed, p, c);
      assert PendingConn(m.live[p], p, m.idlers);
      if m.depth > 0 || c.inCallback {
        assert c.serial <= m.serialCounter by { SerialBound(m.live, m.serialCounter, m.disposed, p); }
        PendingSame(m.live, m.serialCounter, m.idlers, p, c, multiset{Sweep(p, c.serial)});
      } else {
        CountedDispose(m.live[p := c], m.serialCounter, m.disposed, p);
      }
    }
  }

  lemma SerialBound(live: map<Ptr, Conn>, n: nat, disposed: multiset<nat>, p: Ptr)
    requires Counted(live, n, disposed) && p in live
    ensures live[p].serial <= n && disposed[live[p].serial] == 0
  {
  }

  lemma StartOk(m: Manager, p: Ptr, owner: Id, addOk: bool)
    requires MgrOk(m) && p !in m.live
    ensures MgrOk(m.Start(p, owner, addOk).0)
  {
    hide Counted, PendingConn;
    var n := m.serialCounter + 1;
    var c := Conn(n, Some(owner), false, false, false);
    CountedStart(m.live, m.serialCounter, m.disposed, p, c);
    var live := m.live[p := c];
    if m.depth > 0 {
      PendingStart(m.live, n, m.idlers, m.idlers + multiset{AddLater(p, n)}, p, c);
    } else if addOk {
      CountedUpdate(live, n, m.disposed, p, c.(added := true));
      PendingStart(m.live, n, m.idlers, m.idlers, p, c.(added := true));
      assert live[p := c.(added := true)] == m.live[p := c.(added := true)];
    } else {
      CountedDispose(live, n, m.disposed, p);
      assert live - {p} == m.live;
    }
  }

  lemma PendingStart(live: map<Ptr, Conn>, n: nat, idlers: multiset<Idler>, idlers': multiset<Idler>, p: Ptr, c: Conn)
    requires n > 0 && Pending(live, n - 1, idlers) && p !in live && c.serial == n && c.owner.Some? && !c.abortRequested
    requires idlers' == if c.added then idlers else idlers + multiset{AddLater(p, n)}
    ensures Pending(live[p := c], n, idlers')
  {
    assert AddLater(p, n) !in idlers;
    forall q <- live
      ensures PendingConn(live[q], q, idlers')
    {
      assert PendingConn(live[q], q, idlers);
    }
  }

  lemma DropOk(m: Manager, p: Ptr)
    requires MgrOk(m)
    ensures MgrOk(m.Drop(p))
  {
    hide Counted;
    if p in m.live {
      var c := m.live[p].(abortRequested := true);
      CountedUpdate(m.live, m.serialCounter, m.disposed, p, c);
      SerialBound(m.live, m.serialCounter, m.disposed, p);
      assert PendingConn(m.live[p], p, m.idlers);
      PendingSame(m.live, m.serialCounter, m.idlers, p, c, multiset{DropSweep(p, c.serial)});
    }
  }

  // ----- each part of the invariant on its own -----

  /** Two views of the downloaders agree on everything the part about deletions speaks of. */
  predicate SameFate(dls: map<Id, Downloader>, dls': map<Id, Downloader>) {
    dls'.Keys == dls.Keys
    && forall d <- dls :: dls'[d].autodelete == dls[d].autodelete && dls'[d].destroyScheduled == dls[d].destroyScheduled
  }

  /** Two views of the downloaders agree on who owns what. */
  predicate SameConns(dls: map<Id, Downloader>, dls': map<Id, Downloader>) {
    dls'.Keys == dls.Keys && forall d <- dls :: dls'[d].conn == dls[d].conn
  }

  ghost predicate SameDestroys(idlers: multiset<Idler>, idlers': multiset<Idler>) {
    forall d: Id :: idlers'[Destroy(d)] == idlers[Destroy(d)]
  }

  lemma FreedSame(idlers: multiset<Idler>, idlers': multiset<Idler>, dls: map<Id, Downloader>,
                  dls': map<Id, Downloader>, used: set<Id>, freed: multiset<Id>)
    requires FreedOnce(idlers, dls, used, freed) && SameDestroys(idlers, idlers') && SameFate(dls, dls')
    ensures FreedOnce(idlers', dls', used, freed)
  {
  }

  lemma FreedSchedule(idlers: multiset<Idler>, dls: map<Id, Downloader>, used: set<Id>, freed: multiset<Id>, d: Id)
    requires FreedOnce(idlers, dls, used, freed) && d in dls && dls[d].autodelete && !dls[d].destroyScheduled
    ensures FreedOnce(idlers + multiset{Destroy(d)}, dls[d := dls[d].(destroyScheduled := true)], used, freed)
  {
  }

  lemma FreedDelete(idlers: multiset<Idler>, idlers': multiset<Idler>, dls: map<Id, Downloader>, used: set<Id>,
                    freed: multiset<Id>, d: Id)
    requires FreedOnce(idlers, dls, used, freed) && d in dls
    requires idlers' == idlers - multiset{Destroy(d)}
    ensures FreedOnce(idlers', dls - {d}, used, freed + multiset{d})
  {
  }

  lemma LinkedSame(live: map<Ptr, Conn>, live': map<Ptr, Conn>, dls: map<Id, Downloader>, dls': map<Id, Downloader>)
    requires Linked(live, dls) && SameConns(dls, dls')
    requires live'.Keys == live.Keys && forall p <- live :: live'[p].owner == live[p].owner
    ensures Linked(live', dls')
  {
  }

  /** The connection of d is gone, or has nobody to answer to, and d knows. */
  lemma LinkedCut(live: map<Ptr, Conn>, live': map<Ptr, Conn>, dls: map<Id, Downloader>, p: Ptr, d: Id)
    requires Linked(live, dls) && d in dls && dls[d].conn == Some(p)
    requires live' - {p} == live - {p} && (p in live' ==> live'[p].owner == None)
    ensures Linked(live', dls[d := dls[d].(conn := None)])
  {
    forall q <- live' | live'[q].owner.Some?
      ensures q in live && q != p && live'[q] == live[q]
    {
      assert q in live' - {p};
      assert (live' - {p})[q] == live'[q] && (live - {p})[q] == live[q];
    }
    forall e <- dls | e != d && dls[e].conn.Some?
      ensures dls[e].conn.value in live' && live'[dls[e].conn.value].owner == Some(e)
    {
      var q := dls[e].conn.value;
      assert q in live - {p};
      assert (live' - {p})[q] == live'[q] && (live - {p})[q] == live[q];
    }
  }

  /** A connection without an owner is nobody's. */
  lemma LinkedDrop(live: map<Ptr, Conn>, dls: map<Id, Downloader>, p: Ptr)
    requires Linked(live, dls) && p in live && live[p].owner.None?
    ensures Linked(live - {p}, dls)
  {
  }

  lemma LinkedStart(live: map<Ptr, Conn>, dls: map<Id, Downloader>, p: Ptr, c: Conn, d: Id)
    requires Linked(live, dls) && p !in live && d in dls && dls[d].conn.None? && c.owner == Some(d)
    ensures Linked(live[p := c], dls[d := dls[d].(conn := Some(p))])
  {
  }

  lemma LinkedOwner(live: map<Ptr, Conn>, dls: map<Id, Downloader>, p: Ptr)
    requires Linked(live, dls) && p in live && live[p].owner.Some?
    ensures live[p].owner.value in dls && dls[live[p].owner.value].conn == Some(p)
  {
  }

  lemma LinkedConn(live: map<Ptr, Conn>, dls: map<Id, Downloader>, d: Id)
    requires Linked(live, dls) && d in dls && dls[d].conn.Some?
    ensures dls[d].conn.value in live && live[dls[d].conn.value].owner == Some(d)
  {
  }

  lemma LinkedForget(live: map<Ptr, Conn>, dls: map<Id, Downloader>, d: Id)
    requires Linked(live, dls) && d in dls && dls[d].conn.None?
    ensures Linked(live, dls - {d})
  {
  }

  /** The connections may change, all but the callback flags of those that stay and the one that is calling. */
  lemma StackedSame(depth: nat, live: map<Ptr, Conn>, live': map<Ptr, Conn>, phase: Phase, dls: map<Id, Downloader>,
                    dls': map<Id, Downloader>)
    requires Stacked(depth, live, phase, dls)
    requires phase.Completing? && phase.d in dls ==> phase.d in dls'
    requires forall p <- live' :: if p in live then live'[p].inCallback == live[p].inCallback
                                                    && live'[p].serial == live[p].serial
                                  else !live'[p].inCallback
    requires forall p <- live :: live[p].inCallback ==> p in live'
    ensures Stacked(depth, live', phase, dls')
  {
  }

  // ----- every step keeps the invariant -----

  lemma CloseHandlesOk(s: State, d: Id)
    requires Sound(s) && d in s.dls
    ensures var t := CloseHandles(s, d);
            && Sound(t) && t.dls == s.dls[d := s.dls[d].(conn := None)]
            && t.(mgr := s.mgr, dls := s.dls) == s
            && SameDestroys(s.mgr.idlers, t.mgr.idlers)
  {
    hide MgrOk, Linked, FreedOnce, Stacked;
    var t := CloseHandles(s, d);
    if s.dls[d].conn.Some? {
      var p := s.dls[d].conn.value;
      AbortOk(s.mgr, p);
      AbortKeeps(s.mgr, p);
      LinkedCut(s.mgr.live, t.mgr.live, s.dls, p, d);
      FreedSame(s.mgr.idlers, t.mgr.idlers, s.dls, t.dls, s.used, s.freed);
      AbortFlags(s.mgr, p);
      StackedSame(s.mgr.depth, s.mgr.live, t.mgr.live, s.phase, s.dls, t.dls);
    } else {
      assert s.dls[d := s.dls[d].(conn := None)] == s.dls;
    }
  }

  /** abortTransfer touches nothing but the one connection, and leaves it in place under its own callback. */
  lemma AbortKeeps(m: Manager, p: Ptr)
    ensures var t := m.Abort(p);
            && t.depth == m.depth
            && SameDestroys(m.idlers, t.idlers)
            && (forall k: nat :: t.disposed[k] >= m.disposed[k])
            && t.live - {p} == m.live - {p}
            && (p in t.live ==> t.live[p].owner == None)
  {
  }

  lemma AbortFlags(m: Manager, p: Ptr)
    ensures var live := m.Abort(p).live;
            && (forall q <- live :: q in m.live && live[q].inCallback == m.live[q].inCallback
                                    && live[q].serial == m.live[q].serial)
            && (forall q <- m.live :: m.live[q].inCallback ==> q in live)
  {
  }

  lemma ScheduleDestroyOk(s: State, d: Id)
    requires Sound(s) && d in s.dls && s.dls[d].autodelete
    ensures var t := ScheduleDestroy(s, d);
            && Sound(t) && t.(mgr := s.mgr, dls := s.dls) == s
            && t.dls == s.dls[d := s.dls[d].(destroyScheduled := true)]
  {
    hide Counted, Pending, Linked, FreedOnce, Stacked;
    if s.dls[d].destroyScheduled {
      assert s.dls[d := s.dls[d].(destroyScheduled := true)] == s.dls;
    } else {
      var t := ScheduleDestroy(s, d);
      PendingDestroy(s.mgr.live, s.mgr.serialCounter, s.mgr.idlers, d);
      LinkedSame(s.mgr.live, t.mgr.live, s.dls, t.dls);
      FreedSchedule(s.mgr.idlers, s.dls, s.used, s.freed, d);
      StackedSame(s.mgr.depth, s.mgr.live, t.mgr.live, s.phase, s.dls, t.dls);
    }
  }

  lemma PendingDestroy(live: map<Ptr, Conn>, n: nat, idlers: multiset<Idler>, d: Id)
    requires Pending(live, n, idlers)
    ensures Pending(live, n, idlers + multiset{Destroy(d)})
  {
    forall p <- live
      ensures PendingConn(live[p], p, idlers + multiset{Destroy(d)})
    {
      assert PendingConn(live[p], p, idlers);
    }
  }

  lemma CancelOk(s: State, d: Id)
    requires Inv(s) && d in s.dls
    ensures Inv(DoCancel(s, d))
  {
    hide MgrOk, Linked, FreedOnce, Stacked, AnsweredOnce, CloseHandles, ScheduleDestroy;
    if !s.dls[d].cancelled {
      var s0 := s.(dls := s.dls[d := s.dls[d].(cancelled := true)]);
      LinkedSame(s.mgr.live, s.mgr.live, s.dls, s0.dls);
      FreedSame(s.mgr.idlers, s.mgr.idlers, s.dls, s0.dls, s.used, s.freed);
      StackedSame(s.mgr.depth, s.mgr.live, s.mgr.live, s.phase, s.dls, s0.dls);
      CloseHandlesOk(s0, d);
      var s1 := CloseHandles(s0, d);
      if s1.dls[d].autodelete {
        ScheduleDestroyOk(s1, d);
      }
    }
  }

  /** The destructor, run by an idler that has just been taken off the list, or by the owner. */
  lemma DeleteOk(s: State, d: Id, idlers: multiset<Idler>)
    requires d in s.dls && !(s.phase.Completing? && s.phase.d == d)
    requires Inv(s.(mgr := s.mgr.(idlers := idlers))) && s.mgr.idlers == idlers - multiset{Destroy(d)}
    ensures Inv(DoDelete(s, d))
  {
    hide MgrOk, Linked, FreedOnce, Stacked, AnsweredOnce, CancelledIdle;
    CancelledUpdate(s.dls, d, s.dls[d].(conn := None));
    assert s.dls[d := s.dls[d].(conn := None)] - {d} == s.dls - {d};
    var u := s.(mgr := s.mgr.(idlers := idlers));
    var p := s.dls[d].conn;
    var u1 := CloseHandles(u, d);
    var s1 := CloseHandles(s, d);
    CloseHandlesOk(u, d);
    AbortLess(u.mgr, p, d);
    assert s1.mgr == u1.mgr.(idlers := u1.mgr.idlers - multiset{Destroy(d)});
    PendingLess(u1.mgr, d);
    LinkedForget(u1.mgr.live, u1.dls, d);
    FreedDelete(u1.mgr.idlers, s1.mgr.idlers, u1.dls, s.used, s.freed, d);
    StackedSame(s.mgr.depth, u1.mgr.live, u1.mgr.live, s.phase, u1.dls, u1.dls - {d});
  }

  /** Taking a deletion off the list commutes with abortTransfer. */
  lemma AbortLess(m: Manager, p: Option<Ptr>, d: Id)
    ensures p.Some? ==>
              var less := m.(idlers := m.idlers - multiset{Destroy(d)}).Abort(p.value);
              less == m.Abort(p.value).(idlers := m.Abort(p.value).idlers - multiset{Destroy(d)})
  {
    if p.Some? && p.value in m.live {
      var i := Sweep(p.value, m.live[p.value].serial);
      assert m.idlers - multiset{Destroy(d)} + multiset{i} == m.idlers + multiset{i} - multiset{Destroy(d)};
    }
  }

  lemma PendingLess(m: Manager, d: Id)
    requires MgrOk(m)
    ensures MgrOk(m.(idlers := m.idlers - multiset{Destroy(d)}))
  {
    hide Counted;
    forall p <- m.live
      ensures PendingConn(m.live[p], p, m.idlers - multiset{Destroy(d)})
    {
      assert PendingConn(m.live[p], p, m.idlers);
    }
  }

  /** startTransfer touches nothing but the new connection. */
  lemma StartKeeps(m: Manager, p: Ptr, owner: Id, addOk: bool) returns (c: Conn)
    requires p !in m.live
    ensures c.owner == Some(owner) && !c.inCallback
    ensures var (t, kept) := m.Start(p, owner, addOk);
            && t.depth == m.depth
            && SameDestroys(m.idlers, t.idlers)
            && t.live == (if kept then m.live[p := c] else m.live)
            && t.disposed == (if kept then m.disposed else m.disposed + multiset{m.serialCounter + 1})
  {
    c := Conn(m.serialCounter + 1, Some(owner), false, false, m.depth == 0);
    var c0 := c.(added := false);
    assert m.live[p := c0][p := c] == m.live[p := c];
    assert m.live[p := c0] - {p} == m.live;
  }

  lemma CancelledUpdate(dls: map<Id, Downloader>, d: Id, x: Downloader)
    requires CancelledIdle(dls) && (x.cancelled ==> x.conn.None?)
    ensures CancelledIdle(dls[d := x]) && CancelledIdle(dls - {d})
  {
  }

  lemma DoStartIs(s: State, d: Id, p: Ptr, ready: bool, addOk: bool, m: Manager, kept: bool)
    requires d in s.dls && p !in s.mgr.live && !s.dls[d].cancelled && s.dls[d].conn.None? && ready
    requires (m, kept) == s.mgr.Start(p, d, addOk)
    ensures DoStart(s, d, p, ready, addOk)
         == s.(mgr := m, dls := if kept then s.dls[d := s.dls[d].(conn := Some(p))] else s.dls)
  {
    hide Manager.Start;
  }

  lemma StartDownloadOk(s: State, d: Id, p: Ptr, ready: bool, addOk: bool)
    requires Inv(s) && d in s.dls && p !in s.mgr.live
    ensures Inv(DoStart(s, d, p, ready, addOk))
  {
    hide MgrOk, Linked, FreedOnce, Stacked, AnsweredOnce, CancelledIdle, Manager.Start;
    if !s.dls[d].cancelled && s.dls[d].conn.None? && ready {
      CancelledUpdate(s.dls, d, s.dls[d].(conn := Some(p)));
      StartOk(s.mgr, p, d, addOk);
      var c := StartKeeps(s.mgr, p, d, addOk);
      var (m, kept) := s.mgr.Start(p, d, addOk);
      var dls := if kept then s.dls[d := s.dls[d].(conn := Some(p))] else s.dls;
      FreedSame(s.mgr.idlers, m.idlers, s.dls, dls, s.used, s.freed);
      LinkedStart(s.mgr.live, s.dls, p, c, d);
      AnsweredMore(s.answered, s.mgr.disposed, s.mgr.serialCounter + 1);
      StackedSame(s.mgr.depth, s.mgr.live, m.live, s.phase, s.dls, dls);
      DoStartIs(s, d, p, ready, addOk, m, kept);
      hide DoStart;
    }
  }

  lemma AnsweredMore(answered: multiset<nat>, disposed: multiset<nat>, serial: nat)
    requires AnsweredOnce(answered, disposed)
    ensures AnsweredOnce(answered, disposed + multiset{serial})
    ensures AnsweredOnce(answered + multiset{serial}, disposed + multiset{serial})
  {
  }

  /** disposeConn, then transferDone for an owner that still lives. */
  lemma DisposeAndAnswerOk(s: State, p: Ptr, resume: Phase)
    requires Inv(s) && p in s.mgr.live && (s.phase.Loop? || s.phase.Collecting?) && resume == s.phase
    requires s.mgr.depth == 0
    ensures Inv(DisposeAndAnswer(s, p, resume))
  {
    hide MgrOk, Linked, FreedOnce, Stacked, AnsweredOnce;
    var c := s.mgr.live[p];
    var t := DisposeAndAnswer(s, p, resume);
    DisposeOk(s.mgr, p);
    AnsweredMore(s.answered, s.mgr.disposed, c.serial);
    NoCallback(s.mgr.depth, s.mgr.live, s.phase, s.dls);
    StackedSame(s.mgr.depth, s.mgr.live, s.mgr.live - {p}, s.phase, s.dls, t.dls);
    if c.owner.None? {
      LinkedDrop(s.mgr.live, s.dls, p);
    } else {
      var d := c.owner.value;
      LinkedOwner(s.mgr.live, s.dls, p);
      LinkedCut(s.mgr.live, s.mgr.live - {p}, s.dls, p, d);
      FreedSame(s.mgr.idlers, s.mgr.idlers, s.dls, t.dls, s.used, s.freed);
      StackedInto(s.mgr.depth, s.mgr.live - {p}, s.phase, t.dls, d);
    }
  }

  lemma NoCallback(depth: nat, live: map<Ptr, Conn>, phase: Phase, dls: map<Id, Downloader>)
    requires Stacked(depth, live, phase, dls) && !phase.Writing?
    ensures forall p <- live :: !live[p].inCallback
  {
  }

  lemma StackedInto(depth: nat, live: map<Ptr, Conn>, phase: Phase, dls: map<Id, Downloader>, d: Id)
    requires Stacked(depth, live, phase, dls) && (phase.Loop? || phase.Collecting?) && d in dls
    ensures Stacked(depth, live, Completing(d, phase), dls)
  {
  }

  /** Once the connection an idler speaks of is gone, or was added, the idler is no longer needed. */
  lemma PendingTaken(m: Manager, i: Idler)
    requires MgrOk(m) && i in m.idlers && !i.Destroy? && !m.IsLive(i.conn, i.serial)
    ensures MgrOk(m.(idlers := m.idlers - multiset{i}))
  {
    hide Counted;
    forall p <- m.live
      ensures PendingConn(m.live[p], p, m.idlers - multiset{i})
    {
      assert PendingConn(m.live[p], p, m.idlers);
    }
  }

  lemma AddOk(m: Manager, p: Ptr, serial: nat)
    requires MgrOk(m) && m.depth == 0 && m.IsLive(p, serial) && !m.live[p].added
    ensures MgrOk(m.(idlers := m.idlers - multiset{AddLater(p, serial)}).Add(p))
  {
    hide Counted;
    CountedUpdate(m.live, m.serialCounter, m.disposed, p, m.live[p].(added := true));
    forall q <- m.live
      ensures q != p ==> PendingConn(m.live[q], q, m.idlers - multiset{AddLater(p, serial)})
      ensures q == p ==> PendingConn(m.live[q].(added := true), q, m.idlers - multiset{AddLater(p, serial)})
    {
      assert PendingConn(m.live[q], q, m.idlers);
    }
  }

  lemma IdleOk(s: State, i: Idler, addOk: bool)
    requires Inv(s) && Enabled(s, RunIdler(i, addOk)) && Safe(s, RunIdler(i, addOk))
    ensures Inv(Idle(s, i, addOk))
  {
    hide MgrOk, Linked, FreedOnce, Stacked, AnsweredOnce, CancelledIdle, DoDelete, Answer, Manager.Add, Manager.Dispose;
    var s1 := s.(mgr := s.mgr.(idlers := s.mgr.idlers - multiset{i}));
    if i.Destroy? {
      DeleteOk(s1, i.d, s.mgr.idlers);
    } else {
      FreedSame(s.mgr.idlers, s1.mgr.idlers, s.dls, s.dls, s.used, s.freed) by {
        assert SameDestroys(s.mgr.idlers, s1.mgr.idlers);
      }
      if !s.mgr.IsLive(i.conn, i.serial) {
        PendingTaken(s.mgr, i);
      } else if i.AddLater? && addOk {
        AddOk(s.mgr, i.conn, i.serial);
        AddKeeps(s, s1, i.conn);
      } else {
        DisposeLater(s, i);
      }
    }
  }

  lemma AddKeeps(s: State, s1: State, p: Ptr)
    requires Sound(s) && s1 == s.(mgr := s1.mgr) && s1.mgr == s.mgr.(idlers := s1.mgr.idlers)
    requires p in s.mgr.live && s.mgr.depth == 0 && !s.mgr.live[p].added
    requires FreedOnce(s1.mgr.idlers, s.dls, s.used, s.freed) && MgrOk(s1.mgr.Add(p))
    ensures Sound(s1.(mgr := s1.mgr.Add(p)))
  {
    hide MgrOk, Linked, FreedOnce, Stacked, AnsweredOnce;
    LinkedSame(s.mgr.live, s1.mgr.Add(p).live, s.dls, s.dls);
    StackedSame(s.mgr.depth, s.mgr.live, s1.mgr.Add(p).live, s.phase, s.dls, s.dls);
  }

  lemma TakenOk(s: State, i: Idler)
    requires Inv(s) && i in s.mgr.idlers && !i.Destroy? && !s.mgr.IsLive(i.conn, i.serial)
    ensures Inv(s.(mgr := s.mgr.(idlers := s.mgr.idlers - multiset{i})))
  {
    hide MgrOk, Linked, FreedOnce, Stacked, AnsweredOnce;
    PendingTaken(s.mgr, i);
    FreedSame(s.mgr.idlers, s.mgr.idlers - multiset{i}, s.dls, s.dls, s.used, s.freed);
  }

  /** A sweep that finds its connection alive: the transfer ends as it would if the sweep stayed on the list,
      and nobody is left to answer when abortTransfer asked for it. */
  lemma DisposeLater(s: State, i: Idler)
    requires Inv(s) && s.phase.Loop? && s.mgr.depth == 0
    requires i in s.mgr.idlers && !i.Destroy? && s.mgr.IsLive(i.conn, i.serial)
    ensures var s1 := s.(mgr := s.mgr.(idlers := s.mgr.idlers - multiset{i}));
            && Inv(DisposeAndAnswer(s1, i.conn, s.phase))
            && (i.Sweep? ==> s1.(mgr := s1.mgr.Dispose(i.conn)) == DisposeAndAnswer(s1, i.conn, s.phase))
  {
    hide MgrOk, Linked, FreedOnce, Stacked, AnsweredOnce, CancelledIdle;
    DisposeAndAnswerOk(s, i.conn, s.phase);
    var t := DisposeAndAnswer(s, i.conn, s.phase);
    TakenOk(t, i);
    if i.Sweep? {
      SweepOwner(s.mgr, i.conn, i.serial);
    }
  }

  lemma SweepOwner(m: Manager, p: Ptr, serial: nat)
    requires MgrOk(m) && Sweep(p, serial) in m.idlers && m.IsLive(p, serial)
    ensures m.live[p].owner.None?
  {
    assert PendingConn(m.live[p], p, m.idlers);
  }

  lemma BeginWriteOk(s: State, p: Ptr)
    requires Inv(s) && Enabled(s, BeginWrite(p)) && Safe(s, BeginWrite(p))
    ensures Inv(Next(s, BeginWrite(p)))
  {
    hide Linked, FreedOnce, Counted, CancelledIdle, AnsweredOnce;
    FlagOk(s.mgr, p, true);
    LinkedSame(s.mgr.live, s.mgr.SetInCallback(p, true).live, s.dls, s.dls);
  }

  lemma CallbackOver(m: Manager, phase: Phase, dls: map<Id, Downloader>)
    requires Stacked(m.depth, m.live, phase, dls) && phase.Writing?
    ensures var m' := m.SetInCallback(phase.conn, false); Stacked(m'.depth, m'.live, Dispatch, dls)
  {
  }

  lemma EndWriteOk(s: State)
    requires Inv(s) && Enabled(s, EndWrite) && Safe(s, EndWrite)
    ensures Inv(Next(s, EndWrite))
  {
    hide Linked, FreedOnce, MgrOk, Stacked, CancelledIdle, AnsweredOnce, Manager.SetInCallback;
    CallbackOver(s.mgr, s.phase, s.dls);
    FlagOk(s.mgr, s.phase.conn, false);
    FlagLinked(s.mgr, s.phase.conn, false, s.dls);
  }

  lemma FlagLinked(m: Manager, p: Ptr, value: bool, dls: map<Id, Downloader>)
    requires p in m.live && Linked(m.live, dls)
    ensures var m' := m.SetInCallback(p, value);
            Linked(m'.live, dls) && m'.depth == m.depth && m'.idlers == m.idlers && m'.disposed == m.disposed
  {
    LinkedSame(m.live, m.SetInCallback(p, value).live, dls, dls);
    hide Linked;
  }

  lemma SerialsApart(live: map<Ptr, Conn>, n: nat, disposed: multiset<nat>)
    requires Counted(live, n, disposed)
    ensures forall p <- live, q <- live :: live[p].serial == live[q].serial ==> p == q
  {
  }

  lemma FlagOk(m: Manager, p: Ptr, value: bool)
    requires MgrOk(m) && p in m.live
    ensures MgrOk(m.SetInCallback(p, value))
  {
    hide Counted;
    var c := m.live[p].(inCallback := value);
    CountedUpdate(m.live, m.serialCounter, m.disposed, p, c);
    assert PendingConn(m.live[p], p, m.idlers);
    PendingSame(m.live, m.serialCounter, m.idlers, p, c, multiset{});
    assert m.idlers + multiset{} == m.idlers;
  }

  lemma SocketRefusedOk(s: State, p: Ptr)
    requires Inv(s) && p in s.mgr.live
    ensures Inv(s.(mgr := s.mgr.Drop(p)))
  {
    hide MgrOk, Linked, FreedOnce, Stacked, AnsweredOnce, CancelledIdle;
    var t := s.mgr.Drop(p);
    DropOk(s.mgr, p);
    LinkedSame(s.mgr.live, t.live, s.dls, s.dls);
    FreedSame(s.mgr.idlers, t.idlers, s.dls, s.dls, s.used, s.freed);
    StackedSame(s.mgr.depth, s.mgr.live, t.live, s.phase, s.dls, s.dls);
  }

  lemma EndCompleteOk(s: State)
    requires Inv(s) && s.phase.Completing? && s.phase.d in s.dls
    ensures Inv(Next(s, EndComplete))
  {
    hide MgrOk, Linked, FreedOnce, AnsweredOnce, CancelledIdle;
    if s.dls[s.phase.d].autodelete {
      hide ScheduleDestroy;
      ScheduleDestroyOk(s, s.phase.d);
      CancelledSame(s.dls, s.phase.d);
    }
  }

  lemma CancelledSame(dls: map<Id, Downloader>, d: Id)
    requires CancelledIdle(dls) && d in dls
    ensures CancelledIdle(dls[d := dls[d].(destroyScheduled := true)])
  {
  }

  lemma NewOk(s: State, d: Id, autodelete: bool)
    requires Inv(s) && Enabled(s, New(d, autodelete))
    ensures Inv(Next(s, New(d, autodelete)))
  {
    hide MgrOk, AnsweredOnce;
    var c := Downloader(None, false, autodelete, false);
    assert FreedOnce(s.mgr.idlers, s.dls[d := c], s.used + {d}, s.freed) by {
      hide Linked, Stacked;
      assert d !in s.dls;
    }
    assert d !in s.dls by {
      hide Linked, Stacked;
    }
    hide FreedOnce;
  }

  /** Whatever the user code, libcurl and the event loop do next, the invariant holds after it. */
  lemma InvNext(s: State, e: Event)
    requires Inv(s) && Enabled(s, e) && Safe(s, e)
    ensures Inv(Next(s, e))
  {
    match e {
      case New(d, autodelete) => NewOk(s, d, autodelete);
      case StartDownload(d, p, ready, addOk) => StartDownloadOk(s, d, p, ready, addOk);
      case Cancel(d) => CancelOk(s, d);
      case Delete(d) =>
        NeverScheduled(s, d);
        DeleteOk(s, d, s.mgr.idlers);
      case BeginWrite(p) => BeginWriteOk(s, p);
      case EndWrite => EndWriteOk(s);
      case SocketRefused(p) => SocketRefusedOk(s, p);
      case Done(p) => DisposeAndAnswerOk(s, p, Collecting);
      case EndComplete => EndCompleteOk(s);
      case RunIdler(i, addOk) => IdleOk(s, i, addOk);
      case _ => PhaseOk(s, e);
    }
  }

  lemma NeverScheduled(s: State, d: Id)
    requires Inv(s) && d in s.dls && !s.dls[d].autodelete
    ensures s.mgr.idlers - multiset{Destroy(d)} == s.mgr.idlers
  {
    assert s.mgr.idlers[Destroy(d)] == 0;
  }

  lemma PhaseOk(s: State, e: Event)
    requires Inv(s) && Enabled(s, e) && Safe(s, e)
    requires e.BeginDispatch? || e.EndDispatch? || e.EndCollect? || e.NextSignal?
    ensures Inv(Next(s, e))
  {
    hide Counted, Pending, Linked, FreedOnce, AnsweredOnce, CancelledIdle;
  }

  // ----- whole runs -----

  /** A run from an empty manager. An event the code is not safe for may lead anywhere. */
  ghost predicate Run(states: seq<State>, events: seq<Event>) {
    && |states| == |events| + 1
    && states[0] == INIT
    && forall i: nat | i < |events| :: StepAt(states, events, i)
  }

  ghost predicate StepAt(states: seq<State>, events: seq<Event>, i: nat)
    requires i < |events| && |states| == |events| + 1
  {
    Leads(states[i], events[i], states[i + 1])
  }

  ghost predicate Leads(s: State, e: Event, t: State) {
    Enabled(s, e) && (Safe(s, e) ==> t == Next(s, e))
  }

  lemma {:induction false} RunInv(states: seq<State>, events: seq<Event>, i: nat)
    requires Run(states, events) && i <= |events|
    ensures Inv(states[i])
    decreases i
  {
    if i > 0 {
      hide Inv, Enabled, Safe, Next;
      RunInv(states, events, i - 1);
      assert StepAt(states, events, i - 1);
      InvSafe(states[i - 1], events[i - 1]);
      InvNext(states[i - 1], events[i - 1]);
    } else {
      InitInv();
    }
  }

  lemma InitInv()
    ensures Inv(INIT)
  {
  }

  /** In every run, nothing is touched after its deletion, libcurl's multi functions are never called from
      inside libcurl, every connection is disposed of once at most, answers its owner once at most and only
      after its disposal, and every downloader is freed once at most. */
  lemma EveryRunIsSafe(states: seq<State>, events: seq<Event>, i: nat)
    requires Run(states, events) && i <= |events|
    ensures i < |events| ==> Enabled(states[i], events[i]) && Safe(states[i], events[i])
                             && states[i + 1] == Next(states[i], events[i])
    ensures forall k: nat :: states[i].answered[k] <= states[i].mgr.disposed[k] <= 1
    ensures forall d: Id :: states[i].freed[d] <= 1
  {
    RunInv(states, events, i);
    hide Enabled, Safe, Next, Pending, Linked, Stacked;
    if i < |events| {
      assert StepAt(states, events, i);
      InvSafe(states[i], events[i]);
    }
  }

  /** d asked out, or is no more. */
  predicate Silent(s: State, d: Id) { d in s.used && (d in s.dls ==> s.dls[d].cancelled) }

  /** cancel() concerns one downloader, and disposes of nothing but its own connection. */
  lemma CancelKeeps(s: State, d: Id)
    requires d in s.dls
    ensures var t := DoCancel(s, d);
            && d in t.dls && t.dls[d].cancelled && t == s.(mgr := t.mgr, dls := s.dls[d := t.dls[d]])
            && t.mgr.disposed == (if s.dls[d].cancelled then s else CloseHandles(s, d)).mgr.disposed
  {
    hide Manager.Abort;
    var was, now := s.dls, DoCancel(s, d).dls;
    assert now == was[d := now[d]];
  }

  /** cancel() depends on the manager and on the downloader alone, and changes nothing else. */
  lemma CancelIsLocal(s: State, t: State, d: Id)
    requires d in s.dls && d in t.dls && s.mgr == t.mgr && s.dls[d] == t.dls[d]
    ensures d in DoCancel(t, d).dls
    ensures DoCancel(s, d) == s.(mgr := DoCancel(t, d).mgr, dls := s.dls[d := DoCancel(t, d).dls[d]])
  {
    hide Manager.Abort;
    var was, now := s.dls, DoCancel(s, d).dls;
    assert now == was[d := now[d]];
  }

  lemma AnswerSilent(s: State, owner: Option<Id>, serial: nat, resume: Phase, d: Id)
    requires Silent(s, d)
    ensures Silent(Answer(s, owner, serial, resume), d) && Answer(s, owner, serial, resume).signals[d] == s.signals[d]
  {
  }

  lemma ScheduleSilent(s: State, e: Id, d: Id)
    requires Silent(s, d) && e in s.dls
    ensures Silent(ScheduleDestroy(s, e), d) && ScheduleDestroy(s, e).signals == s.signals
  {
  }

  lemma DeleteSilent(s: State, e: Id, d: Id)
    requires e in s.dls && (Silent(s, d) || d == e) && d in s.used
    ensures Silent(DoDelete(s, e), d) && DoDelete(s, e).signals == s.signals
  {
    hide Manager.Abort;
  }

  lemma SilentStep(s: State, e: Event, d: Id)
    requires Inv(s) && Enabled(s, e) && Safe(s, e) && Silent(s, d)
    ensures Silent(Next(s, e), d) && Next(s, e).signals[d] == s.signals[d]
  {
    hide MgrOk, Linked, FreedOnce, Stacked, AnsweredOnce, Manager.Abort, Manager.Start, Manager.Drop, Manager.Dispose,
      Manager.Add, DoCancel, DoDelete, ScheduleDestroy, Answer;
    match e {
      case Cancel(c) => CancelKeeps(s, c);
      case Delete(c) => DeleteSilent(s, c, d);
      case BeginWrite(p) => LinkedOwner(s.mgr.live, s.dls, p);
      case Done(p) =>
        AnswerSilent(s.(mgr := s.mgr.Dispose(p)), s.mgr.live[p].owner, s.mgr.live[p].serial, Collecting, d);
      case EndComplete =>
        if s.dls[s.phase.d].autodelete {
          ScheduleSilent(s, s.phase.d, d);
        }
      case RunIdler(i, addOk) => IdleSilent(s, i, addOk, d);
      case _ =>
    }
  }

  lemma IdleSilent(s: State, i: Idler, addOk: bool, d: Id)
    requires Enabled(s, RunIdler(i, addOk)) && Safe(s, RunIdler(i, addOk)) && Silent(s, d)
    ensures Silent(Idle(s, i, addOk), d) && Idle(s, i, addOk).signals[d] == s.signals[d]
  {
    hide Manager.Dispose, Manager.Add, DoDelete, Answer;
    var s1 := s.(mgr := s.mgr.(idlers := s.mgr.idlers - multiset{i}));
    if i.Destroy? {
      DeleteSilent(s1, i.d, d);
    } else if s.mgr.IsLive(i.conn, i.serial) {
      var c := s.mgr.live[i.conn];
      AnswerSilent(s1.(mgr := s1.mgr.Dispose(i.conn)), c.owner, c.serial, s.phase, d);
    }
  }

  /** After cancel(), or after the deletion of the object, no signal of it is ever emitted again. */
  lemma {:induction false} NoSignalAfterCancel(states: seq<State>, events: seq<Event>, i: nat, j: nat, d: Id)
    requires Run(states, events) && i <= j <= |events| && Silent(states[i], d)
    ensures Silent(states[j], d) && states[j].signals[d] == states[i].signals[d]
    decreases j
  {
    if i < j {
      hide Inv, Enabled, Safe, Next, Silent;
      NoSignalAfterCancel(states, events, i, j - 1, d);
      RunInv(states, events, j - 1);
      assert StepAt(states, events, j - 1);
      InvSafe(states[j - 1], events[j - 1]);
      SilentStep(states[j - 1], events[j - 1], d);
    }
  }

  lemma CancelSilences(s: State, d: Id)
    requires Inv(s) && Enabled(s, Cancel(d))
    ensures Silent(Next(s, Cancel(d)), d) && Next(s, Cancel(d)).signals == s.signals
  {
    hide MgrOk, Linked, Stacked, AnsweredOnce, DoCancel;
    CancelKeeps(s, d);
  }

  lemma DeleteSilences(s: State, d: Id)
    requires Inv(s) && Enabled(s, Delete(d))
    ensures Silent(Next(s, Delete(d)), d) && Next(s, Delete(d)).signals == s.signals
  {
    hide MgrOk, Linked, Stacked, AnsweredOnce, DoDelete;
    DeleteSilent(s, d, d);
  }

  /** A deferred closure acts on the connection it was made for and on no other, even when the address it
      kept now belongs to another connection; when its own connection is gone it does nothing at all. */
  lemma IdlerTouchesItsOwn(s: State, i: Idler, addOk: bool)
    requires Inv(s) && Enabled(s, RunIdler(i, addOk)) && Safe(s, RunIdler(i, addOk)) && !i.Destroy?
    ensures var t := Next(s, RunIdler(i, addOk));
            && (forall p <- s.mgr.live | s.mgr.live[p].serial != i.serial ::
                  p in t.mgr.live && t.mgr.live[p] == s.mgr.live[p])
            && (t.mgr.disposed == s.mgr.disposed || t.mgr.disposed == s.mgr.disposed + multiset{i.serial})
            && (t.answered == s.answered || t.answered == s.answered + multiset{i.serial})
            && (s.mgr.disposed[i.serial] > 0 ==> t == s.(mgr := s.mgr.(idlers := s.mgr.idlers - multiset{i})))
  {
    hide Counted, Pending, Linked, FreedOnce, Stacked, AnsweredOnce, CancelledIdle, Answer, DoDelete;
    if s.mgr.IsLive(i.conn, i.serial) {
      SerialBound(s.mgr.live, s.mgr.serialCounter, s.mgr.disposed, i.conn);
      var s1 := s.(mgr := s.mgr.(idlers := s.mgr.idlers - multiset{i}));
      var c := s.mgr.live[i.conn];
      AnswerKeeps(s1.(mgr := s1.mgr.Dispose(i.conn)), c.owner, c.serial, s.phase);
    }
  }

  lemma AnswerKeeps(s: State, owner: Option<Id>, serial: nat, resume: Phase)
    ensures var t := Answer(s, owner, serial, resume);
            t.mgr == s.mgr && (t.answered == s.answered || t.answered == s.answered + multiset{serial})
  {
  }

  lemma RefusedStart(s: State, d: Id, p: Ptr, ready: bool, addOk: bool)
    requires d in s.dls && p !in s.mgr.live
    ensures var t := DoStart(s, d, p, ready, addOk);
            t.dls[d].conn == s.dls[d].conn ==> t.dls == s.dls && t.mgr.live == s.mgr.live
  {
    var c := Conn(s.mgr.serialCounter + 1, Some(d), false, false, false);
    assert s.mgr.live[p := c] - {p} == s.mgr.live;
  }

  /** start() is refused exactly when the downloader was cancelled, has a transfer under way or is not ready, or
      libcurl does not take the handle now; inside libcurl the handle is added later, and there is an idler to do
      it. A refused start leaves the downloaders, and the connections libcurl has, as they were. */
  lemma StartedExactly(s: State, d: Id, p: Ptr, ready: bool, addOk: bool)
    requires Inv(s) && Enabled(s, StartDownload(d, p, ready, addOk))
    ensures var t := Next(s, StartDownload(d, p, ready, addOk));
            var n := s.mgr.serialCounter + 1;
            && (t.dls[d].conn == Some(p) && p in t.mgr.live && t.mgr.live[p].serial == n
                <==> !s.dls[d].cancelled && s.dls[d].conn == None && ready && (s.mgr.depth > 0 || addOk))
            && (t.dls[d].conn == s.dls[d].conn ==> t.dls == s.dls && t.mgr.live == s.mgr.live)
            && (t.mgr.live != s.mgr.live && s.mgr.depth > 0 ==> AddLater(p, n) in t.mgr.idlers && !t.mgr.live[p].added)
            && (t.mgr.live != s.mgr.live && s.mgr.depth == 0 ==> t.mgr.live[p].added)
  {
    hide Inv;
    NotItsOwn(s, d, p);
    RefusedStart(s, d, p, ready, addOk);
  }

  lemma NotItsOwn(s: State, d: Id, p: Ptr)
    requires Inv(s) && d in s.dls && p !in s.mgr.live
    ensures s.dls[d].conn != Some(p)
  {
    if s.dls[d].conn == Some(p) {
      LinkedConn(s.mgr.live, s.dls, d);
    }
    hide MgrOk, Linked, FreedOnce, Stacked, AnsweredOnce, CancelledIdle;
  }

  /** Another downloader's cancel() or destructor does not touch the connection at p. */
  lemma CloseTouches(s: State, o: Id, p: Ptr)
    requires Inv(s) && o in s.dls && p in s.mgr.live && s.mgr.live[p].owner.Some?
    ensures o != s.mgr.live[p].owner.value ==>
              CloseHandles(s, o).mgr.disposed[s.mgr.live[p].serial] == s.mgr.disposed[s.mgr.live[p].serial]
  {
    LinkedOwner(s.mgr.live, s.dls, p);
    SerialsApart(s.mgr.live, s.mgr.serialCounter, s.mgr.disposed);
    if s.dls[o].conn.Some? {
      LinkedConn(s.mgr.live, s.dls, o);
    }
    hide MgrOk, Linked, FreedOnce, Stacked, AnsweredOnce, CancelledIdle;
  }

  lemma CancelTouches(s: State, o: Id, p: Ptr)
    requires Inv(s) && o in s.dls && p in s.mgr.live && s.mgr.live[p].owner.Some? && o != s.mgr.live[p].owner.value
    ensures DoCancel(s, o).mgr.disposed[s.mgr.live[p].serial] == s.mgr.disposed[s.mgr.live[p].serial]
    ensures DoDelete(s, o).mgr.disposed[s.mgr.live[p].serial] == s.mgr.disposed[s.mgr.live[p].serial]
  {
    CloseTouches(s, o, p);
    CancelKeeps(s, o);
    hide Inv, Manager.Abort, DoCancel, ScheduleDestroy;
  }

  /** A listening owner is told. */
  lemma AnswerTells(s: State, p: Ptr, resume: Phase)
    requires Inv(s) && p in s.mgr.live && s.mgr.live[p].owner.Some? && s.mgr.depth == 0
    ensures var t := DisposeAndAnswer(s, p, resume);
            var d := s.mgr.live[p].owner.value;
            t.answered[s.mgr.live[p].serial] == 1 && t.signals[d] == s.signals[d] + 1
            && t.phase == Completing(d, resume)
  {
    LinkedOwner(s.mgr.live, s.dls, p);
    SerialBound(s.mgr.live, s.mgr.serialCounter, s.mgr.disposed, p);
    assert s.answered[s.mgr.live[p].serial] == 0;
    hide MgrOk, Linked, FreedOnce, Stacked, AnsweredOnce;
  }

  /** A connection that still has its owner is disposed of only together with telling that owner, or because
      the owner asked out or is itself being destroyed. */
  lemma OwnerIsTold(s: State, e: Event, p: Ptr)
    requires Inv(s) && Enabled(s, e) && Safe(s, e) && p in s.mgr.live && s.mgr.live[p].owner.Some?
    ensures var k := s.mgr.live[p].serial;
            var d := s.mgr.live[p].owner.value;
            var t := Next(s, e);
            t.mgr.disposed[k] > 0 ==>
              || (t.answered[k] == 1 && t.signals[d] == s.signals[d] + 1 && t.phase.Completing? && t.phase.d == d)
              || e == Cancel(d) || e == Delete(d) || (e.RunIdler? && e.idler == Destroy(d))
  {
    var c := s.mgr.live[p];
    SerialBound(s.mgr.live, s.mgr.serialCounter, s.mgr.disposed, p);
    SerialsApart(s.mgr.live, s.mgr.serialCounter, s.mgr.disposed);
    hide Inv, DoCancel, DoDelete, DisposeAndAnswer, Idle;
    match e {
      case Cancel(o) =>
        if o != c.owner.value {
          CancelTouches(s, o, p);
        }
      case Delete(o) =>
        if o != c.owner.value {
          CancelTouches(s, o, p);
        }
      case Done(q) =>
        if q == p {
          AnswerTells(s, p, Collecting);
        } else {
          OtherDisposed(s, q, Collecting, p);
        }
      case RunIdler(i, addOk) =>
        if !(i == Destroy(c.owner.value)) {
          IdlerTells(s, i, addOk, p);
        }
      case _ =>
        hide Enabled;
    }
  }

  lemma OtherDisposed(s: State, q: Ptr, resume: Phase, p: Ptr)
    requires Inv(s) && q in s.mgr.live && p in s.mgr.live && q != p && s.mgr.depth == 0
    ensures DisposeAndAnswer(s, q, resume).mgr.disposed[s.mgr.live[p].serial] == s.mgr.disposed[s.mgr.live[p].serial]
  {
    SerialsApart(s.mgr.live, s.mgr.serialCounter, s.mgr.disposed);
    var c := s.mgr.live[q];
    AnswerKeeps(s.(mgr := s.mgr.Dispose(q)), c.owner, c.serial, resume);
    hide Inv, Answer;
  }

  lemma IdlerTells(s: State, i: Idler, addOk: bool, p: Ptr)
    requires Inv(s) && Enabled(s, RunIdler(i, addOk)) && Safe(s, RunIdler(i, addOk))
    requires p in s.mgr.live && s.mgr.live[p].owner.Some? && i != Destroy(s.mgr.live[p].owner.value)
    ensures var k := s.mgr.live[p].serial;
            var d := s.mgr.live[p].owner.value;
            var t := Idle(s, i, addOk);
            t.mgr.disposed[k] > 0 ==>
              t.answered[k] == 1 && t.signals[d] == s.signals[d] + 1 && t.phase.Completing? && t.phase.d == d
  {
    SerialBound(s.mgr.live, s.mgr.serialCounter, s.mgr.disposed, p);
    var s1 := s.(mgr := s.mgr.(idlers := s.mgr.idlers - multiset{i}));
    if i.Destroy? {
      CancelTouches(s, i.d, p);
      LessDelete(s, i.d);
    } else if s.mgr.IsLive(i.conn, i.serial) {
      if i.conn == p {
        NotSwept(s.mgr, i, p);
        AnswerTells(s, p, s.phase);
      } else {
        OtherDisposed(s, i.conn, s.phase, p);
      }
      LessAnswer(s, s1, i.conn);
    }
    hide Inv, DoDelete, DisposeAndAnswer;
  }

  /** Only what has lost its owner is swept without an answer. */
  lemma NotSwept(m: Manager, i: Idler, p: Ptr)
    requires MgrOk(m) && i in m.idlers && p in m.live && m.live[p].owner.Some?
    ensures i != Sweep(p, m.live[p].serial)
  {
    hide MgrOk;
    if i == Sweep(p, m.live[p].serial) {
      SweepOwner(m, p, m.live[p].serial);
    }
  }

  lemma LessDelete(s: State, d: Id)
    requires d in s.dls
    ensures DoDelete(s.(mgr := s.mgr.(idlers := s.mgr.idlers - multiset{Destroy(d)})), d).mgr.disposed
         == DoDelete(s, d).mgr.disposed
  {
  }

  /** Whatever idlers are on the list, a disposal answers the same. */
  lemma LessAnswer(s: State, s1: State, p: Ptr)
    requires s1 == s.(mgr := s1.mgr) && s1.mgr == s.mgr.(idlers := s1.mgr.idlers) && p in s.mgr.live && s.mgr.depth == 0
    ensures var t, t1 := DisposeAndAnswer(s, p, s.phase), DisposeAndAnswer(s1, p, s.phase);
            t1.answered == t.answered && t1.signals == t.signals && t1.phase == t.phase
            && t1.mgr.disposed == t.mgr.disposed
    ensures s1.mgr.Dispose(p).disposed == s.mgr.disposed + multiset{s.mgr.live[p].serial}
  {
  }

  /** Nothing leaks: when the loop has run all it was given, every connection ever started has been disposed
      of, exactly once, or is in libcurl's hands with its owner waiting for it. */
  lemma NothingLeaks(s: State, k: nat) returns (p: Ptr)
    requires Inv(s) && s.mgr.idlers == multiset{} && 0 < k <= s.mgr.serialCounter
    ensures s.mgr.disposed[k] == 1
            || (p in s.mgr.live && s.mgr.live[p].serial == k && s.mgr.live[p].added && !s.mgr.live[p].abortRequested
                && s.mgr.live[p].owner.Some? && s.mgr.live[p].owner.value in s.dls
                && s.dls[s.mgr.live[p].owner.value].conn == Some(p))
  {
    hide FreedOnce, Stacked, AnsweredOnce, CancelledIdle;
    p := 0;
    if s.mgr.disposed[k] == 0 {
      assert HasSerial(s.mgr.live, k);
      p :| p in s.mgr.live && s.mgr.live[p].serial == k;
      assert PendingConn(s.mgr.live[p], p, s.mgr.idlers);
    }
  }

  /** ... and no object is scheduled for destruction any more. */
  lemma CancelledIsFreed(s: State, d: Id)
    requires Inv(s) && s.mgr.idlers == multiset{} && d in s.dls
    ensures !s.dls[d].destroyScheduled
  {
    hide MgrOk, Linked, Stacked, AnsweredOnce, CancelledIdle;
    assert s.mgr.idlers[Destroy(d)] == 0;
  }

  // ----- autodelete objects go -----

  ghost predicate AutoGoes(dls: map<Id, Downloader>) {
    forall d <- dls :: dls[d].cancelled && dls[d].autodelete ==> dls[d].destroyScheduled
  }

  /** d has gone, or is to go. */
  predicate Doomed(s: State, d: Id) { d in s.used && (d in s.dls ==> s.dls[d].destroyScheduled) }

  /** What may happen to one downloader in a step that is not its own creation, cancel() or completion. */
  predicate Continues(x: Downloader, y: Downloader) {
    y.autodelete == x.autodelete && (x.destroyScheduled ==> y.destroyScheduled)
    && (y.cancelled ==> x.cancelled || (x.autodelete ==> y.destroyScheduled))
  }

  ghost predicate AllContinue(s: State, t: State) {
    && s.used <= t.used
    && (forall d <- t.dls :: if d in s.dls then Continues(s.dls[d], t.dls[d])
                             else d !in s.used && !t.dls[d].cancelled)
  }

  lemma CancelContinues(s: State, d: Id)
    requires d in s.dls && AutoGoes(s.dls)
    ensures AllContinue(s, DoCancel(s, d))
    ensures s.dls[d].autodelete ==> DoCancel(s, d).dls[d].destroyScheduled
  {
    hide Manager.Abort;
  }

  lemma DeleteContinues(s: State, d: Id)
    requires d in s.dls
    ensures AllContinue(s, DoDelete(s, d)) && d !in DoDelete(s, d).dls
  {
    hide Manager.Abort;
  }

  lemma AnswerContinues(s: State, owner: Option<Id>, serial: nat, resume: Phase)
    ensures AllContinue(s, Answer(s, owner, serial, resume))
  {
  }

  lemma IdleContinues(s: State, i: Idler, addOk: bool)
    requires Enabled(s, RunIdler(i, addOk)) && Safe(s, RunIdler(i, addOk))
    ensures AllContinue(s, Idle(s, i, addOk))
  {
    hide Manager.Dispose, Manager.Add, DoDelete, Answer;
    var s1 := s.(mgr := s.mgr.(idlers := s.mgr.idlers - multiset{i}));
    if i.Destroy? {
      DeleteContinues(s1, i.d);
    } else if s.mgr.IsLive(i.conn, i.serial) {
      var c := s.mgr.live[i.conn];
      AnswerContinues(s1.(mgr := s1.mgr.Dispose(i.conn)), c.owner, c.serial, s.phase);
    }
  }

  lemma UserContinues(s: State, e: Event)
    requires s.dls.Keys <= s.used && Enabled(s, e) && Safe(s, e) && (e.New? || e.StartDownload? || e.EndComplete?)
    ensures AllContinue(s, Next(s, e))
  {
    hide Manager.Start;
  }

  lemma RestContinues(s: State, e: Event)
    requires Enabled(s, e) && Safe(s, e)
    requires !e.New? && !e.StartDownload? && !e.EndComplete? && !e.Cancel? && !e.Delete? && !e.Done? && !e.RunIdler?
    ensures Next(s, e).dls == s.dls && Next(s, e).used == s.used
  {
    hide Manager.Drop;
  }

  lemma Unchanged(s: State)
    ensures forall d <- s.dls :: Continues(s.dls[d], s.dls[d])
  {
  }

  lemma DoneIs(s: State, p: Ptr)
    requires Enabled(s, Done(p)) && Safe(s, Done(p))
    ensures var c := s.mgr.live[p];
            Next(s, Done(p)) == Answer(s.(mgr := s.mgr.Dispose(p)), c.owner, c.serial, Collecting)
  {
  }

  lemma AllStepsContinue(s: State, e: Event)
    requires Inv(s) && AutoGoes(s.dls) && Enabled(s, e) && Safe(s, e)
    ensures AllContinue(s, Next(s, e))
  {
    assert s.dls.Keys <= s.used;
    hide Inv, Manager.Dispose, DoCancel, DoDelete, Answer, Idle, Continues;
    match e {
      case Cancel(d) => CancelContinues(s, d); hide AllContinue;
      case Delete(d) => DeleteContinues(s, d); hide AllContinue;
      case Done(p) =>
        AnswerContinues(s.(mgr := s.mgr.Dispose(p)), s.mgr.live[p].owner, s.mgr.live[p].serial, Collecting);
        hide Next;
        DoneIs(s, p);
      case RunIdler(i, addOk) => IdleContinues(s, i, addOk); hide AllContinue;
      case New(_, _) => UserContinues(s, e); hide Next, AllContinue;
      case StartDownload(_, _, _, _) => UserContinues(s, e); hide Next, AllContinue;
      case EndComplete => UserContinues(s, e); hide Next, AllContinue;
      case _ =>
        RestContinues(s, e);
        hide Next;
        Unchanged(s);
    }
  }

  lemma ContinuesAuto(s: State, t: State)
    requires AutoGoes(s.dls) && AllContinue(s, t)
    ensures AutoGoes(t.dls)
  {
  }

  lemma StepContinues(s: State, e: Event)
    requires Inv(s) && AutoGoes(s.dls) && Enabled(s, e) && Safe(s, e)
    ensures AllContinue(s, Next(s, e)) && AutoGoes(Next(s, e).dls)
  {
    AllStepsContinue(s, e);
    hide Inv, Enabled, Safe, Next, AllContinue;
    ContinuesAuto(s, Next(s, e));
  }

  lemma {:induction false} RunAutoGoes(states: seq<State>, events: seq<Event>, i: nat)
    requires Run(states, events) && i <= |events|
    ensures AutoGoes(states[i].dls)
    decreases i
  {
    if i > 0 {
      hide Inv, Enabled, Safe, Next, AutoGoes;
      RunAutoGoes(states, events, i - 1);
      RunInv(states, events, i - 1);
      assert StepAt(states, events, i - 1);
      InvSafe(states[i - 1], events[i - 1]);
      StepContinues(states[i - 1], events[i - 1]);
    }
  }

  /** The object is cancelled, or the handlers of its completion have run. */
  predicate Ends(s: State, e: Event, d: Id) {
    e == Cancel(d) || (e.EndComplete? && s.phase.Completing? && s.phase.d == d)
  }

  lemma EndDooms(s: State, e: Event, d: Id)
    requires Inv(s) && AutoGoes(s.dls) && Enabled(s, e) && Safe(s, e) && Ends(s, e, d) && d in s.dls
    requires s.dls[d].autodelete
    ensures Doomed(Next(s, e), d)
  {
    if e.Cancel? {
      CancelContinues(s, d);
      CancelKeeps(s, d);
      hide DoCancel;
    }
    hide MgrOk, Linked, Stacked, AnsweredOnce, CancelledIdle;
  }

  lemma {:induction false} StaysDoomed(states: seq<State>, events: seq<Event>, i: nat, j: nat, d: Id)
    requires Run(states, events) && i <= j <= |events| && Doomed(states[i], d)
    ensures Doomed(states[j], d)
    decreases j
  {
    if i < j {
      hide Inv, Enabled, Safe, Next, AutoGoes;
      StaysDoomed(states, events, i, j - 1, d);
      RunInv(states, events, j - 1);
      RunAutoGoes(states, events, j - 1);
      assert StepAt(states, events, j - 1);
      InvSafe(states[j - 1], events[j - 1]);
      StepContinues(states[j - 1], events[j - 1]);
    }
  }

  /** In every run an autodelete object that was cancelled, or whose completion has ended, has been freed, once, or
      its deletion is on the list of the loop, once; with nothing on the list it has been freed. */
  lemma AutodeleteIsFreed(states: seq<State>, events: seq<Event>, k: nat, i: nat, d: Id)
    requires Run(states, events) && k < i <= |events|
    requires d in states[k].dls && states[k].dls[d].autodelete && Ends(states[k], events[k], d)
    ensures if states[i].mgr.idlers[Destroy(d)] == 0 then d !in states[i].dls && states[i].freed[d] == 1
            else d in states[i].dls && states[i].freed[d] == 0 && states[i].mgr.idlers[Destroy(d)] == 1
    ensures states[i].mgr.idlers == multiset{} ==> d !in states[i].dls && states[i].freed[d] == 1
  {
    hide Enabled, Safe, Next, AutoGoes, Ends, Doomed, MgrOk, Linked, Stacked, AnsweredOnce, CancelledIdle;
    RunInv(states, events, k);
    RunAutoGoes(states, events, k);
    assert StepAt(states, events, k);
    InvSafe(states[k], events[k]);
    EndDooms(states[k], events[k], d);
    StaysDoomed(states, events, k + 1, i, d);
    RunInv(states, events, i);
    DoomedIs(states[i], d);
  }

  lemma DoomedIs(s: State, d: Id)
    requires Inv(s) && Doomed(s, d)
    ensures if s.mgr.idlers[Destroy(d)] == 0 then d !in s.dls && s.freed[d] == 1
            else d in s.dls && s.freed[d] == 0 && s.mgr.idlers[Destroy(d)] == 1
  {
    hide MgrOk, Linked, Stacked, AnsweredOnce, CancelledIdle;
  }

  // ----- a connection that must go goes -----

  /** No live connection of that serial but one that is to be aborted. */
  predicate Condemned(m: Manager, n: nat) {
    n <= m.serialCounter && forall p <- m.live :: m.live[p].serial == n ==> m.live[p].abortRequested
  }

  ghost predicate KeepsAborts(m: Manager, m': Manager) {
    && m.serialCounter <= m'.serialCounter
    && (forall p <- m'.live :: m'.live[p].serial > m.serialCounter
          || (p in m.live && m.live[p].serial == m'.live[p].serial
              && (m.live[p].abortRequested ==> m'.live[p].abortRequested)))
  }

  lemma AbortKeepsAborts(m: Manager, p: Ptr)
    ensures KeepsAborts(m, m.Abort(p))
  {
  }

  lemma CancelKeepsAborts(s: State, d: Id)
    requires d in s.dls
    ensures KeepsAborts(s.mgr, DoCancel(s, d).mgr) && KeepsAborts(s.mgr, DoDelete(s, d).mgr)
  {
    if s.dls[d].conn.Some? {
      AbortKeepsAborts(s.mgr, s.dls[d].conn.value);
    }
    hide Manager.Abort;
  }

  lemma AnswerKeepsManager(s: State, owner: Option<Id>, serial: nat, resume: Phase)
    ensures Answer(s, owner, serial, resume).mgr == s.mgr
  {
  }

  lemma IdleKeepsAborts(s: State, i: Idler, addOk: bool)
    requires Enabled(s, RunIdler(i, addOk)) && Safe(s, RunIdler(i, addOk))
    ensures KeepsAborts(s.mgr, Idle(s, i, addOk).mgr)
  {
    hide Manager.Abort, DoDelete, Answer;
    var s1 := s.(mgr := s.mgr.(idlers := s.mgr.idlers - multiset{i}));
    if i.Destroy? {
      CancelKeepsAborts(s1, i.d);
    } else if s.mgr.IsLive(i.conn, i.serial) {
      AnswerKeepsManager(s1.(mgr := s1.mgr.Dispose(i.conn)), s.mgr.live[i.conn].owner, s.mgr.live[i.conn].serial,
                         s.phase);
    }
  }

  lemma StartKeepsAborts(m: Manager, p: Ptr, owner: Id, addOk: bool)
    requires p !in m.live
    ensures KeepsAborts(m, m.Start(p, owner, addOk).0)
  {
  }

  lemma SameKeepsAborts(m: Manager, m': Manager)
    requires m'.serialCounter == m.serialCounter && m'.live == m.live
    ensures KeepsAborts(m, m')
  {
  }

  lemma FlagsKeepAborts(m: Manager, p: Ptr, value: bool)
    ensures KeepsAborts(m, m.Drop(p)) && (p in m.live ==> KeepsAborts(m, m.SetInCallback(p, value)))
  {
  }

  lemma DoneKeepsAborts(s: State, p: Ptr)
    requires Enabled(s, Done(p)) && Safe(s, Done(p))
    ensures KeepsAborts(s.mgr, Next(s, Done(p)).mgr)
  {
    DoneIs(s, p);
    AnswerKeepsManager(s.(mgr := s.mgr.Dispose(p)), s.mgr.live[p].owner, s.mgr.live[p].serial, Collecting);
    hide Next, Answer;
  }

  lemma StepKeepsAborts(s: State, e: Event)
    requires Enabled(s, e) && Safe(s, e)
    ensures KeepsAborts(s.mgr, Next(s, e).mgr)
  {
    hide DoCancel, DoDelete, Idle, Manager.Start, Manager.Drop, Manager.SetInCallback, DisposeAndAnswer, KeepsAborts;
    match e {
      case StartDownload(d, p, _, addOk) =>
        StartKeepsAborts(s.mgr, p, d, addOk);
        SameKeepsAborts(s.mgr, s.mgr);
      case Cancel(d) => CancelKeepsAborts(s, d);
      case Delete(d) => CancelKeepsAborts(s, d);
      case BeginWrite(p) => FlagsKeepAborts(s.mgr, p, true);
      case EndWrite => FlagsKeepAborts(s.mgr, s.phase.conn, false);
      case SocketRefused(p) => FlagsKeepAborts(s.mgr, p, true);
      case Done(p) => DoneKeepsAborts(s, p);
      case RunIdler(i, addOk) => IdleKeepsAborts(s, i, addOk);
      case _ => SameKeepsAborts(s.mgr, Next(s, e).mgr);
    }
  }

  lemma {:induction false} StaysCondemned(states: seq<State>, events: seq<Event>, i: nat, j: nat, n: nat)
    requires Run(states, events) && i <= j <= |events| && Condemned(states[i].mgr, n)
    ensures Condemned(states[j].mgr, n)
    decreases j
  {
    if i < j {
      hide Inv, Enabled, Safe, Next;
      StaysCondemned(states, events, i, j - 1, n);
      RunInv(states, events, j - 1);
      assert StepAt(states, events, j - 1);
      InvSafe(states[j - 1], events[j - 1]);
      StepKeepsAborts(states[j - 1], events[j - 1]);
    }
  }

  /** In every run a connection whose socket was refused is disposed of, once, by the time the list of the loop is
      empty. */
  lemma RefusedIsDisposed(states: seq<State>, events: seq<Event>, k: nat, i: nat, p: Ptr)
    requires Run(states, events) && k < i <= |events| && events[k] == SocketRefused(p) && p in states[k].mgr.live
    requires states[i].mgr.idlers == multiset{}
    ensures states[i].mgr.disposed[states[k].mgr.live[p].serial] == 1
  {
    var n := states[k].mgr.live[p].serial;
    RunInv(states, events, k);
    assert StepAt(states, events, k);
    DropCondemns(states[k], p);
    hide Enabled, Safe, Next, Condemned;
    InvSafe(states[k], events[k]);
    StaysCondemned(states, events, k + 1, i, n);
    RunInv(states, events, i);
    hide Run, Inv;
    CondemnedIsDisposed(states[i], n);
  }

  lemma DropCondemns(s: State, p: Ptr)
    requires Inv(s) && p in s.mgr.live
    ensures Condemned(s.mgr.Drop(p), s.mgr.live[p].serial) && s.mgr.live[p].serial > 0
  {
    hide Pending, Linked, FreedOnce, Stacked, AnsweredOnce, CancelledIdle;
  }

  lemma CondemnedIsDisposed(s: State, n: nat)
    requires Inv(s) && s.mgr.idlers == multiset{} && 0 < n && Condemned(s.mgr, n)
    ensures s.mgr.disposed[n] == 1
  {
    hide Inv;
    var p := NothingLeaks(s, n);
  }

  // ----- a run told by its events -----

  /** The connection whose end the event brings to its owner, if it still has one. */
  function Ended(s: State, e: Event): Option<Conn> {
    match e
    case Done(p) => if p in s.mgr.live then Some(s.mgr.live[p]) else None
    case RunIdler(DropSweep(p, k), _) => if s.mgr.IsLive(p, k) then Some(s.mgr.live[p]) else None
    case RunIdler(AddLater(p, k), addOk) => if s.mgr.IsLive(p, k) && !addOk then Some(s.mgr.live[p]) else None
    case _ => None
  }

  predicate Completes(s: State, e: Event, d: Id) { Ended(s, e).Some? && Ended(s, e).value.owner == Some(d) }

  lemma OwnerListens(s: State, p: Ptr, d: Id)
    requires Inv(s) && p in s.mgr.live && s.mgr.live[p].owner == Some(d)
    ensures d in s.dls && !s.dls[d].cancelled
  {
    LinkedOwner(s.mgr.live, s.dls, p);
    hide MgrOk, FreedOnce, Stacked, AnsweredOnce;
  }

  lemma AnswerIs(s: State, owner: Option<Id>, serial: nat, resume: Phase)
    requires owner.Some? ==> owner.value in s.dls && !s.dls[owner.value].cancelled
    ensures var t := Answer(s, owner, serial, resume);
            && t.used == s.used && t.freed == s.freed && t.dls.Keys == s.dls.Keys
            && t.signals == s.signals + (if owner.Some? then multiset{owner.value} else multiset{})
            && t.phase == (if owner.Some? then Completing(owner.value, resume) else resume)
  {
  }

  /** What matters here of a step that ends a connection, or of an idler. */
  ghost predicate EndsAs(s: State, e: Event, t: State, resume: Phase) {
    var c := Ended(s, e);
    && t.signals == s.signals + (if c.Some? && c.value.owner.Some? then multiset{c.value.owner.value} else multiset{})
    && t.phase == (if c.Some? && c.value.owner.Some? then Completing(c.value.owner.value, resume) else resume)
  }

  lemma DoneAs(s: State, p: Ptr)
    requires Inv(s) && Enabled(s, Done(p)) && Safe(s, Done(p))
    ensures EndsAs(s, Done(p), Next(s, Done(p)), Collecting)
  {
    var c := s.mgr.live[p];
    if c.owner.Some? {
      OwnerListens(s, p, c.owner.value);
    }
    AnswerIs(s.(mgr := s.mgr.Dispose(p)), c.owner, c.serial, Collecting);
    DoneIs(s, p);
    hide Inv, Next, Answer;
  }

  lemma IdlerAs(s: State, i: Idler, addOk: bool)
    requires Inv(s) && Enabled(s, RunIdler(i, addOk)) && Safe(s, RunIdler(i, addOk))
    ensures EndsAs(s, RunIdler(i, addOk), Idle(s, i, addOk), s.phase)
  {
    if i.Destroy? {
      DeleteQuiet(s.(mgr := s.mgr.(idlers := s.mgr.idlers - multiset{i})), i.d);
    } else if s.mgr.IsLive(i.conn, i.serial) {
      EndedIdlerAs(s, i, addOk);
    }
    hide Inv, DoDelete, DisposeAndAnswer;
  }

  lemma EndedIdlerAs(s: State, i: Idler, addOk: bool)
    requires Inv(s) && !i.Destroy? && s.mgr.IsLive(i.conn, i.serial)
    requires Enabled(s, RunIdler(i, addOk)) && Safe(s, RunIdler(i, addOk))
    ensures EndsAs(s, RunIdler(i, addOk), Idle(s, i, addOk), s.phase)
  {
    hide Inv, DisposeAndAnswer;
    var s1 := s.(mgr := s.mgr.(idlers := s.mgr.idlers - multiset{i}));
    if i.DropSweep? || (i.AddLater? && !addOk) {
      DisposedAs(s, s1, i.conn);
    }
  }

  /** Whatever else the state holds. */
  lemma DisposedAs(s: State, s1: State, p: Ptr)
    requires Inv(s) && p in s.mgr.live && s.mgr.depth == 0
    requires s1.mgr.live == s.mgr.live && s1.mgr.depth == 0 && s1.dls == s.dls
    ensures var owner := s.mgr.live[p].owner;
            var t := DisposeAndAnswer(s1, p, s.phase);
            && t.signals == s1.signals + (if owner.Some? then multiset{owner.value} else multiset{})
            && t.phase == (if owner.Some? then Completing(owner.value, s.phase) else s.phase)
  {
    hide Inv, Answer;
    var c := s.mgr.live[p];
    if c.owner.Some? {
      OwnerListens(s, p, c.owner.value);
    }
    AnswerIs(s1.(mgr := s1.mgr.Dispose(p)), c.owner, c.serial, s.phase);
  }

  lemma DeleteQuiet(s: State, d: Id)
    requires d in s.dls
    ensures var t := DoDelete(s, d);
            && t.signals == s.signals && t.phase == s.phase && t.used == s.used
            && t.dls.Keys == s.dls.Keys - {d} && t.freed == s.freed + multiset{d}
  {
    hide Manager.Abort;
  }

  lemma UserQuiet(s: State, e: Event)
    requires Enabled(s, e) && Safe(s, e) && (e.New? || e.StartDownload? || e.Cancel? || e.Delete? || e.SocketRefused?)
    ensures Next(s, e).signals == s.signals && Next(s, e).phase == s.phase
  {
    hide Manager.Abort, Manager.Start, Manager.Drop;
    if e.Delete? {
      DeleteQuiet(s, e.d);
    }
  }

  /** The event makes d emit a signal: data has come, the transfer is over, or its handlers are still running. */
  predicate Emits(s: State, e: Event, d: Id) {
    match e
    case BeginWrite(p) => p in s.mgr.live && s.mgr.live[p].owner == Some(d)
    case NextSignal => s.phase.Completing? && s.phase.d == d && d in s.dls && !s.dls[d].cancelled
    case _ => Completes(s, e, d)
  }

  lemma SignalsNext(s: State, e: Event, d: Id)
    requires Inv(s) && Enabled(s, e) && Safe(s, e)
    ensures Next(s, e).signals[d] == s.signals[d] + if Emits(s, e, d) then 1 else 0
  {
    match e {
      case New(_, _) => UserQuiet(s, e);
      case StartDownload(_, _, _, _) => UserQuiet(s, e);
      case Cancel(_) => UserQuiet(s, e);
      case Delete(_) => UserQuiet(s, e);
      case SocketRefused(_) => UserQuiet(s, e);
      case Done(p) => DoneAs(s, p);
      case RunIdler(i, addOk) => IdlerAs(s, i, addOk);
      case _ =>
    }
    hide Inv, DoStart, DoCancel, DoDelete, DisposeAndAnswer, Idle;
  }

  function Emissions(states: seq<State>, events: seq<Event>, d: Id, n: nat): nat
    requires n <= |events| < |states|
  {
    if n == 0 then 0
    else Emissions(states, events, d, n - 1) + if Emits(states[n - 1], events[n - 1], d) then 1 else 0
  }

  /** In every run the signals a downloader emits are those: for each chunk of data that comes for it, for each end of
      a transfer it waits for, and for the further signals of its completion; never another one. */
  lemma {:induction false} SignalsAreCounted(states: seq<State>, events: seq<Event>, d: Id, n: nat)
    requires Run(states, events) && n <= |events|
    ensures states[n].signals[d] == Emissions(states, events, d, n)
    decreases n
  {
    hide Inv, Enabled, Safe, Next, Emits;
    if n > 0 {
      SignalsAreCounted(states, events, d, n - 1);
      StepIs(states, events, n - 1);
      SignalsNext(states[n - 1], events[n - 1], d);
    }
  }

  lemma StepIs(states: seq<State>, events: seq<Event>, n: nat)
    requires Run(states, events) && n < |events|
    ensures Inv(states[n]) && Enabled(states[n], events[n]) && Safe(states[n], events[n])
    ensures states[n + 1] == Next(states[n], events[n])
  {
    hide Inv, Enabled, Safe, Next;
    RunInv(states, events, n);
    assert StepAt(states, events, n);
    InvSafe(states[n], events[n]);
  }

  /** How deep the thread is in each of the calls that may be under way: curl_multi_socket_action, a body callback,
      checkMultiInfo, and the handlers of a completion. */
  datatype Tally = Tally(dispatches: int, writes: int, collects: int, completions: int)

  function One(b: bool): int { if b then 1 else 0 }

  function After(t: Tally, s: State, e: Event): Tally {
    var over := Ended(s, e).Some? && Ended(s, e).value.owner.Some?;
    Tally(t.dispatches + One(e.BeginDispatch?) - One(e.EndDispatch?),
          t.writes + One(e.BeginWrite?) - One(e.EndWrite?),
          t.collects + One(e.EndDispatch?) - One(e.EndCollect?),
          t.completions + One(over) - One(e.EndComplete?))
  }

  function TallyOf(states: seq<State>, events: seq<Event>, n: nat): Tally
    requires n <= |events| < |states|
  {
    if n == 0 then Tally(0, 0, 0, 0) else After(TallyOf(states, events, n - 1), states[n - 1], events[n - 1])
  }

  predicate Fits(t: Tally, s: State) {
    && t.dispatches == s.mgr.depth == One(s.phase.Dispatch? || s.phase.Writing?)
    && t.writes == One(s.phase.Writing?)
    && t.collects == One(s.phase.Collecting? || (s.phase.Completing? && s.phase.resume.Collecting?))
    && t.completions == One(s.phase.Completing?)
  }

  lemma DepthNext(s: State, e: Event)
    requires Inv(s) && Enabled(s, e) && Safe(s, e)
    ensures Next(s, e).mgr.depth == s.mgr.depth + One(e.BeginDispatch?) - One(e.EndDispatch?)
  {
    hide Inv, Manager.Start, DoCancel, DoDelete, DisposeAndAnswer, Idle;
    match e {
      case StartDownload(d, p, ready, addOk) => StartDepth(s.mgr, p, d, addOk);
      case Cancel(d) => CancelDepth(s, d);
      case Delete(d) => CancelDepth(s, d);
      case Done(p) => DepthOfAnswer(s, p, Collecting);
      case RunIdler(i, addOk) => IdleDepth(s, i, addOk);
      case _ =>
    }
  }

  lemma StartDepth(m: Manager, p: Ptr, owner: Id, addOk: bool)
    requires p !in m.live
    ensures m.Start(p, owner, addOk).0.depth == m.depth
  {
  }

  lemma CancelDepth(s: State, d: Id)
    requires d in s.dls
    ensures DoCancel(s, d).mgr.depth == s.mgr.depth && DoDelete(s, d).mgr.depth == s.mgr.depth
  {
  }

  lemma DepthOfAnswer(s: State, p: Ptr, resume: Phase)
    requires p in s.mgr.live && s.mgr.depth == 0
    ensures DisposeAndAnswer(s, p, resume).mgr.depth == s.mgr.depth
  {
  }

  lemma IdleDepth(s: State, i: Idler, addOk: bool)
    requires Enabled(s, RunIdler(i, addOk)) && Safe(s, RunIdler(i, addOk))
    ensures Idle(s, i, addOk).mgr.depth == s.mgr.depth
  {
    hide DoDelete, DisposeAndAnswer;
    var s1 := s.(mgr := s.mgr.(idlers := s.mgr.idlers - multiset{i}));
    if i.Destroy? {
      CancelDepth(s1, i.d);
    } else if s.mgr.IsLive(i.conn, i.serial) {
      DepthOfAnswer(s1, i.conn, s.phase);
    }
  }

  /** Where the thread is after an event. */
  function PhaseAfter(s: State, e: Event): Phase {
    match e
    case BeginDispatch => Dispatch
    case BeginWrite(p) => if p in s.mgr.live then Writing(p, s.mgr.live[p].serial) else s.phase
    case EndWrite => Dispatch
    case EndDispatch => Collecting
    case EndCollect => Loop
    case EndComplete => if s.phase.Completing? then s.phase.resume else s.phase
    case _ =>
      if Ended(s, e).Some? && Ended(s, e).value.owner.Some? then Completing(Ended(s, e).value.owner.value, s.phase)
      else s.phase
  }

  lemma PhaseNext(s: State, e: Event)
    requires Inv(s) && Enabled(s, e) && Safe(s, e)
    ensures Next(s, e).phase == PhaseAfter(s, e)
  {
    hide Inv, DoStart, DoCancel, DoDelete, DisposeAndAnswer, Idle;
    match e {
      case New(_, _) => UserQuiet(s, e);
      case StartDownload(_, _, _, _) => UserQuiet(s, e);
      case Cancel(_) => UserQuiet(s, e);
      case Delete(_) => UserQuiet(s, e);
      case SocketRefused(_) => UserQuiet(s, e);
      case Done(p) => DoneAs(s, p);
      case RunIdler(i, addOk) => IdlerAs(s, i, addOk);
      case _ =>
    }
  }

  lemma ResumeIs(s: State)
    requires Inv(s) && s.phase.Completing?
    ensures s.phase.resume.Loop? || s.phase.resume.Collecting?
  {
    hide MgrOk, Linked, FreedOnce, AnsweredOnce, CancelledIdle;
  }

  lemma FitsNext(t: Tally, s: State, e: Event)
    requires Inv(s) && Enabled(s, e) && Safe(s, e) && Fits(t, s)
    ensures Fits(After(t, s, e), Next(s, e))
  {
    hide Inv, Safe, Next, Ended;
    DepthNext(s, e);
    PhaseNext(s, e);
    if s.phase.Completing? {
      ResumeIs(s);
    }
    NoneEnded(s, e);
    match e {
      case BeginDispatch =>
      case BeginWrite(_) =>
      case EndWrite =>
      case EndDispatch =>
      case EndCollect =>
      case EndComplete =>
      case Done(_) =>
      case RunIdler(_, _) =>
      case _ =>
    }
  }

  lemma NoneEnded(s: State, e: Event)
    ensures !e.Done? && !e.RunIdler? ==> Ended(s, e).None?
  {
  }

  /** In every run dispatchDepth is the number of calls of curl_multi_socket_action that have begun and not ended, user
      code runs inside a body callback or a completion exactly while one has begun and not ended, and calls end in the
      reverse order of their beginnings. */
  lemma {:induction false} CallsAreNested(states: seq<State>, events: seq<Event>, n: nat)
    requires Run(states, events) && n <= |events|
    ensures Fits(TallyOf(states, events, n), states[n])
    decreases n
  {
    hide Inv, Enabled, Safe, Next, After, Fits;
    if n == 0 {
      FitsAtFirst();
    } else {
      CallsAreNested(states, events, n - 1);
      StepIs(states, events, n - 1);
      FitsNext(TallyOf(states, events, n - 1), states[n - 1], events[n - 1]);
    }
  }

  lemma FitsAtFirst()
    ensures Fits(Tally(0, 0, 0, 0), INIT)
  {
  }

  /** Some event of the first n is one of these. */
  ghost predicate Made(events: seq<Event>, n: nat, d: Id)
    requires n <= |events|
  {
    exists k: nat :: k < n && events[k].New? && events[k].d == d
  }

  ghost predicate Deleted(events: seq<Event>, n: nat, d: Id)
    requires n <= |events|
  {
    exists k: nat :: k < n && Deletes(events[k], d)
  }

  predicate Deletes(e: Event, d: Id) { e == Delete(d) || (e.RunIdler? && e.idler == Destroy(d)) }

  lemma KeysNext(s: State, e: Event)
    requires Inv(s) && Enabled(s, e) && Safe(s, e)
    ensures var t := Next(s, e);
            && t.used == s.used + (if e.New? then {e.d} else {})
            && t.dls.Keys == (if e.New? then s.dls.Keys + {e.d} else if e.Delete? then s.dls.Keys - {e.d}
                              else if e.RunIdler? && e.idler.Destroy? then s.dls.Keys - {e.idler.d} else s.dls.Keys)
  {
    hide Inv, DoStart, DoCancel, DoDelete, DisposeAndAnswer, Idle;
    match e {
      case StartDownload(d, p, ready, addOk) => StartKeys(s, d, p, ready, addOk);
      case Cancel(d) => CancelKeys(s, d);
      case Delete(d) => DeleteQuiet(s, d);
      case Done(p) => DisposedKeys(s, p, Collecting);
      case RunIdler(i, addOk) => IdleKeys(s, i, addOk);
      case _ =>
    }
  }

  lemma StartKeys(s: State, d: Id, p: Ptr, ready: bool, addOk: bool)
    requires d in s.dls && p !in s.mgr.live
    ensures var t := DoStart(s, d, p, ready, addOk); t.dls.Keys == s.dls.Keys && t.used == s.used
  {
    hide Manager.Start;
  }

  lemma CancelKeys(s: State, d: Id)
    requires d in s.dls
    ensures DoCancel(s, d).dls.Keys == s.dls.Keys && DoCancel(s, d).used == s.used
  {
    hide Manager.Abort;
  }

  lemma DisposedKeys(s: State, p: Ptr, resume: Phase)
    requires p in s.mgr.live && s.mgr.depth == 0
    ensures DisposeAndAnswer(s, p, resume).dls.Keys == s.dls.Keys && DisposeAndAnswer(s, p, resume).used == s.used
  {
  }

  lemma IdleKeys(s: State, i: Idler, addOk: bool)
    requires Enabled(s, RunIdler(i, addOk)) && Safe(s, RunIdler(i, addOk))
    ensures Idle(s, i, addOk).dls.Keys == (if i.Destroy? then s.dls.Keys - {i.d} else s.dls.Keys)
    ensures Idle(s, i, addOk).used == s.used
  {
    hide DoDelete, DisposeAndAnswer;
    var s1 := s.(mgr := s.mgr.(idlers := s.mgr.idlers - multiset{i}));
    if i.Destroy? {
      DeleteQuiet(s1, i.d);
    } else if s.mgr.IsLive(i.conn, i.serial) {
      DisposedKeys(s1, i.conn, s.phase);
    }
  }

  /** In every run the downloaders there are, are those made and not deleted: by user code, or by the deferred
      destruction of an autodelete object. */
  lemma {:induction false} ObjectsAreMade(states: seq<State>, events: seq<Event>, d: Id, n: nat)
    requires Run(states, events) && n <= |events|
    ensures d in states[n].used <==> Made(events, n, d)
    ensures d in states[n].dls <==> Made(events, n, d) && !Deleted(events, n, d)
    ensures Deleted(events, n, d) ==> Made(events, n, d)
    decreases n
  {
    hide Inv, Safe, Next;
    if n > 0 {
      ObjectsAreMade(states, events, d, n - 1);
      StepIs(states, events, n - 1);
      var s, e := states[n - 1], events[n - 1];
      KeysNext(s, e);
      OnlyWhatIs(s, e, d);
      hide Enabled;
      assert Made(events, n, d) <==> Made(events, n - 1, d) || (e.New? && e.d == d);
      assert Deleted(events, n, d) <==> Deleted(events, n - 1, d) || Deletes(e, d);
      assert d in Next(s, e).dls.Keys <==> d in Next(s, e).dls;
    }
  }

  /** An object is made once, and only what is there is deleted. */
  lemma OnlyWhatIs(s: State, e: Event, d: Id)
    requires Inv(s) && Enabled(s, e) && Safe(s, e)
    ensures e.New? && e.d == d ==> d !in s.used
    ensures Deletes(e, d) ==> d in s.dls
    ensures d in s.dls ==> d in s.used
  {
    assert s.dls.Keys <= s.used;
  }

  /** The flags of every object there still is are what they were. */
  ghost predicate SameFlags(s: State, t: State) {
    forall d <- t.dls :: d in s.dls && t.dls[d].autodelete == s.dls[d].autodelete
                         && t.dls[d].cancelled == s.dls[d].cancelled
  }

  lemma CloseFlags(s: State, d: Id)
    requires d in s.dls
    ensures SameFlags(s, CloseHandles(s, d)) && d in CloseHandles(s, d).dls
  {
    hide Manager.Abort;
  }

  lemma DestroyFlags(s: State, d: Id)
    requires d in s.dls
    ensures SameFlags(s, ScheduleDestroy(s, d)) && d in ScheduleDestroy(s, d).dls
  {
  }

  lemma CancelFlags(s: State, d: Id)
    requires d in s.dls
    ensures SameFlags(s.(dls := s.dls[d := s.dls[d].(cancelled := true)]), DoCancel(s, d)) && d in DoCancel(s, d).dls
  {
    hide CloseHandles, ScheduleDestroy;
    var s0 := s.(dls := s.dls[d := s.dls[d].(cancelled := true)]);
    CloseFlags(s0, d);
    DestroyFlags(CloseHandles(s0, d), d);
  }

  lemma DeleteFlags(s: State, d: Id)
    requires d in s.dls
    ensures SameFlags(s, DoDelete(s, d))
  {
    hide CloseHandles;
    CloseFlags(s, d);
  }

  lemma DisposedFlags(s: State, p: Ptr, resume: Phase)
    requires p in s.mgr.live && s.mgr.depth == 0
    ensures SameFlags(s, DisposeAndAnswer(s, p, resume))
  {
  }

  lemma IdleFlags(s: State, i: Idler, addOk: bool)
    requires Enabled(s, RunIdler(i, addOk)) && Safe(s, RunIdler(i, addOk))
    ensures SameFlags(s, Idle(s, i, addOk))
  {
    hide DoCancel, DoDelete, DisposeAndAnswer;
    var s1 := s.(mgr := s.mgr.(idlers := s.mgr.idlers - multiset{i}));
    if i.Destroy? {
      DeleteFlags(s1, i.d);
    } else if s.mgr.IsLive(i.conn, i.serial) {
      DisposedFlags(s1, i.conn, s.phase);
    }
  }

  lemma StartFlags(s: State, d: Id, p: Ptr, ready: bool, addOk: bool)
    requires d in s.dls && p !in s.mgr.live
    ensures SameFlags(s, DoStart(s, d, p, ready, addOk))
  {
    hide Manager.Start;
  }

  lemma FlagsNext(s: State, e: Event, d: Id)
    requires Inv(s) && Enabled(s, e) && Safe(s, e) && d in Next(s, e).dls
    ensures (e.New? && e.d == d) || d in s.dls
    ensures var x := Next(s, e).dls[d];
            if e.New? && e.d == d then x.autodelete == e.autodelete && !x.cancelled
            else x.autodelete == s.dls[d].autodelete && x.cancelled == (s.dls[d].cancelled || e == Cancel(d))
  {
    hide Inv, DoStart, DoCancel, DoDelete, DisposeAndAnswer, Idle;
    match e {
      case StartDownload(o, p, ready, addOk) => StartFlags(s, o, p, ready, addOk);
      case Cancel(o) => CancelFlags(s, o);
      case Delete(o) => DeleteFlags(s, o);
      case Done(p) => DisposedFlags(s, p, Collecting);
      case RunIdler(i, addOk) => IdleFlags(s, i, addOk);
      case _ =>
    }
  }

  ghost predicate MadeAs(events: seq<Event>, n: nat, d: Id, autodelete: bool)
    requires n <= |events|
  {
    exists k: nat :: k < n && events[k] == New(d, autodelete)
  }

  ghost predicate WasCancelled(events: seq<Event>, n: nat, d: Id)
    requires n <= |events|
  {
    exists k: nat :: k < n && events[k] == Cancel(d)
  }

  /** An object is an autodelete one if it was made so, and cancelled exactly when somebody has cancelled it. */
  lemma {:induction false} FlagsAreGiven(states: seq<State>, events: seq<Event>, d: Id, n: nat)
    requires Run(states, events) && n <= |events|
    ensures d in states[n].dls ==> MadeAs(events, n, d, states[n].dls[d].autodelete)
    ensures d in states[n].dls ==> (states[n].dls[d].cancelled <==> WasCancelled(events, n, d))
    ensures WasCancelled(events, n, d) ==> d in states[n].used
    decreases n
  {
    hide Inv, Safe, Next;
    if n > 0 {
      FlagsAreGiven(states, events, d, n - 1);
      StepIs(states, events, n - 1);
      var s, e := states[n - 1], events[n - 1];
      KeysNext(s, e);
      OnlyWhatIs(s, e, d);
      assert e == Cancel(d) ==> d in s.dls;
      hide Enabled;
      assert WasCancelled(events, n, d) <==> WasCancelled(events, n - 1, d) || e == Cancel(d);
      if d in Next(s, e).dls {
        FlagsNext(s, e, d);
        assert MadeAs(events, n, d, Next(s, e).dls[d].autodelete) by {
          if !(e.New? && e.d == d) {
            var k: nat :| k < n - 1 && events[k] == New(d, s.dls[d].autodelete);
          }
        }
      }
    }
  }

  // ----- the objects -----

  /** The manager itself. `disposed` only serves the proofs. */
  class UrlDownloaderCurlManager {
    var live: map<Ptr, Conn>
    var serialCounter: nat
    var dispatchDepth: nat
    var idlers: multiset<Idler>
    ghost var disposed: multiset<nat>

    ghost function View(): Manager
      reads this
    {
      Manager(live, serialCounter, dispatchDepth, idlers, disposed)
    }

    constructor ()
      ensures View() == INIT.mgr
    {
      live, serialCounter, dispatchDepth, idlers, disposed := map[], 0, 0, multiset{}, multiset{};
    }

    method DisposeConn(conn: Ptr)
      requires conn in live && dispatchDepth == 0
      modifies this
      ensures View() == old(View()).Dispose(conn)
    {
      disposed := disposed + multiset{live[conn].serial};
      live := live - {conn};
    }

    method AddNow(conn: Ptr, libcurlTakesIt: bool) returns (ok: bool)
      requires conn in live && dispatchDepth == 0 && !live[conn].added
      modifies this
      ensures ok == libcurlTakesIt
      ensures View() == if ok then old(View()).Add(conn) else old(View())
    {
      ok := libcurlTakesIt;
      if ok {
        live := live[conn := live[conn].(added := true)];
      }
    }

    method StartTransfer(conn: Ptr, owner: Id, libcurlTakesIt: bool) returns (kept: bool)
      requires conn !in live
      modifies this
      ensures (View(), kept) == old(View()).Start(conn, owner, libcurlTakesIt)
    {
      serialCounter := serialCounter + 1;
      var serial := serialCounter;
      live := live[conn := Conn(serial, Some(owner), false, false, false)];
      if dispatchDepth > 0 {
        idlers := idlers + multiset{AddLater(conn, serial)};
        return true;
      }
      var ok := AddNow(conn, libcurlTakesIt);
      if !ok {
        DisposeConn(conn);
        return false;
      }
      return true;
    }

    method AbortTransfer(conn: Ptr)
      modifies this
      ensures View() == old(View()).Abort(conn)
    {
      if conn !in live {
        return;
      }
      live := live[conn := live[conn].(owner := None, abortRequested := true)];
      if dispatchDepth > 0 || live[conn].inCallback {
        idlers := idlers + multiset{Sweep(conn, live[conn].serial)};
        return;
      }
      DisposeConn(conn);
    }

    method DropTransferFromCallback(conn: Ptr)
      modifies this
      ensures View() == old(View()).Drop(conn)
    {
      if conn !in live {
        return;
      }
      live := live[conn := live[conn].(abortRequested := true)];
      idlers := idlers + multiset{DropSweep(conn, live[conn].serial)};
    }
  }

  /** A downloader. Its methods are the steps above, seen from any state in which it stands as it does. */
  class UrlDownloader {
    const id: Id
    const autodelete: bool
    const manager: UrlDownloaderCurlManager
    var conn: Option<Ptr>
    var cancelled: bool
    var destroyScheduled: bool

    ghost function View(): Downloader
      reads this
    {
      Downloader(conn, cancelled, autodelete, destroyScheduled)
    }

    /** The object and its manager are the ones the state s speaks of. */
    ghost predicate Stands(s: State)
      reads this, manager
    {
      s.mgr == manager.View() && id in s.dls && s.dls[id] == View()
    }

    constructor (id: Id, autodelete: bool, manager: UrlDownloaderCurlManager)
      ensures View() == Downloader(None, false, autodelete, false) && this.id == id && this.manager == manager
    {
      this.id, this.autodelete, this.manager := id, autodelete, manager;
      conn, cancelled, destroyScheduled := None, false, false;
    }

    /** `ready`: there is a URL, libcurl gives a handle, and the destination can be opened. */
    method Start(at: Ptr, ready: bool, libcurlTakesIt: bool) returns (ok: bool)
      requires at !in manager.live
      modifies this, manager
      ensures ok <==> !old(cancelled) && old(conn).None? && ready && conn == Some(at)
      ensures forall s: State | old(Stands(s)) ::
        DoStart(s, id, at, ready, libcurlTakesIt) == s.(mgr := manager.View(), dls := s.dls[id := View()])
    {
      if cancelled || conn.Some? {
        return false;
      }
      if !ready {
        return false;
      }
      var kept := manager.StartTransfer(at, id, libcurlTakesIt);
      if !kept {
        return false;
      }
      conn := Some(at);
      return true;
    }

    method DoCloseHandles()
      modifies this, manager
      ensures View() == old(View()).(conn := None)
      ensures manager.View() == if old(conn).None? then old(manager.View())
                                else old(manager.View()).Abort(old(conn).value)
    {
      if conn.Some? {
        manager.AbortTransfer(conn.value);
        conn := None;
      }
    }

    method ScheduleDestruction()
      modifies this, manager
      ensures View() == old(View()).(destroyScheduled := true)
      ensures manager.View() == if old(destroyScheduled) then old(manager.View())
                                else old(manager.View()).(idlers := old(manager.idlers) + multiset{Destroy(id)})
    {
      if destroyScheduled {
        return;
      }
      destroyScheduled := true;
      manager.idlers := manager.idlers + multiset{Destroy(id)};
    }

    /** The object and its manager alone. */
    ghost function Here(): State
      reads this, manager
    {
      INIT.(mgr := manager.View(), dls := map[id := View()])
    }

    method CancelTransfer()
      modifies this, manager
      ensures forall s: State | old(Stands(s)) ::
        DoCancel(s, id) == s.(mgr := manager.View(), dls := s.dls[id := View()])
    {
      ghost var here := Here();
      if !cancelled {
        cancelled := true;
        DoCloseHandles();
        if autodelete {
          ScheduleDestruction();
        }
      }
      assert manager.View() == DoCancel(here, id).mgr && View() == DoCancel(here, id).dls[id] by {
        hide Manager.Abort;
      }
      forall s: State | old(Stands(s))
        ensures DoCancel(s, id) == s.(mgr := manager.View(), dls := s.dls[id := View()])
      {
        hide DoCancel;
        CancelIsLocal(s, here, id);
      }
    }
  }
}
