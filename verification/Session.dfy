/** Reference-counted session leases, over all interleavings of the tasks that take them.

    A critical section under the table's own lock contains no await, so reserving and giving back
    a reference are single steps here.  Between two steps of one task any other task may move. */
module Session {
  import opened Lists
  import opened Messages

  type Task = nat

  /** A FIFO lock.  After a release it is free while its first waiter has yet to run; nobody else
      may take it then. */
  datatype Lock = Lock(holder: Option<Task>, queue: seq<Task>)

  datatype Entry = Entry(lock: Lock, references: int)

  /** The table of sessions and every entry ever created for it. */
  datatype Coord<E(==)> = Coord(table: map<string, E>, heap: map<E, Entry>)

  datatype Reservation<E(==)> = Reservation(coord: Coord<E>, entry: Option<E>)

  /** `None` is the busy error.  `created` becomes the entry of a session that has none. */
  function Reserve<E(==)>(rejecting: bool, c: Coord<E>, session: string, created: E): Reservation<E>
    requires if session in c.table then c.table[session] in c.heap else created !in c.heap
  {
    var d := if session in c.table then c
             else Coord(c.table[session := created], c.heap[created := Entry(Lock(None, []), 0)]);
    var e := d.table[session];
    if rejecting && d.heap[e].references > 0 then Reservation(d, None)
    else Reservation(d.(heap := d.heap[e := d.heap[e].(references := d.heap[e].references + 1)]), Some(e))
  }

  function ReleaseReference<E(==)>(c: Coord<E>, session: string, e: E): Coord<E>
    requires e in c.heap
  {
    var left := c.heap[e].(references := c.heap[e].references - 1);
    Coord(if left.references == 0 && left.lock.holder.None? then c.table - {session} else c.table, c.heap[e := left])
  }

  // ---- Tasks -----------------------------------------------------------------------------------

  datatype Pc<E(==)> =
    | Idle
    | Holding(session: string, entry: E)     // reserved, about to acquire
    | Waiting(session: string, entry: E)     // queued for the lock
    | Inside(session: string, entry: E)      // in the body of the lease
    | Leaving(session: string, entry: E)     // lock released or never taken, reference still held

  datatype World<E(==)> = World(rejecting: bool, coord: Coord<E>, pcs: map<Task, Pc<E>>)

  datatype Action<E(==)> =
    | Enter(t: Task, session: string, created: E)
    | Acquire(t: Task)
    | Wake(t: Task)
    | GiveUp(t: Task)                         // the wait timed out or was cancelled
    | Exit(t: Task)                           // the body ended, in whatever way
    | Drop(t: Task)

  function PcOf<E(==)>(w: World<E>, t: Task): Pc<E> {
    if t in w.pcs then w.pcs[t] else Idle
  }

  predicate Enabled<E(==)>(w: World<E>, a: Action<E>) {
    match a
    case Enter(t, session, created) =>
      PcOf(w, t).Idle? && session != "" &&
      if session in w.coord.table then w.coord.table[session] in w.coord.heap else created !in w.coord.heap
    case Acquire(t) => PcOf(w, t).Holding? && PcOf(w, t).entry in w.coord.heap
    case Wake(t) =>
      PcOf(w, t).Waiting? && PcOf(w, t).entry in w.coord.heap &&
      var lock := w.coord.heap[PcOf(w, t).entry].lock;
      lock.holder.None? && lock.queue != [] && lock.queue[0] == t
    case GiveUp(t) => PcOf(w, t).Waiting? && PcOf(w, t).entry in w.coord.heap
    case Exit(t) => PcOf(w, t).Inside? && PcOf(w, t).entry in w.coord.heap
    case Drop(t) => PcOf(w, t).Leaving? && PcOf(w, t).entry in w.coord.heap
  }

  function Without(queue: seq<Task>, t: Task): (r: seq<Task>)
    ensures forall x :: x in r <==> x in queue && x != t
    ensures NoRepeats(queue) ==> NoRepeats(r)
  {
    if queue == [] then []
    else
      assert queue == [queue[0]] + queue[1..];
      assert NoRepeats(queue) ==> NoRepeats(queue[1..]) && queue[0] !in queue[1..];
      (if queue[0] == t then [] else [queue[0]]) + Without(queue[1..], t)
  }

  function WithLock<E(==)>(w: World<E>, e: E, lock: Lock, t: Task, pc: Pc<E>): World<E>
    requires e in w.coord.heap
  {
    w.(coord := w.coord.(heap := w.coord.heap[e := w.coord.heap[e].(lock := lock)]), pcs := w.pcs[t := pc])
  }

  function Do<E(==)>(w: World<E>, a: Action<E>): World<E>
    requires Enabled(w, a)
  {
    match a
    case Enter(t, session, created) =>
      var r := Reserve(w.rejecting, w.coord, session, created);
      w.(coord := r.coord, pcs := w.pcs[t := if r.entry.Some? then Holding(session, r.entry.value) else Idle])
    case Acquire(t) =>
      var pc := PcOf(w, t);
      var lock := w.coord.heap[pc.entry].lock;
      if lock.holder.None? && lock.queue == [] then
        WithLock(w, pc.entry, Lock(Some(t), []), t, Inside(pc.session, pc.entry))
      else
        WithLock(w, pc.entry, lock.(queue := lock.queue + [t]), t, Waiting(pc.session, pc.entry))
    case Wake(t) =>
      var pc := PcOf(w, t);
      WithLock(w, pc.entry, Lock(Some(t), w.coord.heap[pc.entry].lock.queue[1..]), t, Inside(pc.session, pc.entry))
    case GiveUp(t) =>
      var pc := PcOf(w, t);
      var lock := w.coord.heap[pc.entry].lock;
      WithLock(w, pc.entry, lock.(queue := Without(lock.queue, t)), t, Leaving(pc.session, pc.entry))
    case Exit(t) =>
      var pc := PcOf(w, t);
      WithLock(w, pc.entry, w.coord.heap[pc.entry].lock.(holder := None), t, Leaving(pc.session, pc.entry))
    case Drop(t) =>
      var pc := PcOf(w, t);
      w.(coord := ReleaseReference(w.coord, pc.session, pc.entry), pcs := w.pcs[t := Idle])
  }

  // ---- The invariant ---------------------------------------------------------------------------

  /** The tasks between reserve and release of `e`. */
  function Users<E(==)>(pcs: map<Task, Pc<E>>, e: E): set<Task> {
    set t | t in pcs && !pcs[t].Idle? && pcs[t].entry == e
  }

  /** While a task uses a session, the table maps that session to the task's own entry. */
  ghost predicate Mapped<E>(w: World<E>) {
    forall t | t in w.pcs && !w.pcs[t].Idle? ::
      w.pcs[t].session in w.coord.table && w.coord.table[w.pcs[t].session] == w.pcs[t].entry
  }

  /** The table lists entries in use, each under one session only. */
  ghost predicate TableOk<E>(w: World<E>) {
    && (forall s | s in w.coord.table :: w.coord.table[s] in w.coord.heap && Users(w.pcs, w.coord.table[s]) != {})
    && (forall s, r | s in w.coord.table && r in w.coord.table && s != r :: w.coord.table[s] != w.coord.table[r])
  }

  ghost predicate Accounted<E>(w: World<E>) {
    forall e | e in w.coord.heap :: w.coord.heap[e].references == |Users(w.pcs, e)|
  }

  function InsideOf<E(==)>(pcs: map<Task, Pc<E>>, e: E): set<Task> {
    set t | t in pcs && pcs[t].Inside? && pcs[t].entry == e
  }

  function WaitersOf<E(==)>(pcs: map<Task, Pc<E>>, e: E): set<Task> {
    set t | t in pcs && pcs[t].Waiting? && pcs[t].entry == e
  }

  /** The holder is the one task inside, and the queue lists the waiting tasks, each once. */
  ghost predicate LockOk<E>(pcs: map<Task, Pc<E>>, e: E, lock: Lock) {
    && InsideOf(pcs, e) == (if lock.holder.Some? then {lock.holder.value} else {})
    && WaitersOf(pcs, e) == (set t | t in lock.queue)
    && NoRepeats(lock.queue)
  }

  ghost predicate LocksOk<E>(w: World<E>) {
    forall e | e in w.coord.heap :: LockOk(w.pcs, e, w.coord.heap[e].lock)
  }

  ghost predicate RejectOk<E>(w: World<E>) {
    w.rejecting ==>
      && (forall e | e in w.coord.heap :: w.coord.heap[e].references <= 1)
      && (forall t | t in w.pcs :: !w.pcs[t].Waiting?)
  }

  ghost predicate Inv<E>(w: World<E>) {
    Mapped(w) && TableOk(w) && Accounted(w) && LocksOk(w) && RejectOk(w)
  }

  // ---- Every step keeps it ---------------------------------------------------------------------

  lemma UsersUpdate<E>(pcs: map<Task, Pc<E>>, t: Task, pc: Pc<E>, e: E)
    ensures Users(pcs[t := pc], e)
            == if !pc.Idle? && pc.entry == e then Users(pcs, e) + {t} else Users(pcs, e) - {t}
  {
  }

  /** One task that moves within its own entry touches nobody's lock but that entry's. */
  lemma OtherLocks<E>(pcs: map<Task, Pc<E>>, t: Task, pc: Pc<E>, e: E)
    requires t in pcs && !pcs[t].Idle? ==> pcs[t].entry != e
    requires !pc.Idle? ==> pc.entry != e
    ensures InsideOf(pcs[t := pc], e) == InsideOf(pcs, e) && WaitersOf(pcs[t := pc], e) == WaitersOf(pcs, e)
  {
  }

  lemma OwnLock<E>(pcs: map<Task, Pc<E>>, t: Task, pc: Pc<E>, e: E)
    requires !pc.Idle? ==> pc.entry == e
    ensures InsideOf(pcs[t := pc], e) == if pc.Inside? then InsideOf(pcs, e) + {t} else InsideOf(pcs, e) - {t}
    ensures WaitersOf(pcs[t := pc], e) == if pc.Waiting? then WaitersOf(pcs, e) + {t} else WaitersOf(pcs, e) - {t}
  {
  }

  /** A change of one task's lock state moves no reference and no table row; the rest of the
      invariant follows once the entry's own lock is in order. */
  lemma WithLockKeeps<E>(w: World<E>, e: E, lock: Lock, t: Task, pc: Pc<E>)
    requires Inv(w) && e in w.coord.heap && !PcOf(w, t).Idle? && PcOf(w, t).entry == e
    requires !pc.Idle? && pc.entry == e && pc.session == PcOf(w, t).session
    requires LockOk(w.pcs[t := pc], e, lock) && (w.rejecting ==> !pc.Waiting?)
    ensures Inv(WithLock(w, e, lock, t, pc))
  {
    var v := WithLock(w, e, lock, t, pc);
    forall x
      ensures Users(v.pcs, x) == Users(w.pcs, x)
    {
      UsersUpdate(w.pcs, t, pc, x);
    }
    forall x | x in v.coord.heap && x != e
      ensures LockOk(v.pcs, x, v.coord.heap[x].lock)
    {
      OtherLocks(w.pcs, t, pc, x);
    }
  }

  lemma TakeFreeLock<E>(w: World<E>, t: Task)
    requires Inv(w) && Enabled(w, Acquire(t))
    requires w.coord.heap[w.pcs[t].entry].lock == Lock(None, [])
    ensures Inv(Do(w, Acquire(t)))
  {
    var pc := w.pcs[t];
    assert LockOk(w.pcs, pc.entry, w.coord.heap[pc.entry].lock);
    OwnLock(w.pcs, t, Inside(pc.session, pc.entry), pc.entry);
    WithLockKeeps(w, pc.entry, Lock(Some(t), []), t, Inside(pc.session, pc.entry));
  }

  lemma QueuedLock<E>(pcs: map<Task, Pc<E>>, t: Task, session: string, e: E, lock: Lock)
    requires LockOk(pcs, e, lock) && t in pcs && pcs[t].Holding?
    ensures LockOk(pcs[t := Waiting(session, e)], e, lock.(queue := lock.queue + [t]))
  {
    OwnLock(pcs, t, Waiting(session, e), e);
    assert t !in InsideOf(pcs, e) && t !in WaitersOf(pcs, e);
    assert t !in lock.queue;
  }

  lemma QueueForLock<E>(w: World<E>, t: Task)
    requires Inv(w) && Enabled(w, Acquire(t))
    requires var lock := w.coord.heap[w.pcs[t].entry].lock; !w.rejecting && (lock.holder.Some? || lock.queue != [])
    ensures Inv(Do(w, Acquire(t)))
  {
    var pc := w.pcs[t];
    var lock := w.coord.heap[pc.entry].lock;
    assert LockOk(w.pcs, pc.entry, lock);
    QueuedLock(w.pcs, t, pc.session, pc.entry, lock);
    WithLockKeeps(w, pc.entry, lock.(queue := lock.queue + [t]), t, Waiting(pc.session, pc.entry));
  }

  lemma OnlyUser<E>(w: World<E>, e: E, t: Task)
    requires Accounted(w) && RejectOk(w) && w.rejecting && e in w.coord.heap && t in Users(w.pcs, e)
    ensures Users(w.pcs, e) == {t}
  {
    assert |Users(w.pcs, e) - {t}| == 0;
  }

  lemma QueuedTasksExist(queue: seq<Task>)
    ensures queue != [] ==> (set t | t in queue) != {}
  {
    var members := set t | t in queue;
    if queue != [] {
      assert queue[0] in members;
    }
  }

  lemma LoneUserFindsLockFree<E>(w: World<E>, t: Task)
    requires Inv(w) && w.rejecting && PcOf(w, t).Holding?
    ensures PcOf(w, t).entry in w.coord.heap && w.coord.heap[PcOf(w, t).entry].lock == Lock(None, [])
  {
    var e := w.pcs[t].entry;
    var lock := w.coord.heap[e].lock;
    OnlyUser(w, e, t);
    assert LockOk(w.pcs, e, lock);
    assert InsideOf(w.pcs, e) <= Users(w.pcs, e) && WaitersOf(w.pcs, e) <= Users(w.pcs, e);
    assert t !in InsideOf(w.pcs, e) && t !in WaitersOf(w.pcs, e);
    assert InsideOf(w.pcs, e) == {} && WaitersOf(w.pcs, e) == {};
    QueuedTasksExist(lock.queue);
  }

  lemma AcquireKeeps<E>(w: World<E>, t: Task)
    requires Inv(w) && Enabled(w, Acquire(t))
    ensures Inv(Do(w, Acquire(t)))
  {
    var lock := w.coord.heap[w.pcs[t].entry].lock;
    if w.rejecting {
      LoneUserFindsLockFree(w, t);
    }
    if lock.holder.None? && lock.queue == [] {
      TakeFreeLock(w, t);
    } else {
      QueueForLock(w, t);
    }
  }

  lemma WakeKeeps<E>(w: World<E>, t: Task)
    requires Inv(w) && Enabled(w, Wake(t))
    ensures Inv(Do(w, Wake(t)))
  {
    var pc := w.pcs[t];
    var lock := w.coord.heap[pc.entry].lock;
    var rest := lock.queue[1..];
    assert LockOk(w.pcs, pc.entry, lock);
    OwnLock(w.pcs, t, Inside(pc.session, pc.entry), pc.entry);
    forall x
      ensures x in rest <==> x in lock.queue && x != t
    {
      assert x in lock.queue ==> x == lock.queue[0] || x in rest;
    }
    WithLockKeeps(w, pc.entry, Lock(Some(t), rest), t, Inside(pc.session, pc.entry));
  }

  lemma GiveUpKeeps<E>(w: World<E>, t: Task)
    requires Inv(w) && Enabled(w, GiveUp(t))
    ensures Inv(Do(w, GiveUp(t)))
  {
    var pc := w.pcs[t];
    var lock := w.coord.heap[pc.entry].lock;
    assert LockOk(w.pcs, pc.entry, lock);
    assert t !in InsideOf(w.pcs, pc.entry);
    OwnLock(w.pcs, t, Leaving(pc.session, pc.entry), pc.entry);
    WithLockKeeps(w, pc.entry, lock.(queue := Without(lock.queue, t)), t, Leaving(pc.session, pc.entry));
  }

  lemma ExitKeeps<E>(w: World<E>, t: Task)
    requires Inv(w) && Enabled(w, Exit(t))
    ensures Inv(Do(w, Exit(t)))
  {
    var pc := w.pcs[t];
    var lock := w.coord.heap[pc.entry].lock;
    assert LockOk(w.pcs, pc.entry, lock);
    assert t in InsideOf(w.pcs, pc.entry) && t !in WaitersOf(w.pcs, pc.entry);
    OwnLock(w.pcs, t, Leaving(pc.session, pc.entry), pc.entry);
    WithLockKeeps(w, pc.entry, lock.(holder := None), t, Leaving(pc.session, pc.entry));
  }

  lemma DropKeepsLocks<E>(w: World<E>, t: Task)
    requires Inv(w) && Enabled(w, Drop(t))
    ensures LocksOk(Do(w, Drop(t)))
  {
    var e := w.pcs[t].entry;
    var v := Do(w, Drop(t));
    forall x | x in v.coord.heap
      ensures LockOk(v.pcs, x, v.coord.heap[x].lock)
    {
      assert LockOk(w.pcs, x, w.coord.heap[x].lock);
      if x == e {
        assert t !in InsideOf(w.pcs, e) && t !in WaitersOf(w.pcs, e);
        OwnLock(w.pcs, t, Idle, e);
      } else {
        OtherLocks(w.pcs, t, Idle, x);
      }
    }
  }

  lemma DropAccounts<E>(w: World<E>, t: Task)
    requires Inv(w) && Enabled(w, Drop(t))
    ensures Accounted(Do(w, Drop(t))) && RejectOk(Do(w, Drop(t)))
  {
    var v := Do(w, Drop(t));
    forall x | x in v.coord.heap
      ensures v.coord.heap[x].references == |Users(v.pcs, x)| && v.coord.heap[x].references <= w.coord.heap[x].references
    {
      UsersUpdate(w.pcs, t, Idle, x);
      if x == w.pcs[t].entry {
        assert t in Users(w.pcs, x);
      } else {
        assert Users(v.pcs, x) == Users(w.pcs, x);
      }
    }
  }

  lemma RowGoesWithLastUser<E>(w: World<E>, t: Task)
    requires Inv(w) && Enabled(w, Drop(t))
    requires Accounted(Do(w, Drop(t))) && LocksOk(Do(w, Drop(t)))
    ensures var v := Do(w, Drop(t));
            v.coord.table == if Users(v.pcs, w.pcs[t].entry) == {} then w.coord.table - {w.pcs[t].session} else w.coord.table
  {
    var e := w.pcs[t].entry;
    var v := Do(w, Drop(t));
    assert v.coord.heap[e].references == |Users(v.pcs, e)|;
    if Users(v.pcs, e) == {} {
      assert InsideOf(v.pcs, e) <= Users(v.pcs, e);
      assert LockOk(v.pcs, e, v.coord.heap[e].lock);
    }
  }

  lemma LastUserLeaves<E>(w: World<E>, v: World<E>, t: Task)
    requires Mapped(w) && TableOk(w) && t in w.pcs && !w.pcs[t].Idle? && v.pcs == w.pcs[t := Idle]
    requires v.coord.heap.Keys == w.coord.heap.Keys
    requires v.coord.table == if Users(v.pcs, w.pcs[t].entry) == {} then w.coord.table - {w.pcs[t].session} else w.coord.table
    ensures Mapped(v) && TableOk(v)
  {
    var session, e := w.pcs[t].session, w.pcs[t].entry;
    forall u | u in v.pcs && !v.pcs[u].Idle?
      ensures v.pcs[u].session in v.coord.table && v.coord.table[v.pcs[u].session] == v.pcs[u].entry
    {
      assert u in Users(v.pcs, v.pcs[u].entry);
    }
    forall s | s in v.coord.table
      ensures Users(v.pcs, v.coord.table[s]) != {}
    {
      UsersUpdate(w.pcs, t, Idle, v.coord.table[s]);
      if s != session {
        assert w.coord.table[s] != e;
      }
    }
  }

  /** When the last reference goes, the lock is free, so the row goes too; and only then. */
  lemma DropKeeps<E>(w: World<E>, t: Task)
    requires Inv(w) && Enabled(w, Drop(t))
    ensures Inv(Do(w, Drop(t)))
  {
    var v := Do(w, Drop(t));
    DropKeepsLocks(w, t);
    DropAccounts(w, t);
    RowGoesWithLastUser(w, t);
    LastUserLeaves(w, v, t);
  }

  lemma EnterKeepsLocks<E>(w: World<E>, t: Task, session: string, created: E)
    requires Inv(w) && Enabled(w, Enter(t, session, created))
    ensures LocksOk(Do(w, Enter(t, session, created)))
  {
    var v := Do(w, Enter(t, session, created));
    forall x | x in v.coord.heap
      ensures LockOk(v.pcs, x, v.coord.heap[x].lock)
    {
      assert x in w.coord.heap ==> LockOk(w.pcs, x, w.coord.heap[x].lock);
      assert t !in InsideOf(w.pcs, x) && t !in WaitersOf(w.pcs, x);
      if !v.pcs[t].Idle? && v.pcs[t].entry != x {
        OtherLocks(w.pcs, t, v.pcs[t], x);
      } else {
        OwnLock(w.pcs, t, v.pcs[t], x);
      }
      if x !in w.coord.heap {
        assert InsideOf(w.pcs, x) == {} && WaitersOf(w.pcs, x) == {};
      }
    }
  }

  /** A busy answer changes nothing: the session has a row, and its entry a reference. */
  lemma EnterBusy<E>(w: World<E>, t: Task, session: string, created: E)
    requires Inv(w) && Enabled(w, Enter(t, session, created))
    requires Reserve(w.rejecting, w.coord, session, created).entry.None?
    ensures Do(w, Enter(t, session, created)) == w.(pcs := w.pcs[t := Idle])
    ensures session in w.coord.table && Inv(Do(w, Enter(t, session, created)))
  {
    var v := Do(w, Enter(t, session, created));
    assert v.coord == w.coord;
    EnterKeepsLocks(w, t, session, created);
    forall x
      ensures Users(v.pcs, x) == Users(w.pcs, x)
    {
      UsersUpdate(w.pcs, t, Idle, x);
    }
  }

  /** A successful reservation adds the task to the users of the session's entry, and a row for
      it if there was none. */
  lemma EnterCounts<E>(w: World<E>, t: Task, session: string, created: E, x: E)
    requires Inv(w) && Enabled(w, Enter(t, session, created))
    requires Reserve(w.rejecting, w.coord, session, created).entry.Some?
    requires x in Do(w, Enter(t, session, created)).coord.heap
    ensures var v := Do(w, Enter(t, session, created));
            v.coord.heap[x].references == |Users(v.pcs, x)| && (w.rejecting ==> v.coord.heap[x].references <= 1)
  {
    var e := Reserve(w.rejecting, w.coord, session, created).entry.value;
    var v := Do(w, Enter(t, session, created));
    UsersUpdate(w.pcs, t, v.pcs[t], x);
    assert t !in Users(w.pcs, x);
    if x == e {
      assert Users(v.pcs, x) == Users(w.pcs, x) + {t};
      assert x !in w.coord.heap ==> Users(w.pcs, x) == {};
    } else {
      assert Users(v.pcs, x) == Users(w.pcs, x);
    }
  }

  lemma EnterReserves<E>(w: World<E>, t: Task, session: string, created: E)
    requires Inv(w) && Enabled(w, Enter(t, session, created))
    requires Reserve(w.rejecting, w.coord, session, created).entry.Some?
    ensures Accounted(Do(w, Enter(t, session, created))) && RejectOk(Do(w, Enter(t, session, created)))
  {
    var v := Do(w, Enter(t, session, created));
    forall x | x in v.coord.heap
      ensures v.coord.heap[x].references == |Users(v.pcs, x)|
      ensures w.rejecting ==> v.coord.heap[x].references <= 1
    {
      EnterCounts(w, t, session, created, x);
    }
  }

  lemma EnterMaps<E>(w: World<E>, t: Task, session: string, created: E)
    requires Inv(w) && Enabled(w, Enter(t, session, created))
    requires Reserve(w.rejecting, w.coord, session, created).entry.Some?
    ensures Mapped(Do(w, Enter(t, session, created))) && TableOk(Do(w, Enter(t, session, created)))
  {
    var e := Reserve(w.rejecting, w.coord, session, created).entry.value;
    var v := Do(w, Enter(t, session, created));
    assert v.coord.table == w.coord.table[session := e];
    assert session in w.coord.table ==> w.coord.table[session] == e;
    forall u | u in v.pcs && !v.pcs[u].Idle?
      ensures v.pcs[u].session in v.coord.table && v.coord.table[v.pcs[u].session] == v.pcs[u].entry
    {
      assert u != t ==> v.pcs[u] == w.pcs[u];
    }
    forall s | s in v.coord.table
      ensures Users(v.pcs, v.coord.table[s]) != {}
    {
      UsersUpdate(w.pcs, t, v.pcs[t], v.coord.table[s]);
    }
  }

  lemma EnterKeeps<E>(w: World<E>, t: Task, session: string, created: E)
    requires Inv(w) && Enabled(w, Enter(t, session, created))
    ensures Inv(Do(w, Enter(t, session, created)))
  {
    if Reserve(w.rejecting, w.coord, session, created).entry.None? {
      EnterBusy(w, t, session, created);
    } else {
      EnterKeepsLocks(w, t, session, created);
      EnterReserves(w, t, session, created);
      EnterMaps(w, t, session, created);
    }
  }

  // ---- All runs --------------------------------------------------------------------------------

  ghost predicate Initial<E>(w: World<E>) {
    w.coord == Coord(map[], map[]) && w.pcs == map[]
  }

  /** A finite prefix of a run: any enabled action of any task may come next. */
  ghost predicate IsRun<E>(ws: seq<World<E>>, actions: seq<Action<E>>) {
    && |ws| == |actions| + 1 && Initial(ws[0])
    && forall i {:trigger actions[i]} | 0 <= i < |actions| :: Enabled(ws[i], actions[i]) && ws[i + 1] == Do(ws[i], actions[i])
  }

  lemma StepKeeps<E>(w: World<E>, a: Action<E>)
    requires Inv(w) && Enabled(w, a)
    ensures Inv(Do(w, a))
  {
    match a
    case Enter(t, session, created) => EnterKeeps(w, t, session, created);
    case Acquire(t) => AcquireKeeps(w, t);
    case Wake(t) => WakeKeeps(w, t);
    case GiveUp(t) => GiveUpKeeps(w, t);
    case Exit(t) => ExitKeeps(w, t);
    case Drop(t) => DropKeeps(w, t);
  }

  lemma {:induction false} RunKeeps<E>(ws: seq<World<E>>, actions: seq<Action<E>>, n: nat)
    requires IsRun(ws, actions) && n < |ws|
    ensures Inv(ws[n])
  {
    if n > 0 {
      RunKeeps(ws, actions, n - 1);
      StepKeeps(ws[n - 1], actions[n - 1]);
    }
  }

  /** While any task holds, awaits or is giving back a session, the table maps that session to the
      very entry, and so the very lock, that the task uses. */
  lemma EntryIsStable<E>(ws: seq<World<E>>, actions: seq<Action<E>>, n: nat, t: Task)
    requires IsRun(ws, actions) && n < |ws| && !PcOf(ws[n], t).Idle?
    ensures var pc := PcOf(ws[n], t);
            pc.session in ws[n].coord.table && ws[n].coord.table[pc.session] == pc.entry
  {
    RunKeeps(ws, actions, n);
  }

  /** Main result: in every state of every run, at most one task is inside the lease of a session. */
  lemma LeaseIsExclusive<E>(ws: seq<World<E>>, actions: seq<Action<E>>, n: nat, t: Task, u: Task)
    requires IsRun(ws, actions) && n < |ws|
    requires PcOf(ws[n], t).Inside? && PcOf(ws[n], u).Inside? && PcOf(ws[n], t).session == PcOf(ws[n], u).session
    ensures t == u
  {
    RunKeeps(ws, actions, n);
    var e := PcOf(ws[n], t).entry;
    assert LockOk(ws[n].pcs, e, ws[n].coord.heap[e].lock);
    assert {t, u} <= InsideOf(ws[n].pcs, e);
  }

  /** The table has a row for exactly the sessions some task is using, and the row's reference
      count is the number of those tasks. */
  lemma LeasesAreAccounted<E>(ws: seq<World<E>>, actions: seq<Action<E>>, n: nat, session: string)
    requires IsRun(ws, actions) && n < |ws|
    ensures var w := ws[n];
            var users := set t | t in w.pcs && !w.pcs[t].Idle? && w.pcs[t].session == session;
            && (session in w.coord.table <==> users != {})
            && (session in w.coord.table ==>
                  w.coord.table[session] in w.coord.heap
                  && w.coord.heap[w.coord.table[session]].references == |users|)
  {
    RunKeeps(ws, actions, n);
    var w := ws[n];
    var users := set t | t in w.pcs && !w.pcs[t].Idle? && w.pcs[t].session == session;
    if session in w.coord.table {
      var e := w.coord.table[session];
      forall t | t in Users(w.pcs, e)
        ensures t in users
      {
        assert w.coord.table[w.pcs[t].session] == e;
      }
      assert users == Users(w.pcs, e);
    } else {
      assert users == {};
    }
  }

  /** In reject mode nobody ever waits: a reserved lock is free at once. */
  lemma RejectModeNeverBlocks<E>(ws: seq<World<E>>, actions: seq<Action<E>>, n: nat, t: Task)
    requires IsRun(ws, actions) && n < |ws| && ws[n].rejecting
    ensures !PcOf(ws[n], t).Waiting?
    ensures PcOf(ws[n], t).Holding? ==>
              Enabled(ws[n], Acquire(t)) && PcOf(Do(ws[n], Acquire(t)), t).Inside?
  {
    RunKeeps(ws, actions, n);
    if PcOf(ws[n], t).Holding? {
      LoneUserFindsLockFree(ws[n], t);
    }
  }

  /** No wake-up is lost: whoever is queued either has a task inside to wait for, or the head of
      the queue can run. */
  lemma WaitersAreServed<E>(ws: seq<World<E>>, actions: seq<Action<E>>, n: nat, t: Task)
    requires IsRun(ws, actions) && n < |ws| && PcOf(ws[n], t).Waiting?
    ensures var w := ws[n];
            var e := PcOf(w, t).entry;
            && e in w.coord.heap && t in w.coord.heap[e].lock.queue
            && match w.coord.heap[e].lock.holder
               case Some(u) => PcOf(w, u).Inside? && PcOf(w, u).session == PcOf(w, t).session
               case None => Enabled(w, Wake(w.coord.heap[e].lock.queue[0]))
  {
    RunKeeps(ws, actions, n);
    var w := ws[n];
    var e := PcOf(w, t).entry;
    var lock := w.coord.heap[e].lock;
    assert LockOk(w.pcs, e, lock);
    assert t in WaitersOf(w.pcs, e);
    if lock.holder.Some? {
      assert lock.holder.value in InsideOf(w.pcs, e);
      var s, r := PcOf(w, t).session, PcOf(w, lock.holder.value).session;
      assert w.coord.table[s] == w.coord.table[r];
    } else {
      assert lock.queue[0] in WaitersOf(w.pcs, e);
    }
  }

  // ---- The coordinator -------------------------------------------------------------------------

  class SessionEntry {
    var lock: Lock
    var references: int

    constructor ()
      ensures lock == Lock(None, []) && references == 0
    {
      lock, references := Lock(None, []), 0;
    }
  }

  class SessionCoordinator {
    const rejecting: bool
    var entries: map<string, SessionEntry>
    ghost var created: set<SessionEntry>

    constructor (rejecting: bool)
      ensures Valid() && this.rejecting == rejecting && Abstract() == Coord(map[], map[])
    {
      this.rejecting := rejecting;
      entries, created := map[], {};
    }

    ghost predicate Valid()
      reads this
    {
      entries.Values <= created
    }

    ghost function Abstract(): Coord<SessionEntry>
      reads this, created
    {
      Coord(entries, map e | e in created :: Entry(e.lock, e.references))
    }

    /** `None` is the busy error of reject mode. */
    method ReserveEntry(session: string) returns (entry: Option<SessionEntry>)
      requires Valid()
      modifies this, created
      ensures Valid() && session in entries
      ensures session in old(entries) || fresh(entries[session])
      ensures Reservation(Abstract(), entry) == Reserve(rejecting, old(Abstract()), session, entries[session])
      ensures entry.None? <==> rejecting && session in old(entries) && old(entries[session].references) > 0
      ensures entry.Some? ==>
                && entry.value == entries[session] && (session in old(entries) ==> entry.value == old(entries[session]))
                && entry.value.references == 1 + if session in old(entries) then old(entries[session].references) else 0
    {
      if session !in entries {
        var added := new SessionEntry();
        entries := entries[session := added];
        created := created + {added};
      }
      var found := entries[session];
      if rejecting && found.references > 0 {
        return None;
      }
      found.references := found.references + 1;
      entry := Some(found);
    }

    method GiveBack(session: string, entry: SessionEntry)
      requires Valid() && entry in created
      modifies `entries, entry`references
      ensures Valid() && Abstract() == ReleaseReference(old(Abstract()), session, entry)
    {
      entry.references := entry.references - 1;
      if entry.references == 0 && entry.lock.holder.None? {
        entries := entries - {session};
      }
    }
  }
}
