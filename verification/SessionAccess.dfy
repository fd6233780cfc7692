/** Who is let into a session, who has to wait, and in which order, in every run of the tasks. */
module SessionAccess {
  import opened Session

  /** Some task is somewhere between reserving the session and giving it back. */
  ghost predicate InUse<E>(w: World<E>, session: string) {
    exists u :: !PcOf(w, u).Idle? && PcOf(w, u).session == session
  }

  lemma InUseMeansReferenced<E>(w: World<E>, session: string)
    requires Inv(w)
    ensures InUse(w, session) <==>
      session in w.coord.table && w.coord.heap[w.coord.table[session]].references > 0
  {
    if session in w.coord.table {
      var e := w.coord.table[session];
      var u :| u in Users(w.pcs, e);
      assert |Users(w.pcs, e) - {u}| + 1 == |Users(w.pcs, e)|;
      assert !PcOf(w, u).Idle? && w.coord.table[PcOf(w, u).session] == e;
    }
  }

  /** In every run a session is refused exactly in reject mode and while some task uses it; otherwise the
      task holds a reference, to the very entry of whoever else uses the session, and nobody else moves. */
  lemma RefusedExactlyWhenInUse<E>(ws: seq<World<E>>, actions: seq<Action<E>>, n: nat, t: Task, session: string, created: E)
    requires IsRun(ws, actions) && n < |ws| && Enabled(ws[n], Enter(t, session, created))
    ensures var w := ws[n]; var v := Do(w, Enter(t, session, created));
      && (PcOf(v, t).Idle? <==> w.rejecting && InUse(w, session))
      && (!PcOf(v, t).Idle? ==> PcOf(v, t).Holding? && PcOf(v, t).session == session)
      && (forall u | u != t :: PcOf(v, u) == PcOf(w, u))
      && forall u | !PcOf(v, t).Idle? && !PcOf(w, u).Idle? && PcOf(w, u).session == session :: PcOf(v, t).entry == PcOf(w, u).entry
  {
    RunKeeps(ws, actions, n);
    InUseMeansReferenced(ws[n], session);
  }

  /** Somebody is inside, or waits to be, by way of this entry. */
  ghost predicate Contended<E>(w: World<E>, e: E) {
    exists u :: (PcOf(w, u).Inside? || PcOf(w, u).Waiting?) && PcOf(w, u).entry == e
  }

  lemma ContendedMeansTaken<E>(w: World<E>, e: E)
    requires Inv(w) && e in w.coord.heap
    ensures Contended(w, e) <==> w.coord.heap[e].lock.holder.Some? || w.coord.heap[e].lock.queue != []
  {
    var lock := w.coord.heap[e].lock;
    assert LockOk(w.pcs, e, lock);
    if lock.holder.Some? {
      assert lock.holder.value in InsideOf(w.pcs, e);
      assert PcOf(w, lock.holder.value).Inside? && PcOf(w, lock.holder.value).entry == e;
    } else if lock.queue != [] {
      assert lock.queue[0] in WaitersOf(w.pcs, e);
      assert PcOf(w, lock.queue[0]).Waiting? && PcOf(w, lock.queue[0]).entry == e;
    } else {
      forall u
        ensures !((PcOf(w, u).Inside? || PcOf(w, u).Waiting?) && PcOf(w, u).entry == e)
      {
        assert u !in InsideOf(w.pcs, e) && u !in WaitersOf(w.pcs, e);
      }
    }
  }

  /** A task that reserved gets in at once exactly when nobody is inside or waits; otherwise it waits
      behind all who do. */
  lemma LatecomersQueue<E>(ws: seq<World<E>>, actions: seq<Action<E>>, n: nat, t: Task)
    requires IsRun(ws, actions) && n < |ws| && Enabled(ws[n], Acquire(t))
    ensures var w := ws[n]; var v := Do(w, Acquire(t)); var e := PcOf(w, t).entry;
      && (if Contended(w, e) then
            PcOf(v, t) == Waiting(PcOf(w, t).session, e) && v.coord.heap[e].lock.queue == w.coord.heap[e].lock.queue + [t]
          else PcOf(v, t) == Inside(PcOf(w, t).session, e))
      && forall u | u != t :: PcOf(v, u) == PcOf(w, u)
  {
    RunKeeps(ws, actions, n);
    ContendedMeansTaken(ws[n], PcOf(ws[n], t).entry);
  }

  /** `t` is in front of `u`. */
  ghost predicate Before(queue: seq<Task>, t: Task, u: Task) {
    exists i, j :: 0 <= i < j < |queue| && queue[i] == t && queue[j] == u
  }

  lemma {:induction false} WithoutKeepsOrder(queue: seq<Task>, gone: Task, t: Task, u: Task)
    requires Before(queue, t, u) && gone != t && gone != u
    ensures Before(Without(queue, gone), t, u)
  {
    var i, j :| 0 <= i < j < |queue| && queue[i] == t && queue[j] == u;
    var rest := Without(queue[1..], gone);
    assert queue[1..][j - 1] == u;
    if i == 0 {
      assert u in queue[1..];
      var k :| 0 <= k < |rest| && rest[k] == u;
      assert Without(queue, gone) == [t] + rest;
      assert ([t] + rest)[0] == t && ([t] + rest)[k + 1] == u;
    } else {
      assert queue[1..][i - 1] == t;
      WithoutKeepsOrder(queue[1..], gone, t, u);
      var a, b :| 0 <= a < b < |rest| && rest[a] == t && rest[b] == u;
      if queue[0] == gone {
        assert Without(queue, gone) == rest;
      } else {
        assert Without(queue, gone) == [queue[0]] + rest;
        assert ([queue[0]] + rest)[a + 1] == t && ([queue[0]] + rest)[b + 1] == u;
      }
    }
  }

  lemma HeadLeaves(queue: seq<Task>, t: Task, u: Task)
    requires Before(queue, t, u) && queue[0] != t
    ensures Before(queue[1..], t, u)
  {
    var i, j :| 0 <= i < j < |queue| && queue[i] == t && queue[j] == u;
    assert queue[1..][i - 1] == t && queue[1..][j - 1] == u;
  }

  lemma NewTailKeepsOrder(queue: seq<Task>, last: Task, t: Task, u: Task)
    requires Before(queue, t, u)
    ensures Before(queue + [last], t, u)
  {
    var i, j :| 0 <= i < j < |queue| && queue[i] == t && queue[j] == u;
    assert (queue + [last])[i] == t && (queue + [last])[j] == u;
  }

  /** Both wait for this entry, `t` in front of `u`. */
  ghost predicate WaitsBefore<E>(w: World<E>, e: E, t: Task, u: Task) {
    && PcOf(w, t).Waiting? && PcOf(w, t).entry == e && PcOf(w, u).Waiting? && PcOf(w, u).entry == e
    && e in w.coord.heap && Before(w.coord.heap[e].lock.queue, t, u)
  }

  lemma AcquireKeepsOrder<E>(w: World<E>, x: Task, e: E, t: Task, u: Task)
    requires Enabled(w, Acquire(x)) && WaitsBefore(w, e, t, u)
    ensures WaitsBefore(Do(w, Acquire(x)), e, t, u)
  {
    NewTailKeepsOrder(w.coord.heap[e].lock.queue, x, t, u);
  }

  lemma WakeKeepsOrder<E>(w: World<E>, x: Task, e: E, t: Task, u: Task)
    requires Enabled(w, Wake(x)) && WaitsBefore(w, e, t, u) && x != t && x != u
    ensures WaitsBefore(Do(w, Wake(x)), e, t, u)
  {
    if PcOf(w, x).entry == e {
      HeadLeaves(w.coord.heap[e].lock.queue, t, u);
    }
  }

  lemma GiveUpKeepsOrder<E>(w: World<E>, x: Task, e: E, t: Task, u: Task)
    requires Enabled(w, GiveUp(x)) && WaitsBefore(w, e, t, u) && x != t && x != u
    ensures WaitsBefore(Do(w, GiveUp(x)), e, t, u)
  {
    if PcOf(w, x).entry == e {
      WithoutKeepsOrder(w.coord.heap[e].lock.queue, x, t, u);
    }
  }

  lemma OthersKeepOrder<E>(w: World<E>, a: Action<E>, e: E, t: Task, u: Task)
    requires Enabled(w, a) && WaitsBefore(w, e, t, u) && (a.Enter? || a.Exit? || a.Drop?)
    ensures WaitsBefore(Do(w, a), e, t, u)
  {
  }

  lemma StepKeepsOrder<E>(w: World<E>, a: Action<E>, e: E, t: Task, u: Task)
    requires Enabled(w, a) && WaitsBefore(w, e, t, u) && PcOf(Do(w, a), t).Waiting? && PcOf(Do(w, a), u).Waiting?
    ensures WaitsBefore(Do(w, a), e, t, u)
  {
    match a
    case Acquire(x) => AcquireKeepsOrder(w, x, e, t, u);
    case Wake(x) => WakeKeepsOrder(w, x, e, t, u);
    case GiveUp(x) => GiveUpKeepsOrder(w, x, e, t, u);
    case _ => OthersKeepOrder(w, a, e, t, u);
  }

  lemma BehindMeansNotNext<E>(w: World<E>, e: E, t: Task, u: Task)
    requires Inv(w) && WaitsBefore(w, e, t, u)
    ensures !Enabled(w, Wake(u))
  {
    var lock := w.coord.heap[e].lock;
    assert LockOk(w.pcs, e, lock);
    var i, j :| 0 <= i < j < |lock.queue| && lock.queue[i] == t && lock.queue[j] == u;
    assert lock.queue[0] != lock.queue[j];
  }

  /** First come, first served: over any run, whoever waits behind another waits at least as long, unless
      that one gives up. */
  lemma {:induction false} FirstComeFirstServed<E>(ws: seq<World<E>>, actions: seq<Action<E>>, n: nat, m: nat, e: E, t: Task, u: Task)
    requires IsRun(ws, actions) && n <= m < |ws| && WaitsBefore(ws[n], e, t, u)
    requires forall k | n <= k <= m :: PcOf(ws[k], t).Waiting? && PcOf(ws[k], u).Waiting?
    ensures WaitsBefore(ws[m], e, t, u) && !Enabled(ws[m], Wake(u))
    decreases m - n
  {
    if n < m {
      FirstComeFirstServed(ws, actions, n, m - 1, e, t, u);
      StepKeepsOrder(ws[m - 1], actions[m - 1], e, t, u);
    }
    RunKeeps(ws, actions, m);
    BehindMeansNotNext(ws[m], e, t, u);
  }

  /** Where the other moves take a task: in after its turn, out after the body or when it gives up, and
      away once the reference is given back.  Nobody else is moved. */
  lemma PlacesMove<E>(ws: seq<World<E>>, actions: seq<Action<E>>, n: nat)
    requires IsRun(ws, actions) && n < |actions| && !actions[n].Enter? && !actions[n].Acquire?
    ensures var w := ws[n]; var v := ws[n + 1]; var t := actions[n].t;
      && (forall u | u != t :: PcOf(v, u) == PcOf(w, u))
      && match actions[n]
         case Wake(_) => PcOf(w, t).Waiting? && PcOf(v, t) == Inside(PcOf(w, t).session, PcOf(w, t).entry)
         case GiveUp(_) => PcOf(w, t).Waiting? && PcOf(v, t) == Leaving(PcOf(w, t).session, PcOf(w, t).entry)
         case Exit(_) => PcOf(w, t).Inside? && PcOf(v, t) == Leaving(PcOf(w, t).session, PcOf(w, t).entry)
         case Drop(_) => PcOf(w, t).Leaving? && PcOf(v, t) == Idle
         case _ => true
  {
    assert Enabled(ws[n], actions[n]);
  }
}
