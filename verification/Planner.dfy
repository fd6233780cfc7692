/** The semantic checks on a task plan, and the dependency-cycle check proved exact. */
module Planner {
  import opened Lists
  import opened Messages

  datatype PlanTask = PlanTask(id: string, goal: string, dependencies: seq<string>)

  function Ids(tasks: seq<PlanTask>): (ids: set<string>) {
    set t | t in tasks :: t.id
  }

  ghost predicate UniqueIds(tasks: seq<PlanTask>) {
    forall i, j | 0 <= i < j < |tasks| :: tasks[i].id != tasks[j].id
  }

  ghost predicate KnownDependencies(tasks: seq<PlanTask>) {
    forall t, d | t in tasks && d in t.dependencies :: d in Ids(tasks)
  }

  /** Task `a` depends on task `b`. */
  ghost predicate DependsOn(tasks: seq<PlanTask>, a: string, b: string) {
    exists t :: t in tasks && t.id == a && b in t.dependencies
  }

  /** Each stop of the walk depends on the next one. */
  ghost predicate IsWalk(tasks: seq<PlanTask>, walk: seq<string>) {
    forall i, j | 0 <= i < j < |walk| && j == i + 1 :: DependsOn(tasks, walk[i], walk[j])
  }

  /** A closed walk along dependencies. */
  ghost predicate IsCycle(tasks: seq<PlanTask>, walk: seq<string>) {
    && walk != []
    && IsWalk(tasks, walk)
    && DependsOn(tasks, walk[|walk| - 1], walk[0])
  }

  ghost predicate Acyclic(tasks: seq<PlanTask>) {
    !exists walk :: IsCycle(tasks, walk)
  }

  /** Every task once, each one after everything it depends on. */
  ghost predicate IsTopologicalOrder(tasks: seq<PlanTask>, order: seq<string>) {
    && (forall id :: id in order <==> id in Ids(tasks))
    && NoRepeats(order)
    && (forall i, d | 0 <= i < |order| && DependsOn(tasks, order[i], d) :: d in order[..i])
  }

  // ---- Order and cycle exclude each other ------------------------------------------------------

  lemma PositionOf(order: seq<string>, id: string) returns (i: nat)
    requires id in order
    ensures i < |order| && order[i] == id
  {
    i :| 0 <= i < |order| && order[i] == id;
  }

  /** Along a walk of dependencies positions in the order go down. */
  lemma {:induction false} WalkDescends(tasks: seq<PlanTask>, order: seq<string>, walk: seq<string>, n: nat)
    returns (first: nat, last: nat)
    requires IsTopologicalOrder(tasks, order) && IsCycle(tasks, walk) && n < |walk|
    ensures first < |order| && order[first] == walk[0]
    ensures last < |order| && order[last] == walk[n] && last + n <= first
  {
    if n == 0 {
      assert exists t :: t in tasks && t.id == walk[0] by {
        if |walk| == 1 {
          assert DependsOn(tasks, walk[0], walk[0]);
        } else {
          assert DependsOn(tasks, walk[0], walk[1]);
        }
      }
      first := PositionOf(order, walk[0]);
      last := first;
    } else {
      var before: nat;
      first, before := WalkDescends(tasks, order, walk, n - 1);
      assert DependsOn(tasks, order[before], walk[n]);
      last := PositionOf(order[..before], walk[n]);
    }
  }

  lemma OrderExcludesCycle(tasks: seq<PlanTask>, order: seq<string>, walk: seq<string>)
    requires IsTopologicalOrder(tasks, order)
    ensures !IsCycle(tasks, walk)
  {
    if IsCycle(tasks, walk) {
      var first, last := WalkDescends(tasks, order, walk, |walk| - 1);
    }
  }

  lemma OrderMeansAcyclic(tasks: seq<PlanTask>, order: seq<string>)
    requires IsTopologicalOrder(tasks, order)
    ensures Acyclic(tasks)
  {
    forall walk
      ensures !IsCycle(tasks, walk)
    {
      OrderExcludesCycle(tasks, order, walk);
    }
  }

  // ---- A set of stuck tasks holds a cycle ------------------------------------------------------

  ghost predicate IsStuck(tasks: seq<PlanTask>, stuck: set<string>, a: string) {
    exists b :: b in stuck && DependsOn(tasks, a, b)
  }

  /** From `start`, follow one unresolved dependency after the other. */
  lemma {:induction false} LongWalk(tasks: seq<PlanTask>, stuck: set<string>, start: string, n: nat) returns (walk: seq<string>)
    requires start in stuck
    requires forall a {:trigger IsStuck(tasks, stuck, a)} | a in stuck :: IsStuck(tasks, stuck, a)
    ensures |walk| == n + 1 && walk[0] == start
    ensures forall i | 0 <= i <= n :: walk[i] in stuck
    ensures IsWalk(tasks, walk)
  {
    if n == 0 {
      walk := [start];
    } else {
      var before := LongWalk(tasks, stuck, start, n - 1);
      assert IsStuck(tasks, stuck, before[n - 1]);
      var b :| b in stuck && DependsOn(tasks, before[n - 1], b);
      walk := before + [b];
    }
  }

  /** A walk longer than its set of stops passes through some stop twice. */
  lemma {:induction false} Pigeonhole(walk: seq<string>, stops: set<string>) returns (i: nat, j: nat)
    requires |walk| > |stops| && forall k | 0 <= k < |walk| :: walk[k] in stops
    ensures i < j < |walk| && walk[i] == walk[j]
    decreases |stops|
  {
    var last := |walk| - 1;
    if walk[last] in walk[..last] {
      i := PositionOf(walk[..last], walk[last]);
      j := last;
    } else {
      i, j := Pigeonhole(walk[..last], stops - {walk[last]});
    }
  }

  lemma StuckTasksHaveCycle(tasks: seq<PlanTask>, stuck: set<string>) returns (walk: seq<string>)
    requires stuck != {}
    requires forall a {:trigger IsStuck(tasks, stuck, a)} | a in stuck :: IsStuck(tasks, stuck, a)
    ensures IsCycle(tasks, walk)
  {
    var start :| start in stuck;
    var long := LongWalk(tasks, stuck, start, |stuck|);
    var i, j := Pigeonhole(long, stuck);
    walk := long[i..j];
    assert walk[0] == long[j] && walk[|walk| - 1] == long[j - 1];
  }

  // ---- The check -------------------------------------------------------------------------------

  function DependencySet(t: PlanTask): set<string> {
    set d | d in t.dependencies
  }

  /** `remaining` maps the unresolved tasks to their dependencies. */
  ghost predicate IsRemaining(tasks: seq<PlanTask>, remaining: map<string, set<string>>) {
    && remaining.Keys <= Ids(tasks)
    && forall a, b :: a in remaining && b in remaining[a] <==> a in remaining && DependsOn(tasks, a, b)
  }

  method CollectDependencies(tasks: seq<PlanTask>) returns (remaining: map<string, set<string>>)
    requires UniqueIds(tasks)
    ensures remaining.Keys == Ids(tasks) && IsRemaining(tasks, remaining)
  {
    remaining := map[];
    for i := 0 to |tasks|
      invariant remaining.Keys == Ids(tasks[..i])
      invariant forall k | 0 <= k < i :: tasks[k].id in remaining && remaining[tasks[k].id] == DependencySet(tasks[k])
    {
      remaining := remaining[tasks[i].id := DependencySet(tasks[i])];
      assert tasks[..i + 1] == tasks[..i] + [tasks[i]];
    }
    assert tasks[..|tasks|] == tasks;
    forall a, b
      ensures a in remaining && b in remaining[a] <==> a in remaining && DependsOn(tasks, a, b)
    {
      if a in remaining {
        var k :| 0 <= k < |tasks| && tasks[k].id == a;
        assert remaining[a] == DependencySet(tasks[k]);
        assert forall t | t in tasks && t.id == a :: t == tasks[k];
      }
    }
  }

  /** What a pass over `remaining` finds ready: in task order, each id at most once. */
  method FindReady(tasks: seq<PlanTask>, remaining: map<string, set<string>>, resolved: set<string>)
    returns (ready: seq<string>)
    requires UniqueIds(tasks) && remaining.Keys <= Ids(tasks)
    ensures forall id :: id in ready <==> id in remaining && remaining[id] <= resolved
    ensures NoRepeats(ready)
  {
    ready := [];
    for i := 0 to |tasks|
      invariant forall id :: id in ready <==> id in Ids(tasks[..i]) && id in remaining && remaining[id] <= resolved
      invariant NoRepeats(ready)
    {
      var id := tasks[i].id;
      assert tasks[..i + 1] == tasks[..i] + [tasks[i]];
      assert id !in Ids(tasks[..i]);
      if id in remaining && remaining[id] <= resolved {
        ready := ready + [id];
      }
    }
    assert tasks[..|tasks|] == tasks;
  }

  /** The tasks resolved so far, in the order in which they were resolved. */
  ghost predicate IsResolved(tasks: seq<PlanTask>, remaining: map<string, set<string>>, order: seq<string>) {
    && (forall id :: id in order <==> id in Ids(tasks) && id !in remaining)
    && NoRepeats(order)
    && (forall i, d | 0 <= i < |order| && DependsOn(tasks, order[i], d) :: d in order[..i])
  }

  ghost predicate IsReady(remaining: map<string, set<string>>, order: seq<string>, id: string) {
    id in remaining && forall d | d in remaining[id] :: d in order
  }

  /** Moving a ready task from the remaining to the resolved ones. */
  lemma ResolveOne(tasks: seq<PlanTask>, remaining: map<string, set<string>>, order: seq<string>, id: string)
    requires IsRemaining(tasks, remaining) && IsResolved(tasks, remaining, order)
    requires IsReady(remaining, order, id)
    ensures IsRemaining(tasks, remaining - {id}) && IsResolved(tasks, remaining - {id}, order + [id])
  {
    var after := order + [id];
    assert after[..|order|] == order;
    forall i, d | 0 <= i < |after| && DependsOn(tasks, after[i], d)
      ensures d in after[..i]
    {
      if i < |order| {
        assert after[..i] == order[..i];
      }
    }
  }

  lemma BlockedIsStuck(tasks: seq<PlanTask>, remaining: map<string, set<string>>, order: seq<string>, id: string)
    requires KnownDependencies(tasks)
    requires IsRemaining(tasks, remaining) && IsResolved(tasks, remaining, order)
    requires id in remaining && !IsReady(remaining, order, id)
    ensures IsStuck(tasks, remaining.Keys, id)
  {
    var d :| d in remaining[id] && d !in order;
    assert DependsOn(tasks, id, d);
  }

  /** When no remaining task is ready, some of them wait for each other in a circle. */
  lemma NothingReady(tasks: seq<PlanTask>, remaining: map<string, set<string>>, order: seq<string>) returns (cycle: seq<string>)
    requires KnownDependencies(tasks) && remaining.Keys != {}
    requires IsRemaining(tasks, remaining) && IsResolved(tasks, remaining, order)
    requires forall id {:trigger IsReady(remaining, order, id)} | id in remaining :: !IsReady(remaining, order, id)
    ensures IsCycle(tasks, cycle)
  {
    forall id {:trigger IsStuck(tasks, remaining.Keys, id)} | id in remaining.Keys
      ensures IsStuck(tasks, remaining.Keys, id)
    {
      BlockedIsStuck(tasks, remaining, order, id);
    }
    cycle := StuckTasksHaveCycle(tasks, remaining.Keys);
  }

  /**
   * Accepts exactly the plans without a dependency cycle: `order` is a topological order of an
   * accepted plan, `cycle` a dependency cycle of a refused one.
   */
  method ValidateNoDependencyCycle(tasks: seq<PlanTask>) returns (accepted: bool, ghost order: seq<string>, ghost cycle: seq<string>)
    requires UniqueIds(tasks) && KnownDependencies(tasks)
    ensures accepted ==> IsTopologicalOrder(tasks, order)
    ensures !accepted ==> IsCycle(tasks, cycle)
    ensures accepted <==> Acyclic(tasks)
  {
    var remaining := CollectDependencies(tasks);
    var resolved: set<string> := {};
    order, cycle := [], [];
    while remaining.Keys != {}
      invariant IsRemaining(tasks, remaining) && IsResolved(tasks, remaining, order)
      invariant forall id :: id in resolved <==> id in order
      decreases |remaining|
    {
      var ready := FindReady(tasks, remaining, resolved);
      if ready == [] {
        assert forall id | id in remaining :: id !in ready;
        cycle := NothingReady(tasks, remaining, order);
        return false, order, cycle;
      }
      ghost var size := |remaining|;
      for k := 0 to |ready|
        invariant IsRemaining(tasks, remaining) && IsResolved(tasks, remaining, order)
        invariant forall id :: id in resolved <==> id in order
        invariant forall i | k <= i < |ready| :: ready[i] in remaining && remaining[ready[i]] <= resolved
        invariant |remaining| == size - k
      {
        ResolveOne(tasks, remaining, order, ready[k]);
        resolved := resolved + {ready[k]};
        order := order + [ready[k]];
        var next := remaining - {ready[k]};
        assert next.Keys == remaining.Keys - {ready[k]};
        remaining := next;
      }
    }
    accepted := true;
    OrderMeansAcyclic(tasks, order);
  }

  // ---- The semantic checks ---------------------------------------------------------------------

  datatype Outcome =
    | Accepted
    | DuplicateIds
    | UnknownDependencies(taskId: string, unknown: set<string>)
    | SelfDependency(taskId: string)
    | DependencyCycle

  /** The one complaint, if any, about a task on its own. */
  function TaskComplaint(task: PlanTask, known: set<string>): Option<Outcome> {
    if DependencySet(task) - known != {} then
      Some(UnknownDependencies(task.id, DependencySet(task) - known))
    else if task.id in task.dependencies then
      Some(SelfDependency(task.id))
    else
      None
  }

  lemma NoComplaint(task: PlanTask, known: set<string>)
    requires TaskComplaint(task, known) == None
    ensures forall d | d in task.dependencies :: d in known
  {
    forall d | d in task.dependencies
      ensures d in known
    {
      assert d in DependencySet(task);
      assert d in DependencySet(task) - known || d in known;
    }
  }

  lemma ComplaintIsJustified(tasks: seq<PlanTask>, i: nat)
    requires i < |tasks| && TaskComplaint(tasks[i], Ids(tasks)).Some?
    ensures var complaint := TaskComplaint(tasks[i], Ids(tasks)).value;
      if complaint.UnknownDependencies? then !KnownDependencies(tasks) else complaint.SelfDependency? && IsCycle(tasks, [complaint.taskId])
  {
    var t := tasks[i];
    if DependencySet(t) - Ids(tasks) != {} {
      var d :| d in DependencySet(t) - Ids(tasks);
      assert t in tasks && d in t.dependencies && d !in Ids(tasks);
    } else {
      assert DependsOn(tasks, t.id, t.id);
    }
  }

  /** The checks after the parse. A plan passes exactly when it is a dependency graph without cycle. */
  method CheckTaskPlan(tasks: seq<PlanTask>) returns (outcome: Outcome)
    ensures outcome == Accepted <==> UniqueIds(tasks) && KnownDependencies(tasks) && Acyclic(tasks)
    ensures outcome == DuplicateIds <==> !UniqueIds(tasks)
    ensures outcome.UnknownDependencies? ==> !KnownDependencies(tasks) && outcome.unknown !! Ids(tasks) && outcome.unknown != {}
    ensures outcome.SelfDependency? ==> IsCycle(tasks, [outcome.taskId])
    ensures outcome.UnknownDependencies? || outcome.SelfDependency? ==>
      exists i | 0 <= i < |tasks| :: TaskComplaint(tasks[i], Ids(tasks)) == Some(outcome) && forall j | 0 <= j < i :: TaskComplaint(tasks[j], Ids(tasks)) == None
    ensures outcome == DependencyCycle ==> UniqueIds(tasks) && KnownDependencies(tasks) && !Acyclic(tasks)
  {
    var known: set<string> := {};
    for i := 0 to |tasks|
      invariant known == Ids(tasks[..i])
      invariant forall k, l | 0 <= k < l < i :: tasks[k].id != tasks[l].id
    {
      if tasks[i].id in known {
        return DuplicateIds;
      }
      known := known + {tasks[i].id};
      assert tasks[..i + 1] == tasks[..i] + [tasks[i]];
    }
    assert tasks[..|tasks|] == tasks;
    for i := 0 to |tasks|
      invariant forall j | 0 <= j < i :: TaskComplaint(tasks[j], known) == None
    {
      var complaint := TaskComplaint(tasks[i], known);
      if complaint.Some? {
        ComplaintIsJustified(tasks, i);
        return complaint.value;
      }
    }
    forall i | 0 <= i < |tasks|
      ensures forall d | d in tasks[i].dependencies :: d in known
    {
      NoComplaint(tasks[i], known);
    }
    ghost var order, cycle;
    var accepted: bool;
    accepted, order, cycle := ValidateNoDependencyCycle(tasks);
    return if accepted then Accepted else DependencyCycle;
  }

}
