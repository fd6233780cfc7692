/** Stopping by force does kill: nothing waits for a process to go that nobody has killed. */
module WorkerStops {
  import opened Messages
  import opened ProcessEmbeddings
  import opened WorkerSafety

  ghost predicate Killed(c: Client) {
    HasProcess(c) ==> Current(c).status != Running
  }

  /** Waiting after a kill. */
  predicate WaitsForKill(o: Owner) {
    PhaseOf(o) == Some(Killing) || o.CloseInterrupted?
  }

  ghost predicate WaitsOnlyForKilled(c: Client) {
    WaitsForKill(c.owner) ==> Killed(c)
  }

  lemma AbortKills(c: Client, shielded: bool)
    ensures Killed(Abort(c, shielded))
  {
  }

  lemma TalkKills(c: Client, a: Action)
    requires Enabled(c, a) && IsTalk(a)
    ensures WaitsOnlyForKilled(Do(c, a))
  {
    match a
    case ReadReady(_) => AbortKills(SetCurrent(c, Current(c).(stdout := Current(c).stdout[1..])), false);
    case SendRequest(_, _) => AbortKills(c.(state := Busy, nextId := c.nextId + 1), false);
    case ReadReply => AbortKills(SetCurrent(c, Current(c).(stdout := Current(c).stdout[1..])), false);
    case Fail(canceled) => AbortKills(c, canceled);
    case Drained =>
    case PipeError =>
  }

  lemma CallKills(c: Client, a: Action)
    requires WaitsOnlyForKilled(c) && Enabled(c, a) && IsCallMove(a) && !IsTalk(a)
    ensures WaitsOnlyForKilled(Do(c, a))
  {
  }

  lemma WorkerStaysKilled(c: Client, a: Action)
    requires WaitsOnlyForKilled(c) && Enabled(c, a) && IsWorkerMove(a)
    ensures WaitsOnlyForKilled(Do(c, a))
  {
  }

  lemma StopKills(c: Client, a: Action)
    requires WaitsOnlyForKilled(c) && Enabled(c, a) && !IsCallMove(a) && !IsWorkerMove(a)
    ensures WaitsOnlyForKilled(Do(c, a))
  {
  }

  lemma StepKills(c: Client, a: Action)
    requires WaitsOnlyForKilled(c) && Enabled(c, a)
    ensures WaitsOnlyForKilled(Do(c, a))
  {
    if IsWorkerMove(a) {
      WorkerStaysKilled(c, a);
    } else if IsTalk(a) {
      TalkKills(c, a);
    } else if IsCallMove(a) {
      CallKills(c, a);
    } else {
      StopKills(c, a);
    }
  }

  lemma {:induction false} RunKills(cs: seq<Client>, actions: seq<Action>, n: nat)
    requires IsRun(cs, actions) && n < |cs|
    ensures WaitsOnlyForKilled(cs[n])
  {
    if n > 0 {
      RunKills(cs, actions, n - 1);
      StepKills(cs[n - 1], actions[n - 1]);
    }
  }

  /** Main result: in every run, whoever waits for a process after a kill waits for one that is ending, and
      a close that loses patience or is cancelled has killed the process there is. */
  lemma ForceKills(cs: seq<Client>, actions: seq<Action>, n: nat)
    requires IsRun(cs, actions) && n < |actions|
    ensures WaitsForKill(cs[n].owner) ==> Killed(cs[n])
    ensures actions[n].CloseKill? || actions[n].CloseWaitCanceled? ==> Killed(cs[n + 1])
  {
    RunKills(cs, actions, n);
    assert Enabled(cs[n], actions[n]);
  }
}
