/** What holds in every run of the embedding client with its workers. */
module WorkerSafety {
  import opened Messages
  import opened EmbeddingWorker
  import opened ProcessEmbeddings

  // ---- The invariant ---------------------------------------------------------------------------

  /** Nothing is in flight and the worker is ready for a request. */
  predicate PipesIdle(p: Proc, dimension: nat) {
    p.serving == Serving(dimension) && p.stdin == [] && p.stdout == []
  }

  /** The worker is loading, or has announced itself, or has reported that it could not load. */
  predicate PipesStarting(p: Proc, generation: nat) {
    && p.stdin == []
    && match p.serving
       case Loading => p.stdout == [] || (p.status != Running && |p.stdout| == 1 && p.stdout[0].Failure?)
       case Serving(dimension) =>
         |p.stdout| == 1 && p.stdout[0].ReadyMessage?
         && p.stdout[0].generation == generation && p.stdout[0].dimension == dimension
       case Working(_, _) => false
  }

  /** Exactly one thing is in flight: the request, the work on it, or its answer. */
  ghost predicate PipesBusy(p: Proc, request: Request, dimension: nat) {
    match p.serving
    case Loading => false
    case Working(r, d) => r == request && d == dimension && p.stdin == [] && p.stdout == []
    case Serving(d) =>
      && d == dimension
      && ((p.stdin == [request] && p.stdout == [])
          || (p.stdin == [] && |p.stdout| == 1 && Answers(request, dimension, p.stdout[0])))
  }

  /** The recorded process is the current generation's, and every other one is gone. */
  ghost predicate OneProcess(c: Client) {
    && (forall g | g in c.procs :: g <= c.generation && (c.procs[g].status != Reaped ==> c.process == Some(g)))
    && (c.process.Some? ==> c.process.value in c.procs && c.process.value == c.generation)
    && (c.owner.Spawning? ==> c.process.None? && c.generation !in c.procs)
    && (c.owner.AwaitingReady? || c.owner.Started? || c.owner.Writing? || c.owner.AwaitingReply? ==> c.process.Some?)
    && (match PhaseOf(c.owner)
        case None => true
        case Some(phase) => phase.Draining? <==> c.process.None?)
  }

  /** What is in the pipes follows from where the lock's owner is. */
  ghost predicate PipesMatch(c: Client)
    requires c.process.Some? ==> HasProcess(c)
  {
    && (c.owner.AwaitingReady? && c.process.Some? ==> PipesStarting(Current(c), c.generation))
    && (c.owner.Started? && c.process.Some? ==> c.dimension.Some? && PipesIdle(Current(c), c.dimension.value))
    && (c.owner.Writing? && c.process.Some? ==>
          c.dimension.Some? && c.owner.request.generation == c.generation
          && PipesBusy(Current(c), c.owner.request, c.dimension.value))
    && (c.owner.AwaitingReply? && c.process.Some? ==>
          c.dimension.Some? && c.owner.request.generation == c.generation
          && PipesBusy(Current(c), c.owner.request, c.dimension.value))
  }

  /** READY is only recorded for a process with nothing in flight and a known dimension. */
  ghost predicate ReadyMeansIdle(c: Client)
    requires c.process.Some? ==> HasProcess(c)
  {
    && (c.state == Ready && c.process.Some? ==> c.dimension.Some? && PipesIdle(Current(c), c.dimension.value))
    && (c.state == Ready ==>
          !Talking(c.owner) && !c.owner.Aborting? && !c.owner.Closing?
          && (c.owner.StoppingOld? ==> c.owner.phase.Draining?))
  }

  /** Whatever waits to be read by the worker was written for its own generation. */
  ghost predicate StdinOk(c: Client)
    requires c.process.Some? ==> HasProcess(c)
  {
    c.process.Some? ==> forall r | r in Current(c).stdin :: r.generation == c.process.value
  }

  ghost predicate CloseOk(c: Client) {
    && (c.closed ==> c.closeRequested
                     && (c.owner.Free? || c.owner.Entered? || c.owner.Closing? || c.owner.CloseInterrupted?))
    && (c.owner.Closing? || c.owner.CloseInterrupted? ==> c.closed)
    && (c.state == Closed ==> c.closed && c.process.None? && !c.owner.Closing? && !c.owner.CloseInterrupted?)
    && (c.closeReturned ==> c.closed && c.process.None?)
  }

  function DimensionOf(p: Proc): Option<nat> {
    match p.serving
    case Loading => None
    case Serving(d) => Some(d)
    case Working(_, d) => Some(d)
  }

  /** Every result handed out answers its own request, in the dimension announced by the process
      of that request's generation. */
  ghost predicate Matched(procs: map<nat, Proc>, d: Delivery) {
    && d.response.Result? && d.request.generation in procs
    && DimensionOf(procs[d.request.generation]).Some?
    && Answers(d.request, DimensionOf(procs[d.request.generation]).value, d.response)
  }

  ghost predicate Inv(c: Client) {
    && OneProcess(c) && PipesMatch(c) && ReadyMeansIdle(c) && StdinOk(c) && CloseOk(c)
    && forall d | d in c.delivered :: Matched(c.procs, d)
  }

  // ---- Every step keeps it ---------------------------------------------------------------------

  /** Processes only move on: none disappears, and an announced dimension stays. */
  ghost predicate ProcsGrow(before: map<nat, Proc>, after: map<nat, Proc>) {
    forall g | g in before :: g in after && (DimensionOf(before[g]).Some? ==> DimensionOf(after[g]) == DimensionOf(before[g]))
  }

  lemma MatchedStays(before: map<nat, Proc>, after: map<nat, Proc>, ds: seq<Delivery>)
    requires ProcsGrow(before, after) && forall d | d in ds :: Matched(before, d)
    ensures forall d | d in ds :: Matched(after, d)
  {
  }

  lemma AbortKeeps(c: Client, shielded: bool)
    requires OneProcess(c) && StdinOk(c) && (c.owner.Spawning? || c.process.Some?) && c.state != Ready
    requires CloseOk(c) && !c.closed && c.state != Closed
    requires forall d | d in c.delivered :: Matched(c.procs, d)
    ensures Inv(Abort(c, shielded))
  {
    MatchedStays(c.procs, Abort(c, shielded).procs, c.delivered);
  }

  lemma CallsKeep(c: Client, a: Action)
    requires Inv(c) && Enabled(c, a) && (a.Enter? || a.CheckOpen? || a.Spawn? || a.Drained? || a.Fail? || a.PipeError?)
    ensures Inv(Do(c, a))
  {
    if a.Fail? {
      AbortKeeps(c, a.canceled);
    } else {
      MatchedStays(c.procs, Do(c, a).procs, c.delivered);
    }
  }

  lemma KillKeeps(c: Client)
    requires Inv(c)
    ensures Inv(Kill(c)) && Kill(c).(procs := c.procs) == c
    ensures c.process.Some? ==> Current(Kill(c)).(status := Current(c).status) == Current(c)
  {
    MatchedStays(c.procs, Kill(c).procs, c.delivered);
  }

  /** Replacing: the old process is unusable, and READY survives only if it is gone already. */
  lemma DecideStops(c: Client)
    requires Inv(c) && Enabled(c, Decide) && c.process.Some? && !(c.state == Ready && Current(c).status != Reaped)
    ensures Inv(Do(c, Decide))
  {
    KillKeeps(c);
    MatchedStays(c.procs, Do(c, Decide).procs, c.delivered);
  }

  lemma DecideKeeps(c: Client)
    requires Inv(c) && Enabled(c, Decide)
    ensures Inv(Do(c, Decide))
  {
    if c.process.Some? && !(c.state == Ready && Current(c).status != Reaped) {
      DecideStops(c);
    }
  }

  lemma ReadReadyKeeps(c: Client, versionOk: bool)
    requires Inv(c) && Enabled(c, ReadReady(versionOk))
    ensures Inv(Do(c, ReadReady(versionOk)))
  {
    var read := SetCurrent(c, Current(c).(stdout := Current(c).stdout[1..]));
    MatchedStays(c.procs, read.procs, c.delivered);
    var r := Current(c).stdout[0];
    if !(r.ReadyMessage? && r.generation == c.generation && versionOk) {
      AbortKeeps(read, false);
    }
  }

  lemma WriteKeeps(c: Client, texts: seq<string>)
    requires Inv(c) && c.owner == Started(Embed(texts)) && Current(c).status != Reaped
    ensures Inv(DoSend(c, true, true))
  {
    MatchedStays(c.procs, DoSend(c, true, true).procs, c.delivered);
  }

  lemma WriteFails(c: Client, fits: bool)
    requires Inv(c) && c.owner.Started? && c.owner.op.Embed? && (Current(c).status == Reaped || !fits)
    ensures Inv(DoSend(c, true, fits))
  {
    AbortKeeps(c.(state := Busy, nextId := c.nextId + 1), false);
  }

  lemma SendKeeps(c: Client, valid: bool, fits: bool)
    requires Inv(c) && Enabled(c, SendRequest(valid, fits))
    ensures Inv(Do(c, SendRequest(valid, fits)))
  {
    if c.owner.op.Embed? && valid {
      if Current(c).status == Reaped || !fits {
        WriteFails(c, fits);
      } else {
        WriteKeeps(c, c.owner.op.texts);
      }
    }
  }

  /** The reply at hand passes every check but the worker's own report of failure. */
  lemma ReplyPassesChecks(c: Client)
    requires Inv(c) && Enabled(c, ReadReply)
    ensures c.dimension.Some? && Current(c).stdout == [Current(c).stdout[0]]
    ensures Answers(c.owner.request, c.dimension.value, Current(c).stdout[0])
    ensures Check(c, c.owner.request, Current(c).stdout[0]) != Mismatch
  {
  }

  lemma ReadReplyKeeps(c: Client)
    requires Inv(c) && Enabled(c, ReadReply)
    ensures Inv(Do(c, ReadReply))
  {
    ReplyPassesChecks(c);
    MatchedStays(c.procs, Do(c, ReadReply).procs, c.delivered);
  }

  lemma StopProgressKeeps(c: Client, a: Action)
    requires Inv(c) && Enabled(c, a) && (a.StopExited? || a.StopDrained?)
    ensures Inv(Do(c, a))
  {
    MatchedStays(c.procs, Do(c, a).procs, c.delivered);
  }

  lemma StopTimedOutKeeps(c: Client, a: Action)
    requires Inv(c) && Enabled(c, a) && (a.StopTimedOut?)
    ensures Inv(Do(c, a))
  {
    KillKeeps(c);
  }

  lemma StopCanceledKeeps(c: Client, a: Action)
    requires Inv(c) && Enabled(c, a) && (a.StopCanceled?)
    ensures Inv(Do(c, a))
  {
    KillKeeps(c);
  }

  lemma CloseKeeps(c: Client, a: Action)
    requires Inv(c) && Enabled(c, a) && (a.CloseCall? || a.CloseEnter? || a.CloseInterruptDone?)
    ensures Inv(Do(c, a))
  {
    MatchedStays(c.procs, Do(c, a).procs, c.delivered);
  }

  lemma CloseInterruptKeeps(c: Client, a: Action)
    requires Inv(c) && Enabled(c, a) && (a.CloseKill? || a.CloseWaitCanceled?)
    ensures Inv(Do(c, a))
  {
    KillKeeps(c);
  }

  lemma LoadKeeps(c: Client, a: Action)
    requires Inv(c) && Enabled(c, a) && (a.Load? || a.LoadFail?)
    ensures Inv(Do(c, a))
  {
    MatchedStays(c.procs, Do(c, a).procs, c.delivered);
  }

  /** The worker never meets a request of another generation. */
  lemma TakeKeeps(c: Client)
    requires Inv(c) && Enabled(c, Take)
    ensures Current(c).stdin[0].generation == c.process.value
    ensures Inv(Do(c, Take))
  {
    MatchedStays(c.procs, Do(c, Take).procs, c.delivered);
  }

  lemma ReplyKeeps(c: Client, a: Action)
    requires Inv(c) && Enabled(c, a) && (a.Reply?)
    ensures Inv(Do(c, a))
  {
    MatchedStays(c.procs, Do(c, a).procs, c.delivered);
  }

  lemma ProcessExitKeeps(c: Client, a: Action)
    requires Inv(c) && Enabled(c, a) && (a.ProcExit?)
    ensures Inv(Do(c, a))
  {
    MatchedStays(c.procs, Do(c, a).procs, c.delivered);
  }

  lemma ReapKeeps(c: Client, a: Action)
    requires Inv(c) && Enabled(c, a) && (a.Reap?)
    ensures Inv(Do(c, a))
  {
    MatchedStays(c.procs, Do(c, a).procs, c.delivered);
  }

  lemma StepKeeps(c: Client, a: Action)
    requires Inv(c) && Enabled(c, a)
    ensures Inv(Do(c, a))
  {
    match a
    case Decide => DecideKeeps(c);
    case ReadReady(versionOk) => ReadReadyKeeps(c, versionOk);
    case SendRequest(valid, fits) => SendKeeps(c, valid, fits);
    case ReadReply => ReadReplyKeeps(c);
    case StopExited => StopProgressKeeps(c, a);
    case StopDrained => StopProgressKeeps(c, a);
    case StopTimedOut => StopTimedOutKeeps(c, a);
    case StopCanceled => StopCanceledKeeps(c, a);
    case CloseCall => CloseKeeps(c, a);
    case CloseEnter => CloseKeeps(c, a);
    case CloseInterruptDone => CloseKeeps(c, a);
    case CloseKill => CloseInterruptKeeps(c, a);
    case CloseWaitCanceled => CloseInterruptKeeps(c, a);
    case Load(_, _) => LoadKeeps(c, a);
    case LoadFail => LoadKeeps(c, a);
    case Take => TakeKeeps(c);
    case Reply(_, _) => ReplyKeeps(c, a);
    case ProcExit => ProcessExitKeeps(c, a);
    case Reap => ReapKeeps(c, a);
    case _ => CallsKeep(c, a);
  }

  // ---- All runs --------------------------------------------------------------------------------

  /** A finite prefix of a run: any enabled action may come next. */
  ghost predicate IsRun(cs: seq<Client>, actions: seq<Action>) {
    && |cs| == |actions| + 1 && cs[0] == Fresh()
    && forall i {:trigger actions[i]} | 0 <= i < |actions| :: Enabled(cs[i], actions[i]) && cs[i + 1] == Do(cs[i], actions[i])
  }

  lemma {:induction false} RunKeeps(cs: seq<Client>, actions: seq<Action>, n: nat)
    requires IsRun(cs, actions) && n < |cs|
    ensures Inv(cs[n])
  {
    if n > 0 {
      RunKeeps(cs, actions, n - 1);
      StepKeeps(cs[n - 1], actions[n - 1]);
    }
  }

  // ---- Requests meet their own answers ---------------------------------------------------------

  /** Main result: whenever a reply is there to be read it answers the very request the caller
      waits for, so none of the client's protocol checks ever fires; nor does the worker's. */
  lemma ChecksNeverFire(cs: seq<Client>, actions: seq<Action>, n: nat)
    requires IsRun(cs, actions) && n < |cs|
    ensures var c := cs[n];
            && (Enabled(c, ReadReply) ==>
                  c.dimension.Some? && Current(c).stdout == [Current(c).stdout[0]]
                  && Answers(c.owner.request, c.dimension.value, Current(c).stdout[0])
                  && Check(c, c.owner.request, Current(c).stdout[0]) != Mismatch)
            && (Enabled(c, Take) ==> Current(c).stdin[0].generation == c.process.value)
  {
    RunKeeps(cs, actions, n);
    if Enabled(cs[n], ReadReply) {
      ReplyPassesChecks(cs[n]);
    }
    if Enabled(cs[n], Take) {
      TakeKeeps(cs[n]);
    }
  }

  /** What callers receive: results that carry their request's id and generation, one vector per
      text, each of the dimension that generation's worker announced. */
  lemma DeliveriesAreMatched(cs: seq<Client>, actions: seq<Action>, n: nat, d: Delivery)
    requires IsRun(cs, actions) && n < |cs| && d in cs[n].delivered
    ensures Matched(cs[n].procs, d)
  {
    RunKeeps(cs, actions, n);
  }

  /** A worker is reused only with its announced dimension on record and nothing in flight. */
  lemma ReuseIsClean(cs: seq<Client>, actions: seq<Action>, n: nat)
    requires IsRun(cs, actions) && n < |cs| && Enabled(cs[n], Decide) && Do(cs[n], Decide).owner.Started?
    ensures var c := cs[n];
            HasProcess(c) && c.dimension.Some? && PipesIdle(Current(c), c.dimension.value)
            && Current(c).status != Reaped
  {
    RunKeeps(cs, actions, n);
  }

  // ---- One worker at a time --------------------------------------------------------------------

  lemma AtMostOneWorker(cs: seq<Client>, actions: seq<Action>, n: nat, g: nat, h: nat)
    requires IsRun(cs, actions) && n < |cs|
    requires g in cs[n].procs && h in cs[n].procs && cs[n].procs[g].status != Reaped && cs[n].procs[h].status != Reaped
    ensures g == h && cs[n].process == Some(g) && g == cs[n].generation
  {
    RunKeeps(cs, actions, n);
  }

  /** A process is forgotten only when it is gone, and a new one appears only when every earlier
      one is gone, under a generation above all of theirs. */
  ghost predicate TakesTurns(c: Client, d: Client) {
    && (c.process.Some? && d.process != c.process ==>
          d.process.None? && c.process.value in c.procs && c.procs[c.process.value].status == Reaped)
    && (forall g | g in d.procs && g !in c.procs ::
          d.process == Some(g) && forall h | h in c.procs :: h < g && c.procs[h].status == Reaped)
    && c.generation <= d.generation <= c.generation + 1
  }

  lemma SpawnTakesTurns(c: Client)
    requires Inv(c) && Enabled(c, Spawn)
    ensures TakesTurns(c, Do(c, Spawn))
  {
    assert forall h | h in c.procs :: c.procs[h].status == Reaped && h != c.generation;
  }

  predicate IsCallMove(a: Action) {
    a.Enter? || a.CheckOpen? || a.Decide? || a.Spawn? || a.ReadReady? || a.SendRequest? || a.Drained? || a.ReadReply? || a.Fail? || a.PipeError?
  }

  predicate IsTalk(a: Action) {
    a.ReadReady? || a.SendRequest? || a.Drained? || a.ReadReply? || a.Fail? || a.PipeError?
  }

  /** A conversation with a worker starts nothing, and forgets its process only if that is gone. */
  ghost predicate TalkedOnly(c: Client, d: Client) {
    && d.procs.Keys == c.procs.Keys && d.generation == c.generation && d.closeRequested == c.closeRequested
    && d.closed == c.closed && d.closeReturned == c.closeReturned && c.delivered <= d.delivered && d.answered == c.answered
    && !d.owner.Entered? && !d.owner.Opened? && !d.owner.StoppingOld?
    && (d.process == c.process || (d.process.None? && (HasProcess(c) ==> Current(c).status == Reaped)))
  }

  lemma AbortTalks(c: Client, shielded: bool)
    ensures TalkedOnly(c, Abort(c, shielded))
  {
  }

  lemma ReadReadyTalks(c: Client, versionOk: bool)
    requires Enabled(c, ReadReady(versionOk))
    ensures TalkedOnly(c, Do(c, ReadReady(versionOk)))
  {
    AbortTalks(SetCurrent(c, Current(c).(stdout := Current(c).stdout[1..])), false);
  }

  lemma TalkedSinceBusy(c: Client, nextId: nat, d: Client)
    requires TalkedOnly(c.(state := Busy, nextId := nextId), d)
    ensures TalkedOnly(c, d)
  {
  }

  lemma FailedWriteTalks(c: Client, nextId: nat)
    ensures TalkedOnly(c, Abort(c.(state := Busy, nextId := nextId), false))
  {
    AbortTalks(c.(state := Busy, nextId := nextId), false);
    TalkedSinceBusy(c, nextId, Abort(c.(state := Busy, nextId := nextId), false));
  }

  lemma WriteTalks(c: Client, request: Request)
    requires HasProcess(c) && Current(c).status != Reaped
    ensures TalkedOnly(c, WriteTo(c, request, true))
  {
  }

  lemma SubmitTalks(c: Client, texts: seq<string>, fits: bool)
    ensures TalkedOnly(c, Submitted(c, texts, fits))
  {
    if HasProcess(c) && Current(c).status != Reaped && fits {
      WriteTalks(c.(state := Busy, nextId := c.nextId + 1), Request(c.generation, c.nextId, texts));
      TalkedSinceBusy(c, c.nextId + 1, Submitted(c, texts, fits));
    } else {
      FailedWriteTalks(c, c.nextId + 1);
    }
  }

  lemma ReadReplyTalks(c: Client)
    requires Enabled(c, ReadReply)
    ensures TalkedOnly(c, Do(c, ReadReply))
  {
    AbortTalks(SetCurrent(c, Current(c).(stdout := Current(c).stdout[1..])), false);
  }

  lemma TalkStep(c: Client, a: Action)
    requires Enabled(c, a) && IsTalk(a)
    ensures TalkedOnly(c, Do(c, a))
  {
    match a
    case ReadReady(versionOk) => ReadReadyTalks(c, versionOk);
    case SendRequest(_, fits) =>
      if c.owner.op.Embed? {
        SubmitTalks(c, c.owner.op.texts, fits);
      }
    case ReadReply => ReadReplyTalks(c);
    case Fail(canceled) => AbortTalks(c, canceled);
    case Drained =>
    case PipeError =>
  }

  lemma TalkTakesTurns(c: Client, d: Client)
    requires OneProcess(c) && TalkedOnly(c, d)
    ensures TakesTurns(c, d)
  {
    assert forall g | g in d.procs :: g in d.procs.Keys;
  }

  lemma CallTakesTurns(c: Client, a: Action)
    requires Inv(c) && Enabled(c, a) && IsCallMove(a) && !a.Spawn?
    ensures TakesTurns(c, Do(c, a))
  {
    if IsTalk(a) {
      TalkStep(c, a);
      TalkTakesTurns(c, Do(c, a));
    } else {
      assert Do(c, a).procs.Keys == c.procs.Keys;
    }
  }

  predicate IsWorkerMove(a: Action) {
    a.Load? || a.LoadFail? || a.Take? || a.Reply? || a.ProcExit? || a.Reap?
  }

  /** The worker moves on its own pipes only. */
  lemma WorkerMovesOnly(c: Client, a: Action)
    requires Enabled(c, a) && IsWorkerMove(a)
    ensures Do(c, a).(procs := c.procs, answered := c.answered) == c && Do(c, a).procs.Keys == c.procs.Keys
  {
  }

  lemma StepTakesTurns(c: Client, a: Action)
    requires Inv(c) && Enabled(c, a)
    ensures TakesTurns(c, Do(c, a))
  {
    if a.Spawn? {
      SpawnTakesTurns(c);
    } else if IsCallMove(a) {
      CallTakesTurns(c, a);
    } else if IsWorkerMove(a) {
      WorkerMovesOnly(c, a);
      assert forall g | g in Do(c, a).procs :: g in Do(c, a).procs.Keys;
    } else {
      assert Do(c, a).procs.Keys == c.procs.Keys;
    }
  }

  lemma ProcessesTakeTurns(cs: seq<Client>, actions: seq<Action>, n: nat)
    requires IsRun(cs, actions) && n < |actions|
    ensures TakesTurns(cs[n], cs[n + 1])
  {
    RunKeeps(cs, actions, n);
    StepTakesTurns(cs[n], actions[n]);
  }

  // ---- Closing ---------------------------------------------------------------------------------

  /** How many generations the lock's owner may still start. */
  function Pending(c: Client): nat {
    if c.owner.Opened? || c.owner.StoppingOld? then 1
    else if c.owner.Entered? && !c.closeRequested && !c.closed then 1
    else 0
  }

  lemma CallSpendsPending(c: Client, a: Action)
    requires Enabled(c, a) && c.closeRequested && IsCallMove(a)
    ensures var d := Do(c, a);
            d.closeRequested && d.generation + Pending(d) <= c.generation + Pending(c)
  {
    if IsTalk(a) {
      TalkStep(c, a);
    }
  }

  lemma StepSpendsPending(c: Client, a: Action)
    requires Enabled(c, a) && c.closeRequested
    ensures var d := Do(c, a);
            d.closeRequested && d.generation + Pending(d) <= c.generation + Pending(c)
  {
    if IsWorkerMove(a) {
      WorkerMovesOnly(c, a);
    } else if IsCallMove(a) {
      CallSpendsPending(c, a);
    }
  }

  /** After a close is requested at most one further generation starts. */
  lemma {:induction false} CloseAllowsOneGeneration(cs: seq<Client>, actions: seq<Action>, n: nat, m: nat)
    requires IsRun(cs, actions) && n <= m < |cs| && cs[n].closeRequested
    ensures cs[m].closeRequested && cs[m].generation + Pending(cs[m]) <= cs[n].generation + Pending(cs[n])
    ensures cs[m].generation <= cs[n].generation + 1
    decreases m - n
  {
    if n < m {
      CloseAllowsOneGeneration(cs, actions, n, m - 1);
      StepSpendsPending(cs[m - 1], actions[m - 1]);
    }
  }

  lemma ClosedStep(c: Client, a: Action)
    requires Inv(c) && Enabled(c, a) && c.closed
    ensures var d := Do(c, a);
            d.closed && d.generation == c.generation && d.procs.Keys == c.procs.Keys
            && (c.closeReturned ==> d.closeReturned)
  {
    if IsWorkerMove(a) {
      WorkerMovesOnly(c, a);
    }
  }

  /** Once the client is marked closed none does. */
  lemma {:induction false} ClosedStartsNothing(cs: seq<Client>, actions: seq<Action>, n: nat, m: nat)
    requires IsRun(cs, actions) && n <= m < |cs| && cs[n].closed
    ensures cs[m].closed && cs[m].generation == cs[n].generation && cs[m].procs.Keys == cs[n].procs.Keys
    decreases m - n
  {
    if n < m {
      ClosedStartsNothing(cs, actions, n, m - 1);
      RunKeeps(cs, actions, m - 1);
      ClosedStep(cs[m - 1], actions[m - 1]);
    }
  }

  lemma {:induction false} ReturnedCloseStays(cs: seq<Client>, actions: seq<Action>, n: nat, m: nat)
    requires IsRun(cs, actions) && n <= m < |cs| && cs[n].closeReturned
    ensures cs[m].closeReturned
    decreases m - n
  {
    if n < m {
      ReturnedCloseStays(cs, actions, n, m - 1);
      assert Inv(cs[m - 1]) by { RunKeeps(cs, actions, m - 1); }
      ClosedStep(cs[m - 1], actions[m - 1]);
    }
  }

  /** Once any close has returned normally there is no live worker, then or ever after. */
  lemma ReturnedCloseIsFinal(cs: seq<Client>, actions: seq<Action>, n: nat, m: nat)
    requires IsRun(cs, actions) && n <= m < |cs| && cs[n].closeReturned
    ensures cs[m].closed && cs[m].process.None?
    ensures forall g | g in cs[m].procs :: cs[m].procs[g].status == Reaped
  {
    ReturnedCloseStays(cs, actions, n, m);
    RunKeeps(cs, actions, m);
  }

  /** After a close is requested every later start or embedding fails its open check. */
  lemma RequestedCloseRefusesCalls(cs: seq<Client>, actions: seq<Action>, n: nat, m: nat)
    requires IsRun(cs, actions) && n <= m < |cs| && cs[n].closeRequested && Enabled(cs[m], CheckOpen)
    ensures Do(cs[m], CheckOpen) == cs[m].(owner := Free)
  {
    CloseAllowsOneGeneration(cs, actions, n, m);
  }

  // ---- What does not hold ----------------------------------------------------------------------

  /** Exactly when CLOSED is left: when a close that still waits for the lock is cancelled. */
  lemma WhenClosedIsLeft(cs: seq<Client>, actions: seq<Action>, n: nat)
    requires IsRun(cs, actions) && n < |actions| && cs[n].state == Closed
    ensures cs[n + 1].state != Closed <==> actions[n].CloseWaitCanceled?
  {
    RunKeeps(cs, actions, n);
  }

  /** A close of a client that never started: it waits for the lock, takes it, and is done. */
  lemma CloseOfFresh() returns (called: Client, entered: Client, done: Client)
    ensures var c := Fresh();
      && Enabled(c, CloseCall) && Do(c, CloseCall) == called && Enabled(called, CloseCall) && Do(called, CloseCall) == called
      && Enabled(called, CloseEnter) && Do(called, CloseEnter) == entered
      && Enabled(entered, StopDrained) && Do(entered, StopDrained) == done
      && done.state == Closed && Enabled(done, CloseWaitCanceled) && Do(done, CloseWaitCanceled).state == Stopping
  {
    called := Fresh().(closeRequested := true);
    entered := called.(closed := true, state := Stopping, owner := Closing(Draining));
    done := entered.(state := Closed, owner := Free, closeReturned := true);
  }

  lemma ExtendRun(cs: seq<Client>, actions: seq<Action>, a: Action)
    requires IsRun(cs, actions) && Enabled(cs[|cs| - 1], a)
    ensures IsRun(cs + [Do(cs[|cs| - 1], a)], actions + [a])
  {
  }

  lemma FirstOfTwoClosesReturns() returns (cs: seq<Client>, actions: seq<Action>)
    ensures IsRun(cs, actions) && |cs| == 5
    ensures cs[4].state == Closed && Enabled(cs[4], CloseWaitCanceled) && Do(cs[4], CloseWaitCanceled).state == Stopping
  {
    var called, entered, done := CloseOfFresh();
    cs, actions := [Fresh(), called], [CloseCall];
    ExtendRun(cs, actions, CloseCall);
    cs, actions := cs + [called], actions + [CloseCall];
    ExtendRun(cs, actions, CloseEnter);
    cs, actions := cs + [entered], actions + [CloseEnter];
    ExtendRun(cs, actions, StopDrained);
    cs, actions := cs + [done], actions + [StopDrained];
  }

  /** The state CLOSED can be left: a second close that is cancelled while it waits for the lock
      marks the client as stopping again. */
  lemma ClosedStateCanBeLeft() returns (cs: seq<Client>, actions: seq<Action>)
    ensures IsRun(cs, actions) && |cs| == 6
    ensures cs[4].state == Closed && cs[5].state == Stopping
  {
    cs, actions := FirstOfTwoClosesReturns();
    ExtendRun(cs, actions, CloseWaitCanceled);
    cs, actions := cs + [Do(cs[4], CloseWaitCanceled)], actions + [CloseWaitCanceled];
  }

  // ---- READY does not mean that there is a process -----------------------------------------------

  function WithProcess(c: Client, p: Proc): Client {
    c.(procs := map[1 := p], process := Some(1))
  }

  /** A start that goes through, step by step, up to a worker that loads. */
  lemma StartSpawns() returns (spawned: Client)
    ensures var c := Fresh(); var entered := c.(owner := Entered(Start)); var allowed := c.(owner := Opened(Start));
      var spawning := c.(generation := 1, state := Starting, owner := Spawning(Start));
      && Enabled(c, Enter(Start)) && Do(c, Enter(Start)) == entered
      && Enabled(entered, CheckOpen) && Do(entered, CheckOpen) == allowed
      && Enabled(allowed, Decide) && Do(allowed, Decide) == spawning
      && Enabled(spawning, Spawn) && Do(spawning, Spawn) == spawned
    ensures spawned == WithProcess(Fresh(), Proc(Running, [], [], Loading)).(generation := 1, state := Starting, owner := AwaitingReady(Start))
  {
    spawned := WithProcess(Fresh(), Proc(Running, [], [], Loading)).(generation := 1, state := Starting, owner := AwaitingReady(Start));
  }

  lemma SpawnedGetsReady(spawned: Client) returns (loaded: Client, ready: Client, idle: Client)
    requires spawned == WithProcess(Fresh(), Proc(Running, [], [], Loading)).(generation := 1, state := Starting, owner := AwaitingReady(Start))
    ensures Enabled(spawned, Load(1, "")) && Do(spawned, Load(1, "")) == loaded
    ensures Enabled(loaded, ReadReady(true)) && Do(loaded, ReadReady(true)) == ready
    ensures Enabled(ready, SendRequest(true, true)) && Do(ready, SendRequest(true, true)) == idle
    ensures idle == WithProcess(Fresh(), Proc(Running, [], [], Serving(1))).(generation := 1, state := Ready, dimension := Some(1))
  {
    var message := ReadyMessage(1, "", 1);
    assert [] + [message] == [message] && [message][1..] == [];
    loaded := WithProcess(spawned, Proc(Running, [], [message], Serving(1)));
    ready := WithProcess(spawned, Proc(Running, [], [], Serving(1))).(dimension := Some(1), state := Ready, owner := Started(Start));
    idle := ready.(owner := Free);
  }

  lemma DeadWorkerIsForgotten(idle: Client) returns (ended: Client, reaped: Client, entered: Client, allowed: Client, stopping: Client, left: Client)
    requires idle == WithProcess(Fresh(), Proc(Running, [], [], Serving(1))).(generation := 1, state := Ready, dimension := Some(1))
    ensures Enabled(idle, ProcExit) && Do(idle, ProcExit) == ended
    ensures Enabled(ended, Reap) && Do(ended, Reap) == reaped
    ensures Enabled(reaped, Enter(Start)) && Do(reaped, Enter(Start)) == entered
    ensures Enabled(entered, CheckOpen) && Do(entered, CheckOpen) == allowed
    ensures Enabled(allowed, Decide) && Do(allowed, Decide) == stopping
    ensures Enabled(stopping, StopCanceled) && Do(stopping, StopCanceled) == left
    ensures left.state == Ready && left.process == None && left.owner == Free
  {
    ended := WithProcess(idle, Proc(Ending, [], [], Serving(1)));
    reaped := WithProcess(idle, Proc(Reaped, [], [], Serving(1)));
    entered, allowed := reaped.(owner := Entered(Start)), reaped.(owner := Opened(Start));
    stopping := reaped.(process := None, dimension := None, owner := StoppingOld(Start, Draining));
    left := stopping.(owner := Free);
  }

  lemma StartRun() returns (cs: seq<Client>, actions: seq<Action>)
    ensures IsRun(cs, actions) && |cs| == 8
    ensures cs[7] == WithProcess(Fresh(), Proc(Running, [], [], Serving(1))).(generation := 1, state := Ready, dimension := Some(1))
  {
    var spawned := StartSpawns();
    var loaded, ready, idle := SpawnedGetsReady(spawned);
    var c := Fresh();
    var allowed := c.(owner := Opened(Start));
    var spawning := c.(generation := 1, state := Starting, owner := Spawning(Start));
    cs, actions := [c, c.(owner := Entered(Start))], [Enter(Start)];
    ExtendRun(cs, actions, CheckOpen);
    cs, actions := cs + [allowed], actions + [CheckOpen];
    ExtendRun(cs, actions, Decide);
    cs, actions := cs + [spawning], actions + [Decide];
    ExtendRun(cs, actions, Spawn);
    cs, actions := cs + [spawned], actions + [Spawn];
    ExtendRun(cs, actions, Load(1, ""));
    cs, actions := cs + [loaded], actions + [Load(1, "")];
    ExtendRun(cs, actions, ReadReady(true));
    cs, actions := cs + [ready], actions + [ReadReady(true)];
    ExtendRun(cs, actions, SendRequest(true, true));
    cs, actions := cs + [idle], actions + [SendRequest(true, true)];
  }

  /** A call that finds the client READY finds its worker gone. */
  predicate FindsWorkerGone(c: Client, a: Action) {
    a.Decide? && c.state == Ready && HasProcess(c) && Current(c).status == Reaped
  }

  lemma CallLosesProcess(c: Client, a: Action)
    requires Inv(c) && Enabled(c, a) && IsCallMove(a) && !a.ReadReply? && !(c.state == Ready && c.process.None?)
    ensures Do(c, a).state == Ready && Do(c, a).process.None? <==> FindsWorkerGone(c, a)
  {
    if a.ReadReady? || a.SendRequest? || a.Fail? {
      assert !FindsWorkerGone(c, a);
    }
  }

  lemma StopLosesProcess(c: Client, a: Action)
    requires Inv(c) && Enabled(c, a) && !IsCallMove(a) && !IsWorkerMove(a) && !(c.state == Ready && c.process.None?)
    ensures !(Do(c, a).state == Ready && Do(c, a).process.None?)
  {
  }

  lemma StepLosesProcess(c: Client, a: Action)
    requires Inv(c) && Enabled(c, a) && !a.ReadReply? && !(c.state == Ready && c.process.None?)
    ensures Do(c, a).state == Ready && Do(c, a).process.None? <==> FindsWorkerGone(c, a)
  {
    if IsWorkerMove(a) {
      WorkerMovesOnly(c, a);
    } else if IsCallMove(a) {
      CallLosesProcess(c, a);
    } else {
      StopLosesProcess(c, a);
    }
  }

  lemma ReplyKeepsProcess(c: Client)
    requires Inv(c) && Enabled(c, ReadReply)
    ensures Do(c, ReadReply).process == c.process && c.process.Some?
  {
    ReplyPassesChecks(c);
  }

  /** Exactly when a READY client comes to have no process: when a call finds its worker gone. */
  lemma WhenReadyLosesItsProcess(cs: seq<Client>, actions: seq<Action>, n: nat)
    requires IsRun(cs, actions) && n < |actions| && !(cs[n].state == Ready && cs[n].process.None?)
    ensures cs[n + 1].state == Ready && cs[n + 1].process.None? <==> FindsWorkerGone(cs[n], actions[n])
  {
    RunKeeps(cs, actions, n);
    if actions[n].ReadReply? {
      ReplyKeepsProcess(cs[n]);
    } else {
      StepLosesProcess(cs[n], actions[n]);
    }
  }

  /** While that call still collects the dead worker's output, the client is left free in this state
      exactly when the call is cancelled there. */
  lemma WhenReadyStaysWithoutProcess(cs: seq<Client>, actions: seq<Action>, n: nat)
    requires IsRun(cs, actions) && n < |actions|
    requires cs[n].state == Ready && cs[n].process.None? && cs[n].owner.StoppingOld?
    ensures cs[n + 1].state == Ready && cs[n + 1].process.None? && cs[n + 1].owner.Free? <==> actions[n].StopCanceled?
  {
    RunKeeps(cs, actions, n);
  }

  /** A worker dies between two calls, and the next call is cancelled while it collects the dead
      worker's error output: the client is free and READY, with no process. */
  lemma ReadyCanOutliveItsProcess() returns (cs: seq<Client>, actions: seq<Action>)
    ensures IsRun(cs, actions) && |cs| == 14
    ensures cs[13].state == Ready && cs[13].process == None && cs[13].owner == Free
  {
    cs, actions := StartRun();
    var ended, reaped, entered, allowed, stopping, left := DeadWorkerIsForgotten(cs[7]);
    ExtendRun(cs, actions, ProcExit);
    cs, actions := cs + [ended], actions + [ProcExit];
    ExtendRun(cs, actions, Reap);
    cs, actions := cs + [reaped], actions + [Reap];
    ExtendRun(cs, actions, Enter(Start));
    cs, actions := cs + [entered], actions + [Enter(Start)];
    ExtendRun(cs, actions, CheckOpen);
    cs, actions := cs + [allowed], actions + [CheckOpen];
    ExtendRun(cs, actions, Decide);
    cs, actions := cs + [stopping], actions + [Decide];
    ExtendRun(cs, actions, StopCanceled);
    cs, actions := cs + [left], actions + [StopCanceled];
  }
}
