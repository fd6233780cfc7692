/** The embedding client as the class it is.  What runs between two awaits is one method and one step
    of the state machine; starting, embedding and closing are put together from these, with anything
    that other parties may do at each await in between. */
module ProcessClient {
  import opened Messages
  import opened EmbeddingWorker
  import opened ProcessEmbeddings
  import opened WorkerSafety
  import opened Provenance

  // ---- Waiting ---------------------------------------------------------------------------------

  /** `Breaks` is an error of the pipes that is no timeout, such as an OS error of the transport. */
  datatype Ending = Arrives | TimesOut | Cancelled | Breaks

  /** What others do during one await, and how the await ends. */
  datatype Wait = Wait(moves: seq<Action>, end: Ending)

  /** The awaits of one call. */
  datatype Site =
    | LockWait | LockWaitAgain | ExitWait | KillWait | DrainWait
    | SpawnWait | ReadyWait | WriteWait | ReplyWait | InterruptWait

  type Waits = Site -> Wait

  /** A move of the worker or the system, or of a close that waits for the lock. */
  predicate IsOutside(a: Action) {
    IsWorkerMove(a) || a.CloseCall? || a.CloseKill? || a.CloseWaitCanceled?
  }

  /** What no step takes back. */
  ghost predicate Later(c: Client, d: Client) {
    && (c.closeRequested ==> d.closeRequested)
    && (c.closed ==> d.closed)
    && (c.closeReturned ==> d.closeReturned)
    && c.generation <= d.generation
    && c.delivered <= d.delivered
  }

  lemma StepIsLater(c: Client, a: Action)
    requires Inv(c) && Enabled(c, a)
    ensures Later(c, Do(c, a))
  {
    if IsWorkerMove(a) {
      WorkerMovesOnly(c, a);
    } else if IsTalk(a) {
      TalkStep(c, a);
    }
  }

  /** Others leave the owner of the lock where it is, and hand nothing out in its name. */
  lemma OutsideLeavesOwner(c: Client, a: Action)
    requires Inv(c) && Enabled(c, a) && IsOutside(a)
    ensures Do(c, a).owner == c.owner && Do(c, a).delivered == c.delivered && Do(c, a).generation == c.generation
  {
    if IsWorkerMove(a) {
      WorkerMovesOnly(c, a);
    }
  }

  /** The invariant of the machine, and the origin of what it hands out. */
  ghost predicate Sound(c: Client) {
    Inv(c) && Traced(c)
  }

  lemma SoundStep(c: Client, a: Action)
    requires Sound(c) && Enabled(c, a)
    ensures Sound(Do(c, a))
  {
    StepKeeps(c, a);
    StepTraces(c, a);
  }

  lemma SubmitIs(c: Client, texts: seq<string>, fits: bool)
    requires Sound(c) && c.owner == Started(Embed(texts))
    ensures Submitted(c, texts, fits) == Do(c, SendRequest(true, fits))
    ensures Sound(Submitted(c, texts, fits)) && Later(c, Submitted(c, texts, fits))
  {
    SendKeeps(c, true, fits);
    SubmitTraces(c, texts, fits);
  }

  /** The vectors are the rows of the model's output, in order. */
  ghost predicate IsOutputOf(said: Inference, vectors: seq<Vector>) {
    && said.encoded.Output? && said.encoded.raw.Rows? && |said.encoded.raw.rows| == |vectors|
    && forall k | 0 <= k < |vectors| :: said.encoded.raw.rows[k].Row? && vectors[k] == said.encoded.raw.rows[k].values
  }

  lemma HandedOutIsOutput(c: Client)
    requires Sound(c) && c.delivered != []
    ensures var d := c.delivered[|c.delivered| - 1];
            d.response.Result? && exists said | said in c.answered :: said.request == d.request && IsOutputOf(said, d.response.vectors)
  {
    var d := c.delivered[|c.delivered| - 1];
    assert d in c.delivered && HasOrigin(c.answered, d.request, d.response);
    var said :| said in c.answered && said.request == d.request
                && Conveys(d.request, said.encoded, said.dimension, said.sendable, d.response);
    assert IsOutputOf(said, d.response.vectors);
  }

  // ---- Outcomes --------------------------------------------------------------------------------

  datatype CallError =
    | LockNotAcquired | ClosedClient | NotStarted | InvalidRequest | ExchangeFailed | WorkerReported | PipeBroke

  datatype EmbedOutcome = Embedded(request: Request, dimension: nat, vectors: seq<Vector>) | Failed(error: CallError)

  class ProcessEmbeddingClient {
    var state: WorkerState
    var process: Option<nat>
    var generation: nat
    var dimension: Option<nat>
    var closed: bool
    var closeRequested: bool
    var nextId: nat                // request ids are never used twice
    var procs: map<nat, Proc>      // the processes, by generation
    var owner: Owner               // where the owner of the operation lock stands
    var delivered: seq<Delivery>   // what was handed out
    var closeReturned: bool
    var answered: seq<Inference>   // the inferences that workers have made

    function Snapshot(): Client
      reads this
    {
      Client(state, process, generation, dimension, closed, closeRequested, owner, nextId, procs, delivered, closeReturned, answered)
    }

    /** What holds in every reachable state of the machine. */
    ghost predicate Valid()
      reads this
    {
      Sound(Snapshot())
    }

    constructor ()
      ensures Valid() && Snapshot() == Fresh()
    {
      state, process, generation, dimension := New, None, 0, None;
      closed, closeRequested, nextId, procs := false, false, 0, map[];
      owner, delivered, closeReturned, answered := Free, [], false, [];
    }

    predicate IsLive()
      reads this
    {
      process.Some? && process.value in procs && procs[process.value].status != Reaped
    }

    predicate HasOutput()
      reads this
    {
      process.Some? && process.value in procs && procs[process.value].stdout != []
    }

    // ---- Others --------------------------------------------------------------------------------

    method Become(c: Client)
      modifies this
      ensures Snapshot() == c
    {
      state, process, generation, dimension := c.state, c.process, c.generation, c.dimension;
      closed, closeRequested, nextId, procs := c.closed, c.closeRequested, c.nextId, c.procs;
      owner, delivered, closeReturned, answered := c.owner, c.delivered, c.closeReturned, c.answered;
    }

    method Move(a: Action)
      requires Valid() && Enabled(Snapshot(), a)
      modifies this
      ensures Valid() && Snapshot() == Do(old(Snapshot()), a) && Later(old(Snapshot()), Snapshot())
    {
      SoundStep(Snapshot(), a);
      StepIsLater(Snapshot(), a);
      Become(Do(Snapshot(), a));
    }

    /** While this call holds the lock. */
    method Await(moves: seq<Action>)
      requires Valid()
      modifies this
      ensures Valid() && owner == old(owner) && delivered == old(delivered) && generation == old(generation)
      ensures Later(old(Snapshot()), Snapshot())
    {
      for i := 0 to |moves|
        invariant Valid() && owner == old(owner) && delivered == old(delivered) && generation == old(generation)
        invariant Later(old(Snapshot()), Snapshot())
      {
        if IsOutside(moves[i]) && Enabled(Snapshot(), moves[i]) {
          OutsideLeavesOwner(Snapshot(), moves[i]);
          Move(moves[i]);
        }
      }
    }

    /** While it waits for the lock, when others may hold it and do anything. */
    method AwaitLock(moves: seq<Action>)
      requires Valid()
      modifies this
      ensures Valid() && Later(old(Snapshot()), Snapshot())
    {
      for i := 0 to |moves|
        invariant Valid() && Later(old(Snapshot()), Snapshot())
      {
        if Enabled(Snapshot(), moves[i]) {
          Move(moves[i]);
        }
      }
    }

    // ---- Parts of steps ------------------------------------------------------------------------

    method SetProcess(p: Proc)
      requires process.Some? && process.value in procs
      modifies `procs
      ensures Snapshot() == SetCurrent(old(Snapshot()), p)
    {
      procs := procs[process.value := p];
    }

    method KillProcess()
      modifies `procs
      ensures Snapshot() == Kill(old(Snapshot()))
    {
      if process.Some? && process.value in procs && procs[process.value].status == Running {
        SetProcess(procs[process.value].(status := Ending));
      }
    }

    method ForgetProcess()
      modifies this
      ensures Snapshot() == Forget(old(Snapshot()))
    {
      process := None;
      dimension := None;
    }

    /** Up to the first wait of a stop; the result says what it waits for. */
    method StopProcess(force: bool) returns (phase: StopPhase)
      modifies this
      ensures Stop(Snapshot(), phase) == BeginStop(old(Snapshot()), force)
      ensures force ==> phase != Graceful
    {
      if !IsLive() {
        ForgetProcess();
        return Draining;
      }
      if !force {
        return Graceful;
      }
      KillProcess();
      return Killing;
    }

    method StartGeneration(op: Op)
      modifies this
      ensures Snapshot() == BeginSpawn(old(Snapshot()), op)
    {
      generation := generation + 1;
      state := Starting;
      owner := Spawning(op);
    }

    method AbortOperation(shielded: bool)
      modifies this
      ensures Snapshot() == Abort(old(Snapshot()), shielded)
      ensures IsAborting(shielded)
    {
      var phase := StopProcess(true);
      owner := Aborting(phase, shielded);
    }

    predicate IsAborting(shielded: bool)
      reads this
    {
      owner.Aborting? && owner.shielded == shielded && owner.phase != Graceful
    }

    // ---- Steps of a call -----------------------------------------------------------------------

    /** Refuses once a close is under way. */
    method EnsureOpen(op: Op) returns (open: bool)
      requires Valid() && owner == Entered(op)
      modifies this
      ensures Valid() && Snapshot() == Do(old(Snapshot()), CheckOpen) && Later(old(Snapshot()), Snapshot())
      ensures open <==> !closed && !closeRequested
      ensures owner == if open then Opened(op) else Free
    {
      SoundStep(Snapshot(), CheckOpen);
      open := !closed && !closeRequested;
      owner := if open then Opened(op) else Free;
    }

    /** Reuses a READY process that still runs, which then has its dimension on record and nothing in its
        pipes; otherwise stops the old one, or counts a generation. */
    method TakeOrReplace(op: Op) returns (reused: bool)
      requires Valid() && owner == Opened(op)
      modifies this
      ensures Valid() && Snapshot() == Do(old(Snapshot()), Decide) && Later(old(Snapshot()), Snapshot())
      ensures reused <==> old(state) == Ready && old(IsLive())
      ensures delivered == old(delivered)
      ensures reused ==> owner == Started(op) && state == Ready && dimension.Some? && PipesIdle(procs[process.value], dimension.value)
      ensures !reused ==> owner == Spawning(op) || (owner.StoppingOld? && owner.op == op && owner.phase != Graceful)
    {
      SoundStep(Snapshot(), Decide);
      StepIsLater(Snapshot(), Decide);
      reused := state == Ready && IsLive();
      if reused {
        owner := Started(op);
      } else if process.Some? {
        var phase := StopProcess(true);
        owner := StoppingOld(op, phase);
      } else {
        StartGeneration(op);
      }
    }

    method SpawnProcess(op: Op)
      requires Valid() && owner == Spawning(op)
      modifies this
      ensures Valid() && Snapshot() == Do(old(Snapshot()), Spawn) && Later(old(Snapshot()), Snapshot())
      ensures owner == AwaitingReady(op) && delivered == old(delivered)
    {
      SoundStep(Snapshot(), Spawn);
      procs := procs[generation := Proc(Running, [], [], Loading)];
      process := Some(generation);
      owner := AwaitingReady(op);
    }

    /** `versionOk` says whether READY names the expected model version. */
    method WaitReady(op: Op, versionOk: bool) returns (ok: bool)
      requires Valid() && owner == AwaitingReady(op) && HasOutput()
      modifies this
      ensures Valid() && Snapshot() == Do(old(Snapshot()), ReadReady(versionOk)) && Later(old(Snapshot()), Snapshot())
      ensures if ok then owner == Started(op) && state == Ready && dimension.Some? else IsAborting(false)
      ensures delivered == old(delivered)
    {
      SoundStep(Snapshot(), ReadReady(versionOk));
      StepIsLater(Snapshot(), ReadReady(versionOk));
      var p := procs[process.value];
      var response := p.stdout[0];
      SetProcess(p.(stdout := p.stdout[1..]));
      ok := response.ReadyMessage? && response.generation == generation && versionOk;
      if ok {
        dimension := Some(response.dimension);
        state := Ready;
        owner := Started(op);
      } else {
        AbortOperation(false);
      }
    }

    /** A failure, a timeout or a cancellation while talking to a worker; a cancelled call stops the worker
        shielded from further cancellation. */
    method FailOperation(canceled: bool)
      requires Valid() && Talking(owner)
      modifies this
      ensures Valid() && Snapshot() == Do(old(Snapshot()), Fail(canceled)) && Later(old(Snapshot()), Snapshot())
      ensures IsAborting(canceled) && delivered == old(delivered)
    {
      SoundStep(Snapshot(), Fail(canceled));
      StepIsLater(Snapshot(), Fail(canceled));
      AbortOperation(canceled);
    }

    method BuildRequest(texts: seq<string>) returns (request: Request)
      modifies this
      ensures request == Request(generation, old(nextId), texts)
      ensures Snapshot() == old(Snapshot()).(state := Busy, nextId := old(nextId) + 1)
    {
      request := Request(generation, nextId, texts);
      nextId := nextId + 1;
      state := Busy;
    }

    method WriteRequest(request: Request, fits: bool) returns (written: bool)
      modifies this
      ensures Snapshot() == WriteTo(old(Snapshot()), request, fits)
      ensures if written then owner == Writing(request) else IsAborting(false)
    {
      written := IsLive() && fits;
      if !written {
        AbortOperation(false);
        return;
      }
      var p := procs[process.value];
      SetProcess(p.(stdin := p.stdin + [request]));
      owner := Writing(request);
    }

    /** `fits` is the size limit's verdict. */
    method Submit(texts: seq<string>, fits: bool) returns (sent: Option<Request>)
      requires Valid() && owner == Started(Embed(texts))
      modifies this
      ensures Valid() && Snapshot() == Submitted(old(Snapshot()), texts, fits) && Later(old(Snapshot()), Snapshot())
      ensures if sent.Some? then owner == Writing(sent.value) && sent.value.texts == texts else IsAborting(false)
    {
      ghost var before := Snapshot();
      var request := BuildRequest(texts);
      var written := WriteRequest(request, fits);
      assert Snapshot() == Submitted(before, texts, fits);
      SubmitIs(before, texts, fits);
      sent := if written then Some(request) else None;
    }

    /** With the worker started there is nothing more to do, or nothing that can be sent. */
    method Withdraw(op: Op)
      requires Valid() && owner == Started(op)
      modifies this
      ensures Valid() && Snapshot() == Do(old(Snapshot()), SendRequest(false, false)) && Snapshot() == old(Snapshot()).(owner := Free)
    {
      SoundStep(Snapshot(), SendRequest(false, false));
      owner := Free;
    }

    method DrainRequest(request: Request)
      requires Valid() && owner == Writing(request)
      modifies this
      ensures Valid() && Snapshot() == Do(old(Snapshot()), Drained) && Snapshot() == old(Snapshot()).(owner := AwaitingReply(request))
    {
      SoundStep(Snapshot(), Drained);
      owner := AwaitingReply(request);
    }

    /** The reply that is there to be read is one to this request: it is handed out, one vector per text in
        the announced dimension, or it reports a failure; either way the worker stays READY.  The branch
        in which the checks fail and the worker is stopped is never taken. */
    method Receive(request: Request) returns (vectors: Option<seq<Vector>>)
      requires Valid() && owner == AwaitingReply(request) && HasOutput()
      modifies this
      ensures Valid() && Snapshot() == Do(old(Snapshot()), ReadReply)
      ensures owner.Free? && state == Ready && process == old(process) && generation == request.generation
      ensures vectors.Some? ==>
                && dimension.Some? && Fit(vectors.value, |request.texts|, dimension.value)
                && delivered == old(delivered) + [Delivery(request, Result(request.generation, request.id, vectors.value))]
      ensures vectors.None? ==> delivered == old(delivered)
    {
      ghost var before := Snapshot();
      assert Sound(Do(before, ReadReply)) by {
        SoundStep(before, ReadReply);
      }
      ReplyPassesChecks(before);
      var p := procs[process.value];
      var response := p.stdout[0];
      var verdict := Check(Snapshot(), request, response);
      SetProcess(p.(stdout := p.stdout[1..]));
      state, owner := Ready, Free;
      match verdict
      case Mismatch =>
        assert false;
      case WorkerFailed =>
        vectors := None;
      case Accepted =>
        vectors := Some(response.vectors);
        delivered := delivered + [Delivery(request, response)];
    }

    // ---- Steps of a stop -----------------------------------------------------------------------

    predicate IsGone()
      reads this
    {
      process.Some? && process.value in procs && procs[process.value].status == Reaped
    }

    /** The wait ends with the process gone. */
    method StopSawExit()
      requires Valid() && PhaseOf(owner).Some? && PhaseOf(owner) != Some(Draining) && IsGone()
      modifies this
      ensures Valid() && Snapshot() == Do(old(Snapshot()), StopExited) && Later(old(Snapshot()), Snapshot())
      ensures owner == WithPhase(old(owner), Draining) && delivered == old(delivered)
    {
      SoundStep(Snapshot(), StopExited);
      ForgetProcess();
      owner := WithPhase(owner, Draining);
    }

    /** The wait ends without it: a clean stop turns into a kill. */
    method EscalateStop()
      requires Valid() && PhaseOf(owner) == Some(Graceful)
      modifies this
      ensures Valid() && Snapshot() == Do(old(Snapshot()), StopTimedOut) && Later(old(Snapshot()), Snapshot())
      ensures owner == WithPhase(old(owner), Killing) && delivered == old(delivered)
    {
      SoundStep(Snapshot(), StopTimedOut);
      KillProcess();
      owner := WithPhase(owner, Killing);
    }

    /** A kill that is not confirmed in time is an error and leaves the process on record. */
    method GiveUpStop()
      requires Valid() && PhaseOf(owner) == Some(Killing)
      modifies this
      ensures Valid() && Snapshot() == Do(old(Snapshot()), StopTimedOut) && Snapshot() == old(Snapshot()).(owner := Free)
    {
      SoundStep(Snapshot(), StopTimedOut);
      owner := Free;
    }

    method CancelStop()
      requires Valid() && PhaseOf(owner).Some? && !owner.Closing? && !(owner.Aborting? && owner.shielded)
      modifies this
      ensures Valid() && Snapshot() == Do(old(Snapshot()), StopCanceled) && Snapshot() == old(Snapshot()).(owner := Free)
    {
      SoundStep(Snapshot(), StopCanceled);
      owner := Free;
    }

    method RestartAfterStop(op: Op)
      requires Valid() && owner == StoppingOld(op, Draining)
      modifies this
      ensures Valid() && Snapshot() == Do(old(Snapshot()), StopDrained) && Later(old(Snapshot()), Snapshot())
      ensures owner == Spawning(op) && delivered == old(delivered)
    {
      SoundStep(Snapshot(), StopDrained);
      StartGeneration(op);
    }

    method FinishAbort()
      requires Valid() && owner.Aborting? && owner.phase == Draining
      modifies this
      ensures Valid() && Snapshot() == Do(old(Snapshot()), StopDrained) && Later(old(Snapshot()), Snapshot())
      ensures owner == Free && state == New && process == None && delivered == old(delivered)
    {
      SoundStep(Snapshot(), StopDrained);
      state := New;
      owner := Free;
    }

    /** Waits until the process is gone and its error output collected, unless the wait fails first. */
    method StopToDrained(waits: Waits) returns (drained: bool)
      requires Valid() && (owner.StoppingOld? || owner.Aborting?) && owner.phase != Graceful
      modifies this
      ensures Valid() && Later(old(Snapshot()), Snapshot()) && delivered == old(delivered)
      ensures owner == if drained then WithPhase(old(owner), Draining) else Free
    {
      var shielded := owner.Aborting? && owner.shielded;
      if owner.phase == Killing {
        Await(waits(KillWait).moves);
        if waits(KillWait).end.Cancelled? && !shielded {
          CancelStop();
          return false;
        }
        if !(waits(KillWait).end.Arrives? && IsGone()) {
          GiveUpStop();
          return false;
        }
        StopSawExit();
      }
      Await(waits(DrainWait).moves);
      if waits(DrainWait).end.Cancelled? && !shielded {
        CancelStop();
        return false;
      }
      drained := true;
    }

    method UnwindAbort(waits: Waits)
      requires Valid() && (IsAborting(true) || IsAborting(false))
      modifies this
      ensures Valid() && Later(old(Snapshot()), Snapshot()) && delivered == old(delivered) && owner == Free
    {
      var drained := StopToDrained(waits);
      if drained {
        FinishAbort();
      }
    }

    // ---- Starting ------------------------------------------------------------------------------

    method ReplaceOld(op: Op, waits: Waits) returns (ok: bool)
      requires Valid() && owner.StoppingOld? && owner.op == op && owner.phase != Graceful
      modifies this
      ensures Valid() && Later(old(Snapshot()), Snapshot()) && delivered == old(delivered)
      ensures owner == if ok then Spawning(op) else Free
    {
      ok := StopToDrained(waits);
      if ok {
        RestartAfterStop(op);
      }
    }

    method StartWorker(op: Op, versionOk: bool, waits: Waits) returns (ok: bool)
      requires Valid() && owner == Spawning(op)
      modifies this
      ensures Valid() && Later(old(Snapshot()), Snapshot()) && delivered == old(delivered)
      ensures owner == if ok then Started(op) else Free
      ensures ok ==> state == Ready
    {
      ok := false;
      Await(waits(SpawnWait).moves);
      if !waits(SpawnWait).end.Arrives? {
        FailOperation(waits(SpawnWait).end.Cancelled?);
        UnwindAbort(waits);
        return;
      }
      SpawnProcess(op);
      Await(waits(ReadyWait).moves);
      if waits(ReadyWait).end.Arrives? && HasOutput() {
        ok := WaitReady(op, versionOk);
      } else {
        FailOperation(waits(ReadyWait).end.Cancelled?);
      }
      if !ok {
        UnwindAbort(waits);
      }
    }

    method EnsureStarted(op: Op, versionOk: bool, waits: Waits) returns (ok: bool)
      requires Valid() && owner == Opened(op)
      modifies this
      ensures Valid() && Later(old(Snapshot()), Snapshot()) && delivered == old(delivered)
      ensures owner == if ok then Started(op) else Free
      ensures ok ==> state == Ready
    {
      ok := TakeOrReplace(op);
      if ok {
        return;
      }
      if owner.StoppingOld? {
        var replaced := ReplaceOld(op, waits);
        if !replaced {
          return;
        }
      }
      ok := StartWorker(op, versionOk, waits);
    }

    // ---- Whole calls ---------------------------------------------------------------------------

    method AcquireLock(op: Op, waits: Waits) returns (acquired: bool)
      requires Valid()
      modifies this
      ensures Valid() && Later(old(Snapshot()), Snapshot())
      ensures acquired ==> owner == Entered(op)
    {
      AwaitLock(waits(LockWait).moves);
      acquired := waits(LockWait).end.Arrives? && owner.Free?;
      if acquired {
        Move(Enter(op));
      }
    }

    /** Lock, open check and worker: what starting and embedding have in common. */
    method Prepare(op: Op, versionOk: bool, waits: Waits) returns (error: Option<CallError>)
      requires Valid()
      modifies this
      ensures Valid() && Later(old(Snapshot()), Snapshot())
      ensures error in {None, Some(LockNotAcquired), Some(ClosedClient), Some(NotStarted)}
      ensures error.None? ==> owner == Started(op) && state == Ready && !old(closed) && !old(closeRequested)
      ensures error.Some? && error != Some(LockNotAcquired) ==> owner.Free?
      ensures old(closed) || old(closeRequested) ==> error in {Some(LockNotAcquired), Some(ClosedClient)}
    {
      var acquired := AcquireLock(op, waits);
      if !acquired {
        return Some(LockNotAcquired);
      }
      var open := EnsureOpen(op);
      if !open {
        return Some(ClosedClient);
      }
      var ok := EnsureStarted(op, versionOk, waits);
      error := if ok then None else Some(NotStarted);
    }

    /** A start that succeeds leaves a READY worker with a known dimension and nothing in its pipes; none
        succeeds once a close was requested. */
    method StartUp(versionOk: bool, waits: Waits) returns (error: Option<CallError>)
      requires Valid()
      modifies this
      ensures Valid() && Later(old(Snapshot()), Snapshot())
      ensures error.None? ==>
                && owner.Free? && state == Ready && process.Some? && process.value in procs
                && dimension.Some? && PipesIdle(procs[process.value], dimension.value)
      ensures error.Some? && error != Some(LockNotAcquired) ==> owner.Free?
      ensures old(closed) || old(closeRequested) ==> error in {Some(LockNotAcquired), Some(ClosedClient)}
    {
      error := Prepare(Start, versionOk, waits);
      if error.None? {
        Withdraw(Start);
      }
    }

    /** The vectors of this outcome are the last ones handed out: one per text of its request, in the
        dimension that the worker announced, and row by row what the model put out for that request. */
    ghost predicate IsHandedOut(outcome: EmbedOutcome)
      reads this
    {
      && outcome.Embedded? && dimension == Some(outcome.dimension)
      && outcome.request.generation == generation && state == Ready
      && Fit(outcome.vectors, |outcome.request.texts|, outcome.dimension)
      && delivered != []
      && delivered[|delivered| - 1]
         == Delivery(outcome.request, Result(outcome.request.generation, outcome.request.id, outcome.vectors))
      && exists said | said in answered ::
           said.request == outcome.request && IsOutputOf(said, outcome.vectors)
    }

    method FailExchange(canceled: bool, waits: Waits) returns (outcome: EmbedOutcome)
      requires Valid() && Talking(owner)
      modifies this
      ensures Valid() && Later(old(Snapshot()), Snapshot()) && owner.Free? && outcome == Failed(ExchangeFailed)
    {
      FailOperation(canceled);
      UnwindAbort(waits);
      outcome := Failed(ExchangeFailed);
    }

    /** An error that the exchange does not catch lets go of the lock and leaves a live worker behind,
        which is not READY and so is never used again. */
    method LetGo() returns (outcome: EmbedOutcome)
      requires Valid() && (owner.Writing? || owner.AwaitingReply?)
      modifies this
      ensures Valid() && Snapshot() == Do(old(Snapshot()), PipeError) && Snapshot() == old(Snapshot()).(owner := Free)
      ensures outcome == Failed(PipeBroke) && state != Ready
    {
      SoundStep(Snapshot(), PipeError);
      owner := Free;
      outcome := Failed(PipeBroke);
    }

    method ReceiveOutcome(request: Request) returns (outcome: EmbedOutcome)
      requires Valid() && owner == AwaitingReply(request) && HasOutput()
      modifies this
      ensures Valid() && Later(old(Snapshot()), Snapshot()) && owner.Free?
      ensures if outcome.Embedded? then IsHandedOut(outcome) && outcome.request == request
              else outcome == Failed(WorkerReported) && state == Ready && process.Some?
    {
      StepIsLater(Snapshot(), ReadReply);
      var vectors := Receive(request);
      if vectors.Some? {
        HandedOutIsOutput(Snapshot());
      }
      outcome := if vectors.Some? then Embedded(request, dimension.value, vectors.value) else Failed(WorkerReported);
    }

    method Exchange(request: Request, waits: Waits) returns (outcome: EmbedOutcome)
      requires Valid() && owner == Writing(request)
      modifies this
      ensures Valid() && Later(old(Snapshot()), Snapshot()) && owner.Free?
      ensures if outcome.Embedded? then IsHandedOut(outcome) && outcome.request == request
              else outcome in {Failed(ExchangeFailed), Failed(PipeBroke)}
                   || (outcome == Failed(WorkerReported) && state == Ready && process.Some?)
      ensures outcome == Failed(PipeBroke) ==> state != Ready
    {
      Await(waits(WriteWait).moves);
      if waits(WriteWait).end.Breaks? {
        outcome := LetGo();
        return;
      }
      if !waits(WriteWait).end.Arrives? {
        outcome := FailExchange(waits(WriteWait).end.Cancelled?, waits);
        return;
      }
      DrainRequest(request);
      Await(waits(ReplyWait).moves);
      if waits(ReplyWait).end.Arrives? && HasOutput() {
        outcome := ReceiveOutcome(request);
      } else if waits(ReplyWait).end.Breaks? {
        outcome := LetGo();
      } else {
        outcome := FailExchange(waits(ReplyWait).end.Cancelled?, waits);
      }
    }

    /** Whatever happens meanwhile, the vectors that come back answer these very texts; a failure of the
        inference alone keeps the worker; and no call goes through once a close was requested. */
    method EmbedBatch(texts: seq<string>, valid: bool, fits: bool, versionOk: bool, waits: Waits) returns (outcome: EmbedOutcome)
      requires Valid()
      modifies this
      ensures Valid() && Later(old(Snapshot()), Snapshot())
      ensures outcome.Embedded? ==> IsHandedOut(outcome) && outcome.request.texts == texts && valid
      ensures outcome == Failed(WorkerReported) ==> state == Ready && process.Some?
      ensures outcome == Failed(PipeBroke) ==> state != Ready
      ensures outcome != Failed(LockNotAcquired) ==> owner.Free?
      ensures old(closed) || old(closeRequested) ==> outcome in {Failed(LockNotAcquired), Failed(ClosedClient)}
    {
      var error := Prepare(Embed(texts), versionOk, waits);
      if error.Some? {
        return Failed(error.value);
      }
      if !valid {
        Withdraw(Embed(texts));
        return Failed(InvalidRequest);
      }
      var request := Submit(texts, fits);
      if request.None? {
        UnwindAbort(waits);
        return Failed(ExchangeFailed);
      }
      outcome := Exchange(request.value, waits);
    }

    // ---- Closing -------------------------------------------------------------------------------

    /** With the lock: marks the client closed and stops the process gently, unless another close is through. */
    method EnterClose() returns (done: bool)
      requires Valid() && Enabled(Snapshot(), CloseEnter)
      modifies this
      ensures Valid() && Snapshot() == Do(old(Snapshot()), CloseEnter) && Later(old(Snapshot()), Snapshot())
      ensures if done then closeReturned && owner.Free? else owner.Closing?
    {
      SoundStep(Snapshot(), CloseEnter);
      StepIsLater(Snapshot(), CloseEnter);
      done := state == WorkerState.Closed;
      if done {
        closeReturned := true;
        return;
      }
      closed := true;
      state := Stopping;
      var phase := StopProcess(false);
      owner := Closing(phase);
    }

    method FinishClose()
      requires Valid() && owner == Closing(Draining)
      modifies this
      ensures Valid() && Snapshot() == Do(old(Snapshot()), StopDrained) && Later(old(Snapshot()), Snapshot())
      ensures closeReturned && owner.Free?
    {
      SoundStep(Snapshot(), StopDrained);
      state := WorkerState.Closed;
      owner, closeReturned := Free, true;
    }

    /** A close that is cancelled while it stops the process waits for its kill and lets go. */
    method CancelClose(waits: Waits)
      requires Valid() && owner.Closing?
      modifies this
      ensures Valid() && Later(old(Snapshot()), Snapshot()) && owner.Free?
    {
      Move(StopCanceled);
      Await(waits(InterruptWait).moves);
      Move(CloseInterruptDone);
    }

    /** One wait for the process to go, and what follows it. */
    method CloseWait(wait: Wait, waits: Waits) returns (goOn: bool)
      requires Valid() && owner.Closing? && owner.phase != Draining
      modifies this
      ensures Valid() && Later(old(Snapshot()), Snapshot())
      ensures if goOn then owner == Closing(Draining) || (old(owner.phase) == Graceful && owner == Closing(Killing)) else owner.Free?
    {
      Await(wait.moves);
      if wait.end.Cancelled? {
        CancelClose(waits);
        return false;
      }
      goOn := true;
      if wait.end.Arrives? && IsGone() {
        StopSawExit();
      } else if owner.phase == Graceful {
        EscalateStop();
      } else {
        GiveUpStop();
        goOn := false;
      }
    }

    method StopForClose(waits: Waits) returns (done: bool)
      requires Valid() && owner.Closing?
      modifies this
      ensures Valid() && Later(old(Snapshot()), Snapshot()) && owner.Free?
      ensures done ==> closeReturned
    {
      done := true;
      if owner.phase == Graceful {
        done := CloseWait(waits(ExitWait), waits);
      }
      if done && owner.phase == Killing {
        done := CloseWait(waits(KillWait), waits);
      }
      if !done {
        return;
      }
      Await(waits(DrainWait).moves);
      if waits(DrainWait).end.Cancelled? {
        CancelClose(waits);
        return false;
      }
      FinishClose();
    }

    /** The lock for a close: at most two waits, the second after the current process was killed. */
    method LockForClose(waits: Waits) returns (acquired: bool)
      requires Valid() && closeRequested
      modifies this
      ensures Valid() && Later(old(Snapshot()), Snapshot())
      ensures acquired ==> owner.Free?
    {
      AwaitLock(waits(LockWait).moves);
      if waits(LockWait).end.Arrives? && owner.Free? {
        return true;
      }
      if !waits(LockWait).end.Cancelled? {
        Move(CloseKill);
        AwaitLock(waits(LockWaitAgain).moves);
        if waits(LockWaitAgain).end.Arrives? && owner.Free? {
          return true;
        }
      }
      if waits(LockWait).end.Cancelled? || waits(LockWaitAgain).end.Cancelled? {
        Move(CloseWaitCanceled);
      }
      acquired := false;
    }

    /** A close that returns normally leaves no process alive and none on record; one that does not has at
        least closed the client to further calls. */
    method Close(waits: Waits) returns (done: bool)
      requires Valid()
      modifies this
      ensures Valid() && Later(old(Snapshot()), Snapshot())
      ensures done ==> closed && process == None && forall g | g in procs :: procs[g].status == Reaped
      ensures !done ==> closeRequested
    {
      if state == WorkerState.Closed {
        Move(CloseCall);
        return true;
      }
      Move(CloseCall);
      var acquired := LockForClose(waits);
      if !acquired {
        return false;
      }
      done := EnterClose();
      if !done {
        done := StopForClose(waits);
      }
    }
  }
}
