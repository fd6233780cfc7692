/** The embedding client and its worker as one machine.

    A step is what runs between two awaits, or one move of the worker or the operating system.
    Calls are serialized by the operation lock, so only the lock's owner has a place in the code;
    callers that wait for the lock have no effect but those of a pending close, which may kill
    the current process or, when cancelled, mark the client as stopping. */
module ProcessEmbeddings {
  import opened Messages
  import opened EmbeddingWorker

  datatype WorkerState = New | Starting | Ready | Busy | Stopping | Closed

  // ---- The worker process ----------------------------------------------------------------------

  /** `Ending` has exited or been killed but is not reaped: the client still sees it as running. */
  datatype ProcStatus = Running | Ending | Reaped

  datatype Serving = Loading | Serving(dimension: nat) | Working(request: Request, dimension: nat)

  datatype Proc = Proc(status: ProcStatus, stdin: seq<Request>, stdout: seq<Response>, serving: Serving)

  // ---- The owner of the operation lock ---------------------------------------------------------

  datatype Op = Start | Embed(texts: seq<string>)

  /** Where a stop has got to: waiting for a clean exit, waiting after a kill, or collecting stderr
      once the process is forgotten. */
  datatype StopPhase = Graceful | Killing | Draining

  datatype Owner =
    | Free
    | Entered(op: Op)                           // has the lock, open check ahead
    | Opened(op: Op)                            // open check passed
    | StoppingOld(op: Op, phase: StopPhase)     // replacing an unusable process
    | Spawning(op: Op)                          // generation counted, process not created yet
    | AwaitingReady(op: Op)
    | Started(op: Op)
    | Writing(request: Request)
    | AwaitingReply(request: Request)
    | Aborting(phase: StopPhase, shielded: bool)  // forced stop after a failure, then raise
    | Closing(phase: StopPhase)
    | CloseInterrupted                          // a cancelled close waits for its kill

  datatype Delivery = Delivery(request: Request, response: Response)

  /** One inference that a worker has answered: what the model put out, and whether that could be sent. */
  datatype Inference = Inference(request: Request, encoded: Encoded, dimension: nat, sendable: bool)

  datatype Client = Client(
    state: WorkerState,
    process: Option<nat>,
    generation: nat,
    dimension: Option<nat>,
    closed: bool,
    closeRequested: bool,
    owner: Owner,
    nextId: nat,
    procs: map<nat, Proc>,
    delivered: seq<Delivery>,
    closeReturned: bool,
    answered: seq<Inference>)

  function Fresh(): Client {
    Client(New, None, 0, None, false, false, Free, 0, map[], [], false, [])
  }

  predicate HasProcess(c: Client) {
    c.process.Some? && c.process.value in c.procs
  }

  function Current(c: Client): Proc
    requires HasProcess(c)
  {
    c.procs[c.process.value]
  }

  function SetCurrent(c: Client, p: Proc): Client
    requires HasProcess(c)
  {
    c.(procs := c.procs[c.process.value := p])
  }

  /** A kill makes a running process end; it changes nothing for one that has already ended. */
  function Kill(c: Client): Client {
    if HasProcess(c) && Current(c).status == Running then SetCurrent(c, Current(c).(status := Ending)) else c
  }

  function Release(c: Client): Client {
    c.(owner := Free)
  }

  // ---- Stopping a process ----------------------------------------------------------------------

  datatype Stop = Stop(c: Client, phase: StopPhase)

  function Forget(c: Client): Client {
    c.(process := None, dimension := None)
  }

  function BeginStop(c: Client, force: bool): Stop {
    if !HasProcess(c) || Current(c).status == Reaped then Stop(Forget(c), Draining)
    else if force then Stop(Kill(c), Killing)
    else Stop(c, Graceful)
  }

  function Abort(c: Client, shielded: bool): Client {
    var s := BeginStop(c, true);
    s.c.(owner := Aborting(s.phase, shielded))
  }

  // ---- Reading a response ----------------------------------------------------------------------

  datatype Verdict = Accepted | WorkerFailed | Mismatch

  /** The client's checks, in its own order. */
  function Check(c: Client, request: Request, r: Response): Verdict {
    match r
    case Failure(_, _, _) => WorkerFailed
    case ReadyMessage(_, _, _) => Mismatch
    case Result(generation, id, vectors) =>
      if generation != c.generation then Mismatch
      else if id != request.id then Mismatch
      else if |vectors| != |request.texts| then Mismatch
      else if c.dimension.None? || exists i | 0 <= i < |vectors| :: |vectors[i]| != c.dimension.value then Mismatch
      else Accepted
  }

  // ---- Actions ---------------------------------------------------------------------------------

  datatype Action =
    // calls
    | Enter(op: Op)
    | CheckOpen
    | Decide                      // reuse, stop the old process, or start a generation
    | Spawn
    | ReadReady(versionOk: bool)
    | SendRequest(valid: bool, fits: bool)
    | Drained
    | ReadReply
    | Fail(canceled: bool)        // timeout or error, or a cancellation, while talking to a worker
    | PipeError                   // an error of the pipes that an exchange does not catch
    // stopping
    | StopExited
    | StopTimedOut
    | StopDrained
    | StopCanceled
    // closing
    | CloseCall
    | CloseEnter
    | CloseKill                   // a waiting close runs out of patience
    | CloseWaitCanceled
    | CloseInterruptDone
    // the worker and the operating system
    | Load(dimension: nat, version: string)
    | LoadFail
    | Take
    | Reply(encoded: Encoded, sendable: bool)
    | ProcExit
    | Reap

  predicate Talking(o: Owner) {
    o.Spawning? || o.AwaitingReady? || o.Writing? || o.AwaitingReply?
  }

  function PhaseOf(o: Owner): Option<StopPhase> {
    match o
    case StoppingOld(_, phase) => Some(phase)
    case Aborting(phase, _) => Some(phase)
    case Closing(phase) => Some(phase)
    case _ => None
  }

  function WithPhase(o: Owner, phase: StopPhase): Owner
    requires PhaseOf(o).Some?
  {
    match o
    case StoppingOld(op, _) => StoppingOld(op, phase)
    case Aborting(_, shielded) => Aborting(phase, shielded)
    case Closing(_) => Closing(phase)
  }

  predicate Enabled(c: Client, a: Action) {
    match a
    case Enter(_) => c.owner.Free?
    case CheckOpen => c.owner.Entered?
    case Decide => c.owner.Opened?
    case Spawn => c.owner.Spawning?
    case ReadReady(_) => c.owner.AwaitingReady? && HasProcess(c) && Current(c).stdout != []
    case SendRequest(_, _) => c.owner.Started?
    case Drained => c.owner.Writing?
    case ReadReply => c.owner.AwaitingReply? && HasProcess(c) && Current(c).stdout != []
    case Fail(_) => Talking(c.owner)
    case PipeError => c.owner.Writing? || c.owner.AwaitingReply?
    case StopExited =>
      PhaseOf(c.owner).Some? && !PhaseOf(c.owner).value.Draining? && HasProcess(c) && Current(c).status == Reaped
    case StopTimedOut => PhaseOf(c.owner).Some? && !PhaseOf(c.owner).value.Draining?
    case StopDrained => PhaseOf(c.owner) == Some(Draining)
    case StopCanceled => PhaseOf(c.owner).Some? && !(c.owner.Aborting? && c.owner.shielded)
    case CloseCall => true
    case CloseEnter => c.owner.Free? && c.closeRequested
    case CloseKill => c.closeRequested
    case CloseWaitCanceled => c.closeRequested
    case CloseInterruptDone => c.owner.CloseInterrupted?
    case Load(dimension, _) =>
      HasProcess(c) && Current(c).status == Running && Current(c).serving.Loading?
      && 1 <= dimension <= MAX_VECTOR_DIMENSION
    case LoadFail => HasProcess(c) && Current(c).status == Running && Current(c).serving.Loading?
    case Take =>
      HasProcess(c) && Current(c).status == Running && Current(c).serving.Serving? && Current(c).stdin != []
    case Reply(_, _) => HasProcess(c) && Current(c).status == Running && Current(c).serving.Working?
    case ProcExit => HasProcess(c) && Current(c).status == Running
    case Reap => HasProcess(c) && Current(c).status == Ending
  }

  /** Process start: a generation is counted before anything can fail. */
  function BeginSpawn(c: Client, op: Op): Client {
    c.(generation := c.generation + 1, state := Starting, owner := Spawning(op))
  }

  function DoDecide(c: Client): Client
    requires c.owner.Opened?
  {
    if c.state == Ready && HasProcess(c) && Current(c).status != Reaped then c.(owner := Started(c.owner.op))
    else if c.process.Some? then
      var s := BeginStop(c, true);
      s.c.(owner := StoppingOld(c.owner.op, s.phase))
    else BeginSpawn(c, c.owner.op)
  }

  function DoReadReady(c: Client, versionOk: bool): Client
    requires Enabled(c, ReadReady(versionOk))
  {
    var r := Current(c).stdout[0];
    var read := SetCurrent(c, Current(c).(stdout := Current(c).stdout[1..]));
    if r.ReadyMessage? && r.generation == c.generation && versionOk then
      read.(dimension := Some(r.dimension), state := Ready, owner := Started(c.owner.op))
    else Abort(read, false)
  }

  function WriteTo(c: Client, request: Request, fits: bool): Client {
    if !HasProcess(c) || Current(c).status == Reaped || !fits then Abort(c, false)
    else SetCurrent(c, Current(c).(stdin := Current(c).stdin + [request])).(owner := Writing(request))
  }

  /** A valid request on its way, or the worker being stopped because it could not be written. */
  function Submitted(c: Client, texts: seq<string>, fits: bool): Client {
    WriteTo(c.(state := Busy, nextId := c.nextId + 1), Request(c.generation, c.nextId, texts), fits)
  }

  /** A start is done here; an embedding builds its request, marks itself busy and writes. */
  function DoSend(c: Client, valid: bool, fits: bool): Client
    requires c.owner.Started?
  {
    match c.owner.op
    case Start => Release(c)
    case Embed(texts) =>
      if valid then Submitted(c, texts, fits) else Release(c)
  }

  function DoReadReply(c: Client): Client
    requires Enabled(c, ReadReply)
  {
    var r := Current(c).stdout[0];
    var read := SetCurrent(c, Current(c).(stdout := Current(c).stdout[1..]));
    match Check(c, c.owner.request, r)
    case Mismatch => Abort(read, false)
    case WorkerFailed => read.(state := Ready, owner := Free)
    case Accepted =>
      read.(state := Ready, owner := Free, delivered := c.delivered + [Delivery(c.owner.request, r)])
  }

  /** What follows a completed stop. */
  function DoStopDrained(c: Client): Client
    requires PhaseOf(c.owner).Some?
  {
    match c.owner
    case StoppingOld(op, _) => BeginSpawn(c, op)
    case Aborting(_, _) => c.(state := New, owner := Free)
    case Closing(_) => c.(state := Closed, owner := Free, closeReturned := true)
  }

  /** A stop whose kill is not confirmed in time raises and leaves the process recorded. */
  function DoStopTimedOut(c: Client): Client
    requires PhaseOf(c.owner).Some?
  {
    if PhaseOf(c.owner) == Some(Graceful) then
      var killed := Kill(c);
      killed.(owner := WithPhase(c.owner, Killing))
    else Release(c)
  }

  function DoStopCanceled(c: Client): Client {
    if c.owner.Closing? then Kill(c).(state := Stopping, owner := CloseInterrupted) else Release(c)
  }

  function DoCloseEnter(c: Client): Client {
    if c.state == Closed then c.(closeReturned := true)
    else
      var s := BeginStop(c.(closed := true, state := Stopping), false);
      s.c.(owner := Closing(s.phase))
  }

  // ---- Moves of a worker -------------------------------------------------------------------------

  /** Loading succeeds: READY is written. */
  function AfterLoad(p: Proc, generation: nat, dimension: nat, version: string): Proc {
    p.(stdout := p.stdout + [ReadyMessage(generation, version, dimension)], serving := Serving(dimension))
  }

  /** The next request is read; one of another generation ends the worker. */
  function AfterTake(p: Proc, generation: nat): Proc
    requires p.serving.Serving? && p.stdin != []
  {
    var request := p.stdin[0];
    if request.generation != generation then
      p.(stdin := p.stdin[1..], status := Ending, stdout := p.stdout + [Failure(generation, Some(request.id), ProtocolError)])
    else p.(stdin := p.stdin[1..], serving := Working(request, p.serving.dimension))
  }

  /** The request is answered. */
  function AfterReply(p: Proc, encoded: Encoded, sendable: bool): Proc
    requires p.serving.Working?
  {
    p.(stdout := p.stdout + [RunInference(p.serving.request, encoded, p.serving.dimension, sendable)],
       serving := Serving(p.serving.dimension))
  }

  function Do(c: Client, a: Action): Client
    requires Enabled(c, a)
  {
    match a
    case Enter(op) => c.(owner := Entered(op))
    case CheckOpen => if c.closed || c.closeRequested then Release(c) else c.(owner := Opened(c.owner.op))
    case Decide => DoDecide(c)
    case Spawn =>
      c.(procs := c.procs[c.generation := Proc(Running, [], [], Loading)], process := Some(c.generation),
         owner := AwaitingReady(c.owner.op))
    case ReadReady(versionOk) => DoReadReady(c, versionOk)
    case SendRequest(valid, fits) => DoSend(c, valid, fits)
    case Drained => c.(owner := AwaitingReply(c.owner.request))
    case ReadReply => DoReadReply(c)
    case Fail(canceled) => Abort(c, canceled)
    case PipeError => Release(c)
    case StopExited =>
      var forgotten := Forget(c);
      forgotten.(owner := WithPhase(c.owner, Draining))
    case StopTimedOut => DoStopTimedOut(c)
    case StopDrained => DoStopDrained(c)
    case StopCanceled => DoStopCanceled(c)
    case CloseCall => if c.state == Closed then c.(closeReturned := true) else c.(closeRequested := true)
    case CloseEnter => DoCloseEnter(c)
    case CloseKill => Kill(c)
    case CloseWaitCanceled => Kill(c).(state := Stopping)
    case CloseInterruptDone => Release(c)
    case Load(dimension, version) =>
      SetCurrent(c, AfterLoad(Current(c), c.process.value, dimension, version))
    case LoadFail =>
      SetCurrent(c, Current(c).(stdout := Current(c).stdout + [Failure(c.process.value, None, StartupFailed)],
                                status := Ending))
    case Take => SetCurrent(c, AfterTake(Current(c), c.process.value))
    case Reply(encoded, sendable) =>
      var said := Inference(Current(c).serving.request, encoded, Current(c).serving.dimension, sendable);
      SetCurrent(c, AfterReply(Current(c), encoded, sendable)).(answered := c.answered + [said])
    case ProcExit => SetCurrent(c, Current(c).(status := Ending))
    case Reap => SetCurrent(c, Current(c).(status := Reaped))
  }

  // ---- The moves are those of the request loop ---------------------------------------------------

  /** The worker after it loaded its model and answered the first `n` of these requests. */
  function Served(s: Surroundings, requests: seq<Request>, n: nat): (p: Proc)
    requires DimensionOk(s) && n <= |requests| && forall r | r in requests :: r.generation == s.generation
    ensures p.status == Running && p.serving == Serving(s.loaded.value) && p.stdin == requests[n..]
  {
    if n == 0 then AfterLoad(Proc(Running, requests, [], Loading), s.generation, s.loaded.value, s.version)
    else
      var request := requests[n - 1];
      AfterReply(AfterTake(Served(s, requests, n - 1), s.generation), s.encode(request), s.sendable(request))
  }

  /** What the moves write is what the loop writes: READY, then the answer to each request in turn. */
  lemma {:induction false} MovesWriteWhatServeWrites(s: Surroundings, requests: seq<Request>, n: nat)
    requires DimensionOk(s) && n <= |requests| && forall r | r in requests :: r.generation == s.generation
    ensures var out := Served(s, requests, n).stdout;
            && |out| == n + 1 && out[0] == ReadyMessage(s.generation, s.version, s.loaded.value)
            && (forall k | 0 <= k < n :: out[k + 1] == Answer(s, s.loaded.value, requests[k]))
            && forall k | 0 <= k < n :: IsAnswer(s, s.loaded.value, requests[k], out[k + 1])
  {
    if n > 0 {
      MovesWriteWhatServeWrites(s, requests, n - 1);
    }
  }

  /** So is what they write for a request of another generation, which is also the last. */
  lemma MovesRejectWhatServeRejects(s: Surroundings, p: Proc)
    requires p.serving.Serving? && p.stdin != [] && p.stdin[0].generation != s.generation
    ensures var after := AfterTake(p, s.generation);
            after.stdout == p.stdout + [Rejection(s, Decoded(p.stdin[0]))] && after.status == Ending
  {
  }
}
