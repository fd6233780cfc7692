/** The worker side of the embedding protocol: load one model, then one answer per request. */
module EmbeddingWorker {
  import opened Messages

  type Vector = seq<real>

  datatype Request = Request(generation: nat, id: nat, texts: seq<string>)

  datatype ErrorType = StartupFailed | ProtocolError | OutputInvalid | InferenceFailed

  datatype Response =
    | ReadyMessage(generation: nat, version: string, dimension: nat)
    | Result(generation: nat, id: nat, vectors: seq<Vector>)
    | Failure(generation: nat, requestId: Option<nat>, error: ErrorType)

  const MAX_VECTOR_DIMENSION := 4096

  // ---- One inference ---------------------------------------------------------------------------

  datatype RawRow = NotARow | Row(values: Vector)

  /** What the model's output converts to. */
  datatype RawOutput = NoToList | NotAList | Rows(rows: seq<RawRow>)

  datatype Encoded = Output(raw: RawOutput) | RaisedTypeOrValueError | RaisedOther

  predicate RowsFit(rows: seq<RawRow>, batch: nat, dimension: nat) {
    |rows| == batch && forall i | 0 <= i < |rows| :: rows[i].Row? && |rows[i].values| == dimension
  }

  /** All vectors of the given dimension. */
  predicate Fit(vectors: seq<Vector>, batch: nat, dimension: nat) {
    |vectors| == batch && forall i | 0 <= i < |vectors| :: |vectors[i]| == dimension
  }

  function Coerced(raw: RawOutput, batch: nat, dimension: nat): Option<seq<Vector>> {
    if raw.Rows? && RowsFit(raw.rows, batch, dimension)
    then Some(seq(|raw.rows|, i requires 0 <= i < |raw.rows| => raw.rows[i].values))
    else None
  }

  /** Conversion fails exactly when the output is not one row of the right length per text. */
  method CoerceVectors(raw: RawOutput, batch: nat, dimension: nat) returns (vectors: Option<seq<Vector>>)
    ensures vectors.Some? <==> raw.Rows? && RowsFit(raw.rows, batch, dimension)
    ensures vectors.Some? ==> Fit(vectors.value, batch, dimension)
                              && forall i | 0 <= i < batch :: vectors.value[i] == raw.rows[i].values
    ensures vectors == Coerced(raw, batch, dimension)
  {
    if !raw.Rows? || |raw.rows| != batch {
      return None;
    }
    var out: seq<Vector> := [];
    for i := 0 to |raw.rows|
      invariant |out| == i
      invariant forall k | 0 <= k < i :: raw.rows[k].Row? && |raw.rows[k].values| == dimension && out[k] == raw.rows[k].values
    {
      if raw.rows[i].NotARow? || |raw.rows[i].values| != dimension {
        return None;
      }
      out := out + [raw.rows[i].values];
    }
    assert out == seq(|raw.rows|, i requires 0 <= i < |raw.rows| => raw.rows[i].values);
    vectors := Some(out);
  }

  /** A response to this very request: its id and generation, and if it carries vectors, one of
      the announced dimension for each text. */
  ghost predicate Answers(request: Request, dimension: nat, r: Response) {
    match r
    case ReadyMessage(_, _, _) => false
    case Result(generation, id, vectors) =>
      generation == request.generation && id == request.id && Fit(vectors, |request.texts|, dimension)
    case Failure(generation, requestId, _) => generation == request.generation && requestId == Some(request.id)
  }

  /** The response to this request carries row by row what the model put out, exactly if that fits and can
      be sent; otherwise it says what went wrong. */
  ghost predicate Conveys(request: Request, encoded: Encoded, dimension: nat, sendable: bool, r: Response) {
    && Answers(request, dimension, r)
    && (r.Result? <==>
          encoded.Output? && encoded.raw.Rows? && RowsFit(encoded.raw.rows, |request.texts|, dimension) && sendable)
    && (r.Result? ==> forall i | 0 <= i < |request.texts| :: r.vectors[i] == encoded.raw.rows[i].values)
    && (r.Failure? ==> r.error == if encoded.RaisedOther? then InferenceFailed else OutputInvalid)
  }

  /** The response to `request`; `sendable` is the message schema's own check of the vectors. */
  function RunInference(request: Request, encoded: Encoded, dimension: nat, sendable: bool): (r: Response)
    ensures Answers(request, dimension, r)
    ensures Conveys(request, encoded, dimension, sendable, r)
  {
    match encoded
    case RaisedOther => Failure(request.generation, Some(request.id), InferenceFailed)
    case RaisedTypeOrValueError => Failure(request.generation, Some(request.id), OutputInvalid)
    case Output(raw) =>
      match Coerced(raw, |request.texts|, dimension)
      case Some(vectors) =>
        if sendable then Result(request.generation, request.id, vectors)
        else Failure(request.generation, Some(request.id), OutputInvalid)
      case None => Failure(request.generation, Some(request.id), OutputInvalid)
  }

  // ---- The request loop ------------------------------------------------------------------------

  /** A line of input: a request, or something that does not decode to one. */
  datatype Line = Decoded(request: Request) | Garbage

  datatype ExitCode = ExitOk | ExitStartup | ExitProtocol | ExitOutput

  /** Everything the worker does not decide: the loaded model's dimension if loading succeeds, its
      outputs, the schema's verdict on them, and which writes reach the pipe. */
  datatype Surroundings = Surroundings(
    generation: nat, version: string, loaded: Option<int>,
    encode: Request -> Encoded, sendable: Request -> bool, writable: nat -> bool)

  predicate GoodLine(s: Surroundings, line: Line) {
    line.Decoded? && line.request.generation == s.generation
  }

  function Answer(s: Surroundings, dimension: nat, request: Request): Response {
    RunInference(request, s.encode(request), dimension, s.sendable(request))
  }

  /** The model's own output for this request, in the response to it. */
  ghost predicate IsAnswer(s: Surroundings, dimension: nat, request: Request, r: Response) {
    Conveys(request, s.encode(request), dimension, s.sendable(request), r)
  }

  /** The parting message for a line that is not a request of this generation. */
  function Rejection(s: Surroundings, line: Line): Response {
    Failure(s.generation, if line.Decoded? then Some(line.request.id) else None, ProtocolError)
  }

  predicate DimensionOk(s: Surroundings) {
    s.loaded.Some? && 1 <= s.loaded.value <= MAX_VECTOR_DIMENSION
  }

  /** Serving is in lockstep: READY first, then response k answers line k, up to the end of input,
      the first bad line, or the first write that fails. */
  method Serve(s: Surroundings, lines: seq<Line>) returns (written: seq<Response>, served: nat, exit: ExitCode)
    ensures served <= |lines|
    ensures !DimensionOk(s) ==>
              served == 0 && exit in {ExitStartup, ExitOutput}
              && (exit == ExitStartup <==> s.writable(0))
              && written == if s.writable(0) then [Failure(s.generation, None, StartupFailed)] else []
    ensures DimensionOk(s) && !s.writable(0) ==> written == [] && served == 0 && exit == ExitOutput
    ensures DimensionOk(s) && s.writable(0) ==>
              && |written| >= served + 1
              && written[0] == ReadyMessage(s.generation, s.version, s.loaded.value)
              && (forall k | 0 <= k < served :: GoodLine(s, lines[k]) && written[k + 1] == Answer(s, s.loaded.value, lines[k].request))
              && (forall k | 0 <= k < served :: IsAnswer(s, s.loaded.value, lines[k].request, written[k + 1]))
              && match exit
                 case ExitOk => served == |lines| && |written| == served + 1
                 case ExitProtocol =>
                   served < |lines| && !GoodLine(s, lines[served])
                   && written[served + 1..] == [Rejection(s, lines[served])]
                   && written[served + 1] ==
                        Failure(s.generation, if lines[served].Garbage? then None else Some(lines[served].request.id), ProtocolError)
                 case ExitOutput => served < |lines| && |written| == served + 1 && !s.writable(served + 1)
                 case ExitStartup => false
  {
    served := 0;
    if !DimensionOk(s) {
      if s.writable(0) {
        return [Failure(s.generation, None, StartupFailed)], 0, ExitStartup;
      }
      return [], 0, ExitOutput;
    }
    if !s.writable(0) {
      return [], 0, ExitOutput;
    }
    written := [ReadyMessage(s.generation, s.version, s.loaded.value)];
    while served < |lines|
      invariant 0 <= served <= |lines| && |written| == served + 1
      invariant written[0] == ReadyMessage(s.generation, s.version, s.loaded.value)
      invariant forall k | 0 <= k < served ::
                  GoodLine(s, lines[k]) && written[k + 1] == Answer(s, s.loaded.value, lines[k].request)
      invariant forall k | 0 <= k < served :: IsAnswer(s, s.loaded.value, lines[k].request, written[k + 1])
    {
      var line := lines[served];
      if !GoodLine(s, line) {
        if s.writable(served + 1) {
          written := written + [Rejection(s, line)];
          return written, served, ExitProtocol;
        }
        return written, served, ExitOutput;
      }
      var response := Answer(s, s.loaded.value, line.request);
      if !s.writable(served + 1) {
        return written, served, ExitOutput;
      }
      written := written + [response];
      served := served + 1;
    }
    exit := ExitOk;
  }
}
