/** Every vector that is handed out is what the model produced for that very text. */
module Provenance {
  import opened EmbeddingWorker
  import opened ProcessEmbeddings
  import opened WorkerSafety
  import opened RequestIds

  /** One of the inferences made was for this request, and the response conveys what it put out. */
  ghost predicate HasOrigin(answered: seq<Inference>, request: Request, r: Response) {
    exists a | a in answered :: a.request == request && Conveys(request, a.encoded, a.dimension, a.sendable, r)
  }

  /** What was handed out, and what is there to be read, comes from an inference for its request. */
  ghost predicate Traced(c: Client) {
    && (forall d | d in c.delivered :: HasOrigin(c.answered, d.request, d.response))
    && (Asking(c) && HasProcess(c) ==> forall r | r in Current(c).stdout :: HasOrigin(c.answered, c.owner.request, r))
  }

  lemma OriginStays(answered: seq<Inference>, more: seq<Inference>, request: Request, r: Response)
    requires HasOrigin(answered, request, r) && answered <= more
    ensures HasOrigin(more, request, r)
  {
    var a :| a in answered && a.request == request && Conveys(request, a.encoded, a.dimension, a.sendable, r);
    assert a in more;
  }

  // ---- Every step keeps it ---------------------------------------------------------------------

  /** The worker answers the request under way. */
  lemma ReplyTraces(c: Client, a: Action)
    requires Inv(c) && Traced(c) && Enabled(c, a) && a.Reply?
    ensures Traced(Do(c, a))
  {
    var d, p := Do(c, a), Current(c);
    var said := Inference(p.serving.request, a.encoded, p.serving.dimension, a.sendable);
    assert d.answered == c.answered + [said] && said in d.answered;
    forall x | x in d.delivered
      ensures HasOrigin(d.answered, x.request, x.response)
    {
      OriginStays(c.answered, d.answered, x.request, x.response);
    }
    if Asking(d) {
      assert p.serving.request == c.owner.request && p.stdout == [];
      var r := RunInference(p.serving.request, a.encoded, p.serving.dimension, a.sendable);
      assert Current(d).stdout == [r] && HasOrigin(d.answered, c.owner.request, r);
    }
  }

  /** Its other moves write nothing while a request is under way. */
  lemma WorkerTraces(c: Client, a: Action)
    requires Inv(c) && Traced(c) && Enabled(c, a) && IsWorkerMove(a) && !a.Reply?
    ensures Traced(Do(c, a))
  {
    WorkerMovesOnly(c, a);
    if a.Take? {
      TakeKeeps(c);
    }
  }

  lemma SubmitTraces(c: Client, texts: seq<string>, fits: bool)
    requires Inv(c) && Traced(c) && c.owner == Started(Embed(texts))
    ensures Traced(Submitted(c, texts, fits))
  {
    SubmitMoves(c, texts, fits);
    SubmitTalks(c, texts, fits);
  }

  lemma ReadReplyTraces(c: Client)
    requires Inv(c) && Traced(c) && Enabled(c, ReadReply)
    ensures Traced(Do(c, ReadReply))
  {
    ReplyPassesChecks(c);
    assert Current(c).stdout[0] in Current(c).stdout;
  }

  lemma OtherTalkTraces(c: Client, a: Action)
    requires Traced(c) && Enabled(c, a) && (a.ReadReady? || a.Fail?)
    ensures Traced(Do(c, a))
  {
    var d := Do(c, a);
    assert !Asking(d) && d.delivered == c.delivered by {
      TalkMoves(c, a);
    }
    assert d.answered == c.answered by {
      TalkStep(c, a);
    }
  }

  lemma TalkTraces(c: Client, a: Action)
    requires Inv(c) && Traced(c) && Enabled(c, a) && IsTalk(a)
    ensures Traced(Do(c, a))
  {
    match a
    case SendRequest(_, fits) =>
      if c.owner.op.Embed? {
        SubmitTraces(c, c.owner.op.texts, fits);
      }
    case ReadReply => ReadReplyTraces(c);
    case Drained =>
    case PipeError =>
    case ReadReady(_) => OtherTalkTraces(c, a);
    case Fail(_) => OtherTalkTraces(c, a);
  }

  lemma QuietTraces(c: Client, d: Client)
    requires Traced(c) && !Asking(d) && d.delivered == c.delivered && d.answered == c.answered
    ensures Traced(d)
  {
  }

  lemma DecideIsQuiet(c: Client)
    requires Enabled(c, Decide)
    ensures var d := Do(c, Decide); !Asking(d) && d.delivered == c.delivered && d.answered == c.answered
  {
  }

  lemma CallIsQuiet(c: Client, a: Action)
    requires Enabled(c, a) && IsCallMove(a) && !IsTalk(a)
    ensures var d := Do(c, a); !Asking(d) && d.delivered == c.delivered && d.answered == c.answered
  {
    if a.Decide? {
      DecideIsQuiet(c);
    }
  }

  lemma StopIsQuiet(c: Client, a: Action)
    requires Enabled(c, a) && !IsCallMove(a) && !IsWorkerMove(a) && !a.CloseCall? && !a.CloseKill? && !a.CloseWaitCanceled?
    ensures var d := Do(c, a); !Asking(d) && d.delivered == c.delivered && d.answered == c.answered
  {
  }

  lemma KillTraces(c: Client)
    requires Traced(c)
    ensures Traced(Kill(c)) && Traced(Kill(c).(state := Stopping))
  {
  }

  lemma StopTraces(c: Client, a: Action)
    requires Traced(c) && Enabled(c, a) && !IsCallMove(a) && !IsWorkerMove(a)
    ensures Traced(Do(c, a))
  {
    if a.CloseKill? || a.CloseWaitCanceled? {
      KillTraces(c);
    } else if !a.CloseCall? {
      StopIsQuiet(c, a);
      QuietTraces(c, Do(c, a));
    }
  }

  lemma StepTraces(c: Client, a: Action)
    requires Inv(c) && Traced(c) && Enabled(c, a)
    ensures Traced(Do(c, a))
  {
    if a.Reply? {
      ReplyTraces(c, a);
    } else if IsWorkerMove(a) {
      WorkerTraces(c, a);
    } else if IsTalk(a) {
      TalkTraces(c, a);
    } else if IsCallMove(a) {
      CallIsQuiet(c, a);
      QuietTraces(c, Do(c, a));
    } else {
      StopTraces(c, a);
    }
  }

  // ---- All runs --------------------------------------------------------------------------------

  lemma {:induction false} RunTraces(cs: seq<Client>, actions: seq<Action>, n: nat)
    requires IsRun(cs, actions) && n < |cs|
    ensures Traced(cs[n])
  {
    if n > 0 {
      RunTraces(cs, actions, n - 1);
      RunKeeps(cs, actions, n - 1);
      StepTraces(cs[n - 1], actions[n - 1]);
    }
  }

  /** The move by which a worker made this inference. */
  ghost predicate IsMoveOf(c: Client, a: Action, said: Inference) {
    && a == Reply(said.encoded, said.sendable)
    && HasProcess(c) && Current(c).serving == Working(said.request, said.dimension)
  }

  lemma StepRecords(c: Client, a: Action)
    requires Enabled(c, a)
    ensures var d := Do(c, a);
      if a.Reply? then d.answered != [] && d.answered[..|d.answered| - 1] == c.answered && IsMoveOf(c, a, d.answered[|d.answered| - 1])
      else d.answered == c.answered
  {
    if IsTalk(a) {
      TalkStep(c, a);
    }
  }

  lemma {:induction false} InferencesAreMoves(cs: seq<Client>, actions: seq<Action>, n: nat, said: Inference) returns (i: nat)
    requires IsRun(cs, actions) && n < |cs| && said in cs[n].answered
    ensures i < n && IsMoveOf(cs[i], actions[i], said)
  {
    if n == 0 {
      assert false;
    } else {
      var before, answered := cs[n - 1].answered, cs[n].answered;
      StepRecords(cs[n - 1], actions[n - 1]);
      if said in before {
        i := InferencesAreMoves(cs, actions, n - 1, said);
      } else {
        assert answered == before + [answered[|answered| - 1]];
        i := n - 1;
      }
    }
  }

  /** Main result: in every run, whatever is handed out for a request is, row by row, what the model put
      out for that request, in the move of the worker that answered it. */
  lemma DeliveredIsWhatTheModelSaid(cs: seq<Client>, actions: seq<Action>, n: nat, d: Delivery) returns (i: nat)
    requires IsRun(cs, actions) && n < |cs| && d in cs[n].delivered
    ensures i < n && actions[i].Reply? && HasProcess(cs[i]) && Current(cs[i]).serving.Working?
    ensures Current(cs[i]).serving.request == d.request && d.response.Result?
    ensures actions[i].encoded.Output? && actions[i].encoded.raw.Rows? && |actions[i].encoded.raw.rows| == |d.request.texts| == |d.response.vectors|
    ensures forall k | 0 <= k < |d.request.texts| ::
              actions[i].encoded.raw.rows[k].Row? && d.response.vectors[k] == actions[i].encoded.raw.rows[k].values
  {
    RunTraces(cs, actions, n);
    RunKeeps(cs, actions, n);
    var said :| said in cs[n].answered && said.request == d.request
                && Conveys(d.request, said.encoded, said.dimension, said.sendable, d.response);
    i := InferencesAreMoves(cs, actions, n, said);
  }
}
