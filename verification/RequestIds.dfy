/** No two requests share an id, so an answer that was left behind can never pass for the answer to a
    later request. */
module RequestIds {
  import opened EmbeddingWorker
  import opened ProcessEmbeddings
  import opened WorkerSafety

  /** A request is under way. */
  predicate Asking(c: Client) {
    c.owner.Writing? || c.owner.AwaitingReply?
  }

  /** One more result is handed out, for the request under way. */
  ghost predicate HandsOut(c: Client, d: Client)
    requires Asking(c)
  {
    && d.delivered != [] && d.delivered[..|d.delivered| - 1] == c.delivered
    && d.delivered[|d.delivered| - 1].request == c.owner.request
  }

  /** What a step does to ids: a request under way stays, a new one takes the next id, and only its own
      result is handed out. */
  ghost predicate IdsMove(c: Client, d: Client) {
    && c.nextId <= d.nextId
    && if Asking(d) then
         && d.delivered == c.delivered
         && if Asking(c) then d.owner.request == c.owner.request && d.nextId == c.nextId
            else d.owner.request.id == c.nextId && d.nextId == c.nextId + 1
       else d.delivered == c.delivered || (Asking(c) && HandsOut(c, d))
  }

  lemma AbortMoves(c: Client, shielded: bool)
    ensures var d := Abort(c, shielded); !Asking(d) && d.nextId == c.nextId && d.delivered == c.delivered
  {
  }

  lemma ReadReadyMoves(c: Client, versionOk: bool)
    requires Enabled(c, ReadReady(versionOk))
    ensures IdsMove(c, Do(c, ReadReady(versionOk)))
  {
    AbortMoves(SetCurrent(c, Current(c).(stdout := Current(c).stdout[1..])), false);
  }

  lemma SubmitMoves(c: Client, texts: seq<string>, fits: bool)
    requires c.owner.Started?
    ensures IdsMove(c, Submitted(c, texts, fits))
  {
    AbortMoves(c.(state := Busy, nextId := c.nextId + 1), false);
  }

  lemma ReadReplyMoves(c: Client)
    requires Enabled(c, ReadReply)
    ensures IdsMove(c, Do(c, ReadReply))
  {
    AbortMoves(SetCurrent(c, Current(c).(stdout := Current(c).stdout[1..])), false);
  }

  lemma TalkMoves(c: Client, a: Action)
    requires Enabled(c, a) && IsTalk(a)
    ensures IdsMove(c, Do(c, a))
  {
    match a
    case ReadReady(versionOk) => ReadReadyMoves(c, versionOk);
    case SendRequest(_, fits) =>
      if c.owner.op.Embed? {
        SubmitMoves(c, c.owner.op.texts, fits);
      }
    case ReadReply => ReadReplyMoves(c);
    case Fail(canceled) => AbortMoves(c, canceled);
    case Drained =>
    case PipeError =>
  }

  lemma CallMoves(c: Client, a: Action)
    requires Enabled(c, a) && IsCallMove(a) && !IsTalk(a)
    ensures IdsMove(c, Do(c, a))
  {
  }

  lemma StopMoves(c: Client, a: Action)
    requires Enabled(c, a) && !IsCallMove(a) && !IsWorkerMove(a)
    ensures IdsMove(c, Do(c, a))
  {
  }

  lemma StepMoves(c: Client, a: Action)
    requires Enabled(c, a)
    ensures IdsMove(c, Do(c, a))
  {
    if IsWorkerMove(a) {
      WorkerMovesOnly(c, a);
    } else if IsTalk(a) {
      TalkMoves(c, a);
    } else if IsCallMove(a) {
      CallMoves(c, a);
    } else {
      StopMoves(c, a);
    }
  }

  /** The results handed out answer requests of ascending ids, below that of the request under way, and
      every id in use is below all that are still to come. */
  ghost predicate IdsAscend(c: Client) {
    && (Asking(c) ==> c.owner.request.id < c.nextId)
    && (forall d | d in c.delivered :: d.request.id < if Asking(c) then c.owner.request.id else c.nextId)
    && forall i, j | 0 <= i < j < |c.delivered| :: c.delivered[i].request.id < c.delivered[j].request.id
  }

  lemma MoveKeepsAscending(c: Client, d: Client)
    requires IdsAscend(c) && IdsMove(c, d)
    ensures IdsAscend(d)
  {
    if d.delivered != c.delivered {
      assert d.delivered == c.delivered + [d.delivered[|d.delivered| - 1]];
    }
  }

  lemma RunMoves(cs: seq<Client>, actions: seq<Action>, n: nat)
    requires IsRun(cs, actions) && n < |actions|
    ensures IdsMove(cs[n], cs[n + 1])
  {
    StepMoves(cs[n], actions[n]);
  }

  lemma {:induction false} IdsAlwaysAscend(cs: seq<Client>, actions: seq<Action>, n: nat)
    requires IsRun(cs, actions) && n < |cs|
    ensures IdsAscend(cs[n])
  {
    if n > 0 {
      IdsAlwaysAscend(cs, actions, n - 1);
      RunMoves(cs, actions, n - 1);
      MoveKeepsAscending(cs[n - 1], cs[n]);
    }
  }

  lemma {:induction false} NextIdGrows(cs: seq<Client>, actions: seq<Action>, n: nat, m: nat)
    requires IsRun(cs, actions) && n <= m < |cs|
    ensures cs[n].nextId <= cs[m].nextId
    decreases m - n
  {
    if n < m {
      NextIdGrows(cs, actions, n, m - 1);
      RunMoves(cs, actions, m - 1);
    }
  }

  /** A step that puts a request on its way. */
  predicate Asks(c: Client, d: Client) {
    !Asking(c) && Asking(d)
  }

  /** Different requests of a run have different ids, the later one the higher. */
  lemma RequestsHaveTheirOwnIds(cs: seq<Client>, actions: seq<Action>, n: nat, m: nat)
    requires IsRun(cs, actions) && n < m < |actions| && Asks(cs[n], cs[n + 1]) && Asks(cs[m], cs[m + 1])
    ensures cs[n + 1].owner.request.id < cs[m + 1].owner.request.id
  {
    RunMoves(cs, actions, n);
    RunMoves(cs, actions, m);
    NextIdGrows(cs, actions, n + 1, m);
  }

  /** No stale answer survives into a later call: what can be read answers the request under way by its
      id, which is none that a result was ever handed out for. */
  lemma NoStaleAnswer(cs: seq<Client>, actions: seq<Action>, n: nat)
    requires IsRun(cs, actions) && n < |cs| && Enabled(cs[n], ReadReply)
    ensures var c := cs[n]; var response := Current(c).stdout[0];
            && Current(c).stdout == [response] && c.dimension.Some? && Answers(c.owner.request, c.dimension.value, response)
            && forall d | d in c.delivered :: d.request.id < c.owner.request.id && d.response.Result? && d.response.id == d.request.id
  {
    ChecksNeverFire(cs, actions, n);
    IdsAlwaysAscend(cs, actions, n);
    RunKeeps(cs, actions, n);
  }
}
