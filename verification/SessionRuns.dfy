/** The runs of one session, which its lease lets happen one after the other, on the one memory they
    share. */
module SessionRuns {
  import opened Messages
  import opened ShortTerm
  import opened RunSpec
  import opened Runs
  import opened RunPairing
  import opened RunMemory

  /** What decides one run of the session. */
  datatype Question = Question(prompt: Option<string>, userInput: string, planning: PlanInput, inputs: nat -> StepInput)

  function NewMemory(b: Budget): Memory {
    Memory([], Total(b, []))
  }

  function RunOn(cfg: Config, mem: Memory, q: Question): RunResult {
    Run(cfg, mem, q.prompt, q.userInput, q.planning, q.inputs)
  }

  /** The memory of a session that began empty, after all of these runs. */
  function MemoryAfter(cfg: Config, runs: seq<Question>): Memory {
    if runs == [] then NewMemory(cfg.budget)
    else RunOn(cfg, MemoryAfter(cfg, runs[..|runs| - 1]), runs[|runs| - 1]).st.Mem()
  }

  /** How the last of these runs goes. */
  function LastRun(cfg: Config, runs: seq<Question>): RunResult
    requires runs != []
  {
    RunOn(cfg, MemoryAfter(cfg, runs[..|runs| - 1]), runs[|runs| - 1])
  }

  // ---- Pairing over a session ------------------------------------------------------------------

  /** The last of these runs leaves calls unanswered. */
  predicate LastLeavesOpen(cfg: Config, runs: seq<Question>)
    requires runs != []
  {
    var q := runs[|runs| - 1];
    LeavesCallsUnanswered(cfg, MemoryAfter(cfg, runs[..|runs| - 1]), q.prompt, q.userInput, q.planning, q.inputs)
  }

  lemma {:induction false} SessionWindowIsPaired(cfg: Config, runs: seq<Question>)
    requires SystemSlot(cfg.budget) && forall n | 1 <= n <= |runs| :: !LastLeavesOpen(cfg, runs[..n])
    ensures WellPaired(MemoryAfter(cfg, runs).messages)
  {
    if runs != [] {
      var before, q := runs[..|runs| - 1], runs[|runs| - 1];
      forall n | 1 <= n <= |before|
        ensures !LastLeavesOpen(cfg, before[..n])
      {
        assert before[..n] == runs[..n];
      }
      SessionWindowIsPaired(cfg, before);
      assert runs[..|runs|] == runs;
      RunIsPaired(cfg, MemoryAfter(cfg, before), q.prompt, q.userInput, q.planning, q.inputs);
    }
  }

  /** Main result: in a session, whatever happens in its runs, errors and cancellations included, every
      context that goes to the model or to the critic is paired until a run has left calls open; and the
      window is left paired by a run exactly when that run has not. */
  lemma SessionIsPaired(cfg: Config, runs: seq<Question>)
    requires SystemSlot(cfg.budget) && runs != [] && forall n | 1 <= n < |runs| :: !LastLeavesOpen(cfg, runs[..n])
    ensures PairedLogs(LastRun(cfg, runs).st.log)
    ensures WellPaired(MemoryAfter(cfg, runs).messages) <==> !LastLeavesOpen(cfg, runs)
  {
    var before, q := runs[..|runs| - 1], runs[|runs| - 1];
    forall n | 1 <= n <= |before|
      ensures !LastLeavesOpen(cfg, before[..n])
    {
      assert before[..n] == runs[..n];
    }
    SessionWindowIsPaired(cfg, before);
    RunIsPaired(cfg, MemoryAfter(cfg, before), q.prompt, q.userInput, q.planning, q.inputs);
  }

  // ---- The window of a session -----------------------------------------------------------------

  /** Everything the runs wrote. */
  function WritesOf(cfg: Config, runs: seq<Question>): seq<Message> {
    if runs == [] then [] else WritesOf(cfg, runs[..|runs| - 1]) + LastRun(cfg, runs).st.log.writes
  }

  /** No write of any of the runs raised. */
  predicate NoneRefused(cfg: Config, runs: seq<Question>) {
    runs == [] || (NoneRefused(cfg, runs[..|runs| - 1]) && !LastRun(cfg, runs).st.log.refused)
  }

  lemma {:induction false} SessionMemory(cfg: Config, runs: seq<Question>)
    requires NoneRefused(cfg, runs)
    ensures IsMemoryOf(cfg.budget, MemoryAfter(cfg, runs), WritesOf(cfg, runs))
  {
    if runs != [] {
      var before, q := runs[..|runs| - 1], runs[|runs| - 1];
      SessionMemory(cfg, before);
      WindowFollowsHistory(cfg, WritesOf(cfg, before), MemoryAfter(cfg, before), q.prompt, q.userInput, q.planning, q.inputs);
    }
  }

  /** As long as no count raises or is negative, the window of a session is the batch window of
      everything that its runs ever wrote. */
  lemma SessionWindowIsBatch(cfg: Config, runs: seq<Question>)
    requires NoneRefused(cfg, runs) && NonNegative(cfg.budget, WritesOf(cfg, runs))
    ensures IsBatchWindow(cfg.budget, WritesOf(cfg, runs), MemoryAfter(cfg, runs).messages)
  {
    SessionMemory(cfg, runs);
    var s := FeedIsBatch(cfg.budget, WritesOf(cfg, runs));
  }

  /** The first write of a session that raises is the one of the first message that cannot be counted. */
  lemma FirstRefusal(cfg: Config, runs: seq<Question>)
    requires runs != [] && NoneRefused(cfg, runs[..|runs| - 1])
    ensures LastRun(cfg, runs).st.log.refused <==> !AllCountable(cfg.budget, WritesOf(cfg, runs))
  {
    var before, q := runs[..|runs| - 1], runs[|runs| - 1];
    var log := LastRun(cfg, runs).st.log;
    SessionMemory(cfg, before);
    WindowFollowsHistory(cfg, WritesOf(cfg, before), MemoryAfter(cfg, before), q.prompt, q.userInput, q.planning, q.inputs);
    if log.refused {
      assert log.writes[|log.writes| - 1] in WritesOf(cfg, runs);
    }
  }
}
