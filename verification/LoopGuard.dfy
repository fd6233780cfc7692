/** Bounds on one run: steps, repeated calls, and rounds of feedback. */
module LoopGuard {

  datatype Limits = Limits(
    maxSteps: int,
    maxConsecutiveRepeats: int,
    validationFeedbackRounds: int,
    toolErrorFeedbackRounds: int,
    reflectionRevisionRounds: int)

  /** The values the policy's constructor accepts. */
  type LoopPolicy = p: Limits |
      && p.maxSteps > 0 && p.maxConsecutiveRepeats > 0
      && p.validationFeedbackRounds >= 0 && p.toolErrorFeedbackRounds >= 0
      && p.reflectionRevisionRounds >= 0
    witness Limits(100, 3, 1, 1, 1)

  datatype Signature = Signature(name: string, arguments: string)

  predicate StepsExhausted(policy: LoopPolicy, stepCount: int) {
    stepCount >= policy.maxSteps
  }

  /** The set of the last `max` signatures has one element. */
  predicate IsConsecutiveRepeat(history: seq<Signature>, max: int)
    requires max > 0
  {
    |history| >= max &&
    var recent := history[|history| - max..];
    |set s | s in recent| == 1
  }

  predicate ValidationExhausted(policy: LoopPolicy, rounds: int) {
    rounds > policy.validationFeedbackRounds
  }

  predicate ToolErrorsExhausted(policy: LoopPolicy, rounds: int) {
    rounds > policy.toolErrorFeedbackRounds
  }

  /** A repeat is reported exactly when the last `max` calls exist and are all the same. */
  lemma RepeatIffAllEqual(history: seq<Signature>, max: int)
    requires max > 0
    ensures IsConsecutiveRepeat(history, max) <==>
            |history| >= max && forall i | |history| - max <= i < |history| :: history[i] == history[|history| - 1]
  {
    if |history| >= max {
      var recent := history[|history| - max..];
      var last := history[|history| - 1];
      var seen := set s | s in recent;
      assert recent[max - 1] == last && last in seen;
      assert forall i | |history| - max <= i < |history| :: history[i] == recent[i - (|history| - max)] && history[i] in seen;
      if forall i | |history| - max <= i < |history| :: history[i] == last {
        assert forall s | s in recent :: s == last;
        assert seen == {last};
      }
      if |seen| == 1 {
        assert forall s | s in seen :: s == last by {
          forall s | s in seen
            ensures s == last
          {
            assert |seen - {last}| == 0;
            assert s !in seen - {last};
          }
        }
      }
    }
  }
}
