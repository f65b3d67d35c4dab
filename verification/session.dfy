/**
 * How the experiment's log and the parser fit together. The instruction
 * loop repeats until a quiz is passed, and each round logs its quiz
 * second to last, just before the feedback. So the first passed quiz in a
 * session log is the last round's quiz. The parser starts two records
 * later, skipping the feedback, and reads every trial record up to but
 * not including the final survey.
 */
module SessionLog {
  import opened Wrappers
  import opened Records
  import Experiment
  import TimelineParser

  /** The records of consecutive rounds, one after the other. */
  function Flatten(rounds: seq<seq<Step>>): seq<Step> {
    if rounds == [] then [] else Flatten(rounds[..|rounds| - 1]) + rounds[|rounds| - 1]
  }

  /** A round of the instruction loop: no passed quiz before its quiz record, no marker in its feedback. */
  predicate WellFormedRound(r: seq<Step>) {
    && |r| >= 2
    && NoMarker(r[..|r| - 2])
    && r[|r| - 2].kind == Some(CompQuiz)
    && !IsMarker(r[|r| - 1])
  }

  lemma NoMarkerAppend(a: seq<Step>, b: seq<Step>)
    requires NoMarker(a) && NoMarker(b)
    ensures NoMarker(a + b)
  {
    forall j | 0 <= j < |a + b| ensures !IsMarker((a + b)[j]) {
      if j < |a| { assert (a + b)[j] == a[j]; } else { assert (a + b)[j] == b[j - |a|]; }
    }
  }

  /** Rounds after which the loop ran again hold no passed quiz. */
  lemma {:induction false} RepeatedRoundsHaveNoMarker(rounds: seq<seq<Step>>)
    requires forall i :: 0 <= i < |rounds| ==> WellFormedRound(rounds[i]) && Experiment.LoopAgain(rounds[i])
    ensures NoMarker(Flatten(rounds))
  {
    if rounds != [] {
      var init, r := rounds[..|rounds| - 1], rounds[|rounds| - 1];
      assert WellFormedRound(r) && Experiment.LoopAgain(r);
      RepeatedRoundsHaveNoMarker(init);
      assert r == r[..|r| - 2] + [r[|r| - 2], r[|r| - 1]];
      NoMarkerAppend(r[..|r| - 2], [r[|r| - 2], r[|r| - 1]]);
      NoMarkerAppend(Flatten(init), r);
    }
  }

  /** The log split around the passing round's quiz and feedback. */
  lemma LogShape(head: seq<Step>, failed: seq<seq<Step>>, last: seq<Step>, trials: seq<Step>, exit: Step)
    requires |last| >= 2
    ensures head + Flatten(failed + [last]) + trials + [exit]
      == (head + Flatten(failed) + last[..|last| - 2]) + [last[|last| - 2], last[|last| - 1]] + trials + [exit]
  {
    assert (failed + [last])[..|failed|] == failed;
    assert Flatten(failed + [last]) == Flatten(failed) + last;
    assert last == last[..|last| - 2] + [last[|last| - 2], last[|last| - 1]];
  }

  /** The last round of a loop that ended: its quiz record is a passed quiz. */
  lemma LastRoundEndsWithMarker(last: seq<Step>)
    requires WellFormedRound(last) && !Experiment.LoopAgain(last)
    ensures last == last[..|last| - 2] + [last[|last| - 2], last[|last| - 1]]
    ensures IsMarker(last[|last| - 2])
  {
  }

  /** Everything before the passing round's quiz is free of passed quizzes; that quiz is one. */
  lemma SessionLogSplit(head: seq<Step>, failed: seq<seq<Step>>, last: seq<Step>)
    requires NoMarker(head)
    requires forall i :: 0 <= i < |failed| ==> WellFormedRound(failed[i]) && Experiment.LoopAgain(failed[i])
    requires WellFormedRound(last) && !Experiment.LoopAgain(last)
    ensures NoMarker(head + Flatten(failed) + last[..|last| - 2])
    ensures IsMarker(last[|last| - 2])
  {
    RepeatedRoundsHaveNoMarker(failed);
    LastRoundEndsWithMarker(last);
    NoMarkerAppend(head, Flatten(failed));
    NoMarkerAppend(head + Flatten(failed), last[..|last| - 2]);
  }

  /**
   * A session log: screens before the loop, the rounds whose quiz was
   * failed, the round that ended the loop, the trial records, and the
   * final survey. The parser's trial region is exactly the trial records.
   */
  lemma SessionTrialRegion(head: seq<Step>, failed: seq<seq<Step>>, last: seq<Step>, trials: seq<Step>, exit: Step)
    requires NoMarker(head)
    requires forall i :: 0 <= i < |failed| ==> WellFormedRound(failed[i]) && Experiment.LoopAgain(failed[i])
    requires WellFormedRound(last) && !Experiment.LoopAgain(last)
    ensures TimelineParser.TrialRegion(head + Flatten(failed + [last]) + trials + [exit]) == trials
  {
    SessionLogSplit(head, failed, last);
    LogShape(head, failed, last, trials, exit);
    TimelineParser.RegionAfterFirstMarker(head + Flatten(failed) + last[..|last| - 2],
                                          last[|last| - 2], last[|last| - 1], trials, exit);
  }

  /**
   * The same log seen from the answers: whichever rounds were failed,
   * the round whose quiz was answered B then C ends the loop, and
   * parsing starts right after its feedback.
   */
  lemma PassedQuizStartsTrials(head: seq<Step>, failed: seq<seq<Step>>, pre: seq<Step>,
                               check1: string, check2: string, feedback: Step,
                               trials: seq<Step>, exit: Step)
    requires NoMarker(head) && NoMarker(pre) && !IsMarker(feedback)
    requires forall i :: 0 <= i < |failed| ==> WellFormedRound(failed[i]) && Experiment.LoopAgain(failed[i])
    requires Experiment.QuizCorrect(check1, check2)
    ensures TimelineParser.TrialRegion(
      head + Flatten(failed + [pre + [Experiment.QuizStep(check1, check2), feedback]]) + trials + [exit]) == trials
  {
    var last := pre + [Experiment.QuizStep(check1, check2), feedback];
    assert last[..|last| - 2] == pre;
    assert last[|last| - 2] == Experiment.QuizStep(check1, check2);
    Experiment.LoopRepeatsUntilPassed(pre, check1, check2, feedback);
    SessionTrialRegion(head, failed, last, trials, exit);
  }

}
