/**
 * The timeline builders of the goal-inference experiment: one block of
 * sub-trials per scenario (`gen_trial`), the comprehension-quiz scoring
 * and the instruction loop's exit rule, and the main sequence of trial
 * blocks separated by wait screens. Plugins, DOM and timing are not
 * modelled: a timeline entry is a value naming what the screen shows.
 */
module Experiment {
  import opened Wrappers
  import opened Records
  import opened Text

  /** A grid position [row, column]. */
  type Position = (int, int)

  const Buttons: seq<Position> := [(4, 3), (4, 6), (4, 9), (8, 2)]
  const Agent: Position := (7, 6)
  const ExampleAgent: Position := (7, 5)

  const PromptPrefix: string :=
    "The agent starts on the orange circle. Press one of the green goals, based on the following information: <br> <b>"
  const PromptSuffix: string := "</b>"
  const SentenceStart: string := "The agent "
  const Separator: string := ", "

  /** One goal-inference screen. */
  datatype GiTrial = GiTrial(backgroundImage: string, buttonPositions: seq<Position>, agentPosition: Position, prompt: string)

  /** A nested timeline of sub-trials whose data carries `trial_id`. */
  datatype TrialBlock = TrialBlock(timeline: seq<GiTrial>, trialId: int)

  datatype Entry =
    | Block(block: TrialBlock)
    | Wait(stimulus: string)
    | QuizScreen
    | FeedbackScreen
    | Screen(name: string)

  // ---------------------------------------------------------------------
  // Prompts

  /** The utterances joined by ", ", built left to right as the loop does. */
  function Join(us: seq<string>): string {
    if |us| == 0 then ""
    else if |us| == 1 then us[0]
    else Join(us[..|us| - 1]) + Separator + us[|us| - 1]
  }

  /** The same join, built right to left: an independent definition. */
  function JoinRight(us: seq<string>): string {
    if |us| == 0 then ""
    else if |us| == 1 then us[0]
    else us[0] + Separator + JoinRight(us[1..])
  }

  lemma {:induction false} JoinAgrees(us: seq<string>)
    ensures Join(us) == JoinRight(us)
  {
    if |us| > 2 {
      var n := |us|;
      JoinAgrees(us[..n - 1]);
      JoinAgrees(us[1..]);
      JoinAgrees(us[1..][..n - 2]);
      assert us[..n - 1][1..] == us[1..][..n - 2];
      assert us[1..][n - 2] == us[n - 1];
    } else if |us| == 2 {
      assert us[..1] == [us[0]];
      assert us[1..] == [us[1]];
    }
  }

  /** The prompt of the sub-trial that reveals the utterances `us`. */
  function Prompt(us: seq<string>): string {
    PromptPrefix + SentenceStart + Join(us) + PromptSuffix
  }

  /**
   * Each prompt extends the previous one by a separator and the next
   * utterance, and ends with that utterance: no trailing separator.
   */
  lemma PromptGrows(us: seq<string>, k: nat)
    requires k + 1 < |us|
    ensures Join(us[..k + 2]) == Join(us[..k + 1]) + Separator + us[k + 1]
    ensures Prompt(us[..k + 2]) == PromptPrefix + SentenceStart + Join(us[..k + 1]) + Separator + us[k + 1] + PromptSuffix
  {
    assert us[..k + 2][..k + 1] == us[..k + 1];
  }

  // ---------------------------------------------------------------------
  // gen_trial

  /** The block `gen_trial` returns: one sub-trial per utterance, in order. */
  function TrialBlockFor(trialId: int, scenario: seq<string>, backgroundImage: string,
                         buttonPositions: seq<Position>, agentPosition: Position): TrialBlock
  {
    TrialBlock(
      seq(|scenario|, k requires 0 <= k < |scenario| =>
        GiTrial(backgroundImage, buttonPositions, agentPosition, Prompt(scenario[..k + 1]))),
      trialId)
  }

  /** The loop's `sentence` after k utterances, extended by the next one, is the joined prefix. */
  lemma SentenceGrows(us: seq<string>, k: nat)
    requires k < |us|
    ensures SentenceStart + (if k == 0 then "" else Join(us[..k]) + Separator) + us[k] == SentenceStart + Join(us[..k + 1])
  {
    if k == 0 {
      assert us[..1] == [us[0]];
    } else {
      assert us[..k + 1][..k] == us[..k];
    }
  }

  method GenTrial(trialId: int, scenario: seq<string>, backgroundImage: string,
                  buttonPositions: seq<Position>, agentPosition: Position) returns (tl: TrialBlock)
    ensures tl == TrialBlockFor(trialId, scenario, backgroundImage, buttonPositions, agentPosition)
  {
    var subtl: seq<GiTrial> := [];
    var sentence := SentenceStart;
    for k := 0 to |scenario|
      invariant |subtl| == k
      invariant forall j :: 0 <= j < k ==>
        subtl[j] == GiTrial(backgroundImage, buttonPositions, agentPosition, Prompt(scenario[..j + 1]))
      invariant sentence == SentenceStart + (if k == 0 then "" else Join(scenario[..k]) + Separator)
    {
      SentenceGrows(scenario, k);
      sentence := sentence + scenario[k];
      var prompt := PromptPrefix + sentence + PromptSuffix;
      subtl := subtl + [GiTrial(backgroundImage, buttonPositions, agentPosition, prompt)];
      sentence := sentence + Separator;
    }
    tl := TrialBlock(subtl, trialId);
  }

  /**
   * One sub-trial per utterance, in scenario order, all on the same
   * background with the same goals and agent, inside a block whose data
   * carries the trial id.
   */
  lemma TrialBlockShape(trialId: int, scenario: seq<string>, bg: string, buttons: seq<Position>, agent: Position)
    ensures var b := TrialBlockFor(trialId, scenario, bg, buttons, agent);
      && b.trialId == trialId
      && |b.timeline| == |scenario|
      && (forall k :: 0 <= k < |scenario| ==>
            b.timeline[k].backgroundImage == bg && b.timeline[k].buttonPositions == buttons &&
            b.timeline[k].agentPosition == agent)
      && (forall k :: 0 <= k < |scenario| ==>
            b.timeline[k].prompt == PromptPrefix + SentenceStart + JoinRight(scenario[..k + 1]) + PromptSuffix)
  {
    var b := TrialBlockFor(trialId, scenario, bg, buttons, agent);
    forall k | 0 <= k < |scenario|
      ensures b.timeline[k].prompt == PromptPrefix + SentenceStart + JoinRight(scenario[..k + 1]) + PromptSuffix
    {
      JoinAgrees(scenario[..k + 1]);
    }
  }

  /** The practice block shown with the instructions uses trial id 0. */
  method PracticeTrial(example: seq<string>, backgroundImage: string) returns (tl: TrialBlock)
    ensures tl == TrialBlockFor(0, example, backgroundImage, Buttons, ExampleAgent)
    ensures tl.trialId == 0 && |tl.timeline| == |example|
  {
    tl := GenTrial(0, example, backgroundImage, Buttons, ExampleAgent);
  }

  /** The instruction loop: instructions, the practice block, the quiz, its feedback. */
  method CompLoopTimeline(example: seq<string>, backgroundImage: string) returns (t: seq<Entry>)
    ensures |t| == 4
    ensures t[1] == Block(TrialBlockFor(0, example, backgroundImage, Buttons, ExampleAgent))
    ensures t[|t| - 2] == QuizScreen && t[|t| - 1] == FeedbackScreen
  {
    var practice := PracticeTrial(example, backgroundImage);
    t := [Screen("instructions"), Block(practice), QuizScreen, FeedbackScreen];
  }

  // ---------------------------------------------------------------------
  // Comprehension check

  /** An answer option as displayed: "<letter>) <text>". */
  function Labelled(letter: char, text: string): (option: string)
    ensures |option| > 0 && option[0] == letter
  {
    [letter] + ") " + text
  }

  const Check1Options: seq<string> := [
    Labelled('A', "The targets are indicated with an orange circle"),
    Labelled('B', "The targets will remain visible throughout the whole trial"),
    Labelled('C', "The targets will move around the screen in a random pattern")]

  const Check2Options: seq<string> := [
    Labelled('A', "You should maintain an arm-length distance from your monitor"),
    Labelled('B', "You should listen to audio instructions while performing the task"),
    Labelled('C', "You should click one of the goals after each utterance")]

  /** JavaScript's `answer[0]`: the first character, or `undefined` for an empty answer. */
  function FirstChar(answer: string): (c: Option<char>)
    ensures c.Some? <==> |answer| > 0
    ensures c.Some? ==> c.value == answer[0]
  {
    if |answer| > 0 then Some(answer[0]) else None
  }

  /** The score `q1 == 'B' && q2 == 'C'`: both answers present, starting with 'B' and 'C'. */
  function QuizCorrect(check1: string, check2: string): (ok: bool)
    ensures ok <==> |check1| > 0 && check1[0] == 'B' && |check2| > 0 && check2[0] == 'C'
  {
    FirstChar(check1) == Some('B') && FirstChar(check2) == Some('C')
  }

  /** Of the offered options, exactly option B of check1 with option C of check2 passes. */
  lemma OnlyIntendedAnswersPass(i: nat, j: nat)
    requires i < |Check1Options| && j < |Check2Options|
    ensures QuizCorrect(Check1Options[i], Check2Options[j]) <==> i == 1 && j == 2
  {

  }

  /** The data record of the comprehension quiz, scored in place when the screen ends. */
  class QuizData {
    var check1: string
    var check2: string
    var correct: Option<bool>

    constructor (check1: string, check2: string)
      ensures this.check1 == check1 && this.check2 == check2 && correct == None
    {
      this.check1 := check1;
      this.check2 := check2;
      correct := None;
    }

    /** `on_finish`: records whether both answers were right. */
    method OnFinish()
      modifies this
      ensures correct == Some(QuizCorrect(check1, check2))
      ensures check1 == old(check1) && check2 == old(check2)
    {
      var q1 := FirstChar(check1);
      var q2 := FirstChar(check2);
      correct := Some(q1 == Some('B') && q2 == Some('C'));
    }

    /** The record as logged: tagged "comp_quiz", with its score. */
    function AsStep(): (s: Step)
      reads this
      ensures s.kind == Some(CompQuiz) && s.correct == correct
      ensures s.trialId.None?
    {
      Blank.(kind := Some(CompQuiz), correct := correct)
    }
  }

  /** The logged record of a quiz answered with `check1`, `check2`. */
  function QuizStep(check1: string, check2: string): (s: Step)
    ensures IsMarker(s) <==> QuizCorrect(check1, check2)
  {
    Blank.(kind := Some(CompQuiz), correct := Some(QuizCorrect(check1, check2)))
  }

  /**
   * The quiz screen, as jsPsych runs it: a fresh data record holding the
   * answers, scored by `on_finish`, then logged.
   */
  method LogQuiz(check1: string, check2: string) returns (s: Step)
    ensures s == QuizStep(check1, check2)
  {
    var data := new QuizData(check1, check2);
    data.OnFinish();
    s := data.AsStep();
  }

  /**
   * `loop_function`: run the instructions again unless the second-to-last
   * record of this round (the quiz's) is marked correct. When that record
   * is the quiz's, this is exactly "it is not a passed quiz", the test the
   * log parser uses to find where the trials start.
   */
  function LoopAgain(vals: seq<Step>): (again: bool)
    requires |vals| >= 2
    ensures vals[|vals| - 2].kind == Some(CompQuiz) ==> (again <==> !IsMarker(vals[|vals| - 2]))
  {
    var quiz := vals[|vals| - 2];
    !(quiz.correct == Some(true))
  }

  /**
   * A round of the instruction loop logs the instructions and practice,
   * then the quiz, then its feedback; the loop repeats exactly when the
   * quiz was failed.
   */
  lemma LoopRepeatsUntilPassed(pre: seq<Step>, check1: string, check2: string, feedback: Step)
    ensures LoopAgain(pre + [QuizStep(check1, check2), feedback]) <==> !QuizCorrect(check1, check2)
  {
    var vals := pre + [QuizStep(check1, check2), feedback];
    assert vals[|vals| - 2] == QuizStep(check1, check2);
  }

  // ---------------------------------------------------------------------
  // Trial sequence

  const WaitPrefix: string := "Good job! This is the end of task "
  const WaitSuffix: string := ". Press Next to continue to the next task."

  /** `s` is the fixed wait text around a decimal number that reads as `task`. */
  predicate ShowsTask(s: string, task: nat) {
    && |s| > |WaitPrefix| + |WaitSuffix|
    && s[..|WaitPrefix|] == WaitPrefix && s[|s| - |WaitSuffix|..] == WaitSuffix
    && var mid := s[|WaitPrefix|..|s| - |WaitSuffix|];
       AllDigits(mid) && DecimalValue(mid) == task
  }

  /** The wait screen after task number `task` (`${i+1}` in the source). */
  function WaitStimulus(task: nat): string {
    WaitPrefix + NatToString(task) + WaitSuffix
  }

  /** The wait screen shows the fixed text around the decimal digits of `task`. */
  lemma WaitStimulusShowsTask(task: nat)
    ensures ShowsTask(WaitStimulus(task), task)
  {
    var s, digits := WaitStimulus(task), NatToString(task);
    NatToStringRoundTrip(task);
    assert s[|WaitPrefix|..|s| - |WaitSuffix|] == digits;
  }

  /** Different tasks end with different wait screens. */
  lemma WaitStimulusNamesTask(m: nat, n: nat)
    requires WaitStimulus(m) == WaitStimulus(n)
    ensures m == n
  {
    WaitStimulusShowsTask(m);
    WaitStimulusShowsTask(n);
  }

  /**
   * The main loop of `run`: for each scenario i, its block with trial id
   * i + 1, then a wait screen unless it is the last one.
   */
  method AppendTrials(timeline: seq<Entry>, trialList: seq<seq<string>>, backgroundImage: string)
    returns (t: seq<Entry>)
    ensures |t| == |timeline| + (if trialList == [] then 0 else 2 * |trialList| - 1)
    ensures t[..|timeline|] == timeline
    ensures forall i :: 0 <= i < |trialList| ==>
      t[|timeline| + 2 * i] == Block(TrialBlockFor(i + 1, trialList[i], backgroundImage, Buttons, Agent))
    ensures forall i :: 0 <= i < |trialList| - 1 ==>
      t[|timeline| + 2 * i + 1] == Wait(WaitStimulus(i + 1))
  {
    var added: seq<Entry> := [];
    for i := 0 to |trialList|
      invariant |added| == 2 * i - (if i == |trialList| && i > 0 then 1 else 0)
      invariant forall j :: 0 <= j < i ==>
        added[2 * j] == Block(TrialBlockFor(j + 1, trialList[j], backgroundImage, Buttons, Agent))
      invariant forall j :: 0 <= j < i && j < |trialList| - 1 ==>
        added[2 * j + 1] == Wait(WaitStimulus(j + 1))
    {
      var block := GenTrial(i + 1, trialList[i], backgroundImage, Buttons, Agent);
      added := added + [Block(block)];
      if i < |trialList| - 1 {
        added := added + [Wait(WaitStimulus(i + 1))];
      }
    }
    t := timeline + added;
    assert forall k :: 0 <= k < |added| ==> t[|timeline| + k] == added[k];
  }

}
