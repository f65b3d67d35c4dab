/**
 * One logged experiment step: the data record jsPsych saves for every
 * screen of the session, one JSON object per step. The experiment writes
 * these records; the log parser reads them back. Only the fields either
 * side looks at are kept, each one possibly absent.
 */
module Records {
  import opened Wrappers

  /** One effort-dial event: the time it happened and the scale it set. */
  datatype Press = Press(time: real, scale: real)

  datatype Step = Step(
    kind: Option<string>,                    // "type"
    correct: Option<bool>,                   // "correct"
    trialId: Option<int>,                    // "trial_id", the scene
    reversed: Option<bool>,                  // "reversed"
    trialIndex: Option<int>,                 // "trial_index", the order
    selectedObjects: Option<seq<real>>,      // "selected_objects"
    response: Option<real>,                  // "response"
    effortDialResponses: Option<seq<Press>>  // "effort_dial_responses"
  )

  /** The "type" tag the comprehension quiz writes into its record. */
  const CompQuiz: string := "comp_quiz"

  /** A record with none of the fields set. */
  const Blank: Step := Step(None, None, None, None, None, None, None, None)

  /**
   * A passed comprehension quiz: its "type" is "comp_quiz" and its
   * "correct" is truthy.
   */
  predicate IsMarker(s: Step) {
    s.kind == Some(CompQuiz) && s.correct == Some(true)
  }

  /** No record of `s` is a passed comprehension quiz. */
  predicate NoMarker(s: seq<Step>) {
    forall j :: 0 <= j < |s| ==> !IsMarker(s[j])
  }

}
