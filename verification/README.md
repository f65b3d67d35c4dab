# Goal-inference experiment: timeline builders and log parser

This project models two halves of a behavioural experiment in Dafny and proves properties of each, and of how they fit together.

- **The experiment side** (`src/experiment.js`) builds the jsPsych timeline:
  - one block of goal-inference sub-trials per scenario (`gen_trial`), whose prompt grows by one utterance per sub-trial;
  - the comprehension quiz, scored in its `on_finish` callback;
  - the instruction loop, which repeats until the quiz is passed (`loop_function`);
  - the main sequence of trial blocks separated by "wait" screens.
- **The analysis side** (`scripts/parse_json.py`) reads each subject's logged records back:
  - `parse_subj_data` finds the first passed quiz, skips two records past it, and drops the closing record;
  - it turns every remaining record into rows of three tables: performance `td`, slider `effort`, and resampled effort-dial points;
  - for every record in that region that has a `trial_id` and an empty dial log, it prints one warning;
  - `main` stacks the subjects' tables in input order.

## Modules

- `Records`: the logged record shared by both sides. Each field the code reads is an `Option`, as in a JSON object that may lack the key.
- `Text`: decimal rendering of integers, for the wait-screen text and the warning text.
- `DialResampler`: `interpolate_dial`.
  - The number of points is an integer ceiling: 300 with the defaults.
  - The time grid is numpy's `linspace`.
  - The values come from numpy's `interp`, computed over exact reals.
- `TimelineParser`: `parse_subj_data`.
  - Specification functions say what one record contributes (`StepTables`) and what a whole log yields (`SubjectTables`).
  - The imperative `ParseSubject` is the source's loop, with `FindExpStart` for its search-and-break and `AppendStep` for its appends. It is proved to compute `SubjectTables`.
- `DatasetAggregator`: the subject loop of `main`, proved against `DatasetTables`, with lemmas on concatenation, row totals and uid order.
- `Experiment`: `gen_trial` as a method with a loop, proved against `TrialBlockFor`; the quiz record as a class whose `OnFinish` writes `correct` in place; `loop_function`; the trial/wait loop.
- `SessionLog`: a bridge between the two halves. In any session log the instruction loop can produce, the parser's trial region is exactly the trial records.

## Model

| member | source | states |
|---|---|---|
| Text.NatToString | src/experiment.js:283 | `${n}` renders a non-empty string of decimal digits with no leading zero |
| Text.IntToString | scripts/parse_json.py:96 | `{i}` renders a non-negative integer as its decimal digits, and a negative one as '-' followed by the digits of its magnitude; the sign shows exactly when it is negative |
| Text.IntToStringInjective | scripts/parse_json.py:96 | distinct integers render differently |
| Text.NatToStringRoundTrip | src/experiment.js:283 | reading the rendered digits back gives the number again |
| Text.NatToStringInjective | src/experiment.js:283 | distinct numbers render differently |
| DialResampler.Steps | scripts/parse_json.py:39 | the point count n is the ceiling of poll*frames/fps: (n-1)*fps < poll*frames <= n*fps |
| DialResampler.Duration | scripts/parse_json.py:38 | the trial duration d is non-negative and d*fps == 1000*frames |
| DialResampler.DefaultGrid | scripts/parse_json.py:37-39 | with poll 20, fps 24 and 360 frames the grid has 300 points over 15000 ms |
| DialResampler.Linspace | scripts/parse_json.py:40 | num points, the first at 0 and the last at stop, evenly spaced by stop/(num-1), all within [0, stop] |
| DialResampler.LinspaceFacts | scripts/parse_json.py:40 | consecutive grid points differ by the step, and every point lies in [0, stop] |
| DialResampler.Lerp | scripts/parse_json.py:44 | interpolation between two events lies between their two scales |
| DialResampler.Interp | scripts/parse_json.py:44 | numpy's `interp` at one time: the value never leaves [min scale, max scale] of the events, even outside their time range |
| DialResampler.InterpBeforeFirst | scripts/parse_json.py:44 | before the first event, the signal holds the first scale (left clamping) |
| DialResampler.ScaleBounds | scripts/parse_json.py:44 | every event's scale lies within [min scale, max scale] |
| DialResampler.InterpAtEvent | scripts/parse_json.py:44 | with strictly increasing times, the signal at an event's time is that event's scale |
| DialResampler.InterpAfterLast | scripts/parse_json.py:44 | with sorted times, the signal from the last event on holds the last scale (right clamping) |
| DialResampler.InterpolateDial | scripts/parse_json.py:37-45 | two parallel sequences of Steps points: the linspace grid, and at each grid time the interpolated scale, within the events' scale range |
| TimelineParser.DiagMessage | scripts/parse_json.py:95-97 | the warning for an empty dial log starts with the fixed "Could not retrieve dials responses for (subj, trial) " text |
| TimelineParser.DiagMessageNames | scripts/parse_json.py:95-97 | the warning names its subject and scene: two warnings with the same text are about the same (subject, scene) |
| TimelineParser.Mean | scripts/parse_json.py:73 | numpy's mean is NaN exactly for an empty sequence, and otherwise mean*length == sum |
| TimelineParser.Td | scripts/parse_json.py:73 | td is the mean of the first four flags, or of all of them when there are fewer; NaN exactly when there are none |
| TimelineParser.SumOfFlags | scripts/parse_json.py:73 | the sum of flags in [0, 1] lies between 0 and their count |
| TimelineParser.TdIsProportion | scripts/parse_json.py:73 | with 0/1 detection flags, td is a real number in [0, 1] |
| TimelineParser.FirstMarker | scripts/parse_json.py:50-54 | absent iff no record is a passed comp_quiz; otherwise it is the index of a passed quiz, and no passed quiz comes before it |
| TimelineParser.TrialRegion | scripts/parse_json.py:56 | `timeline[exp_start:-1]`: length max(0, len-1-exp_start), and element k is record exp_start+k |
| TimelineParser.FindExpStart | scripts/parse_json.py:50-54 | the search-and-break loop returns two past the first passed quiz, or 0; it is positive iff there is a passed quiz |
| TimelineParser.DialRows | scripts/parse_json.py:85-93 | a non-empty dial log gives Steps(Default) rows sharing scene, reversed, order and uid, with rt the grid time and scale the interpolated value |
| TimelineParser.StepTables | scripts/parse_json.py:61-97 | the rows and warnings of one record: nothing without a trial_id, and never both dial rows and a warning |
| TimelineParser.StepRows | scripts/parse_json.py:61-97 | a record without trial_id adds nothing; otherwise one performance row (td of its flags) iff it has selected_objects, one slider row (its response) iff it has a response, 300 dial rows with its scene/reversed/order iff its dial log is non-empty, and one warning (subject, scene) iff that log is empty |
| TimelineParser.StepRowCounts | scripts/parse_json.py:69-97 | the per-table row counts of one record, as above |
| TimelineParser.SubjectTables | scripts/parse_json.py:48-106 | what `parse_subj_data` returns for one subject; every row carries uid idx and every warning names idx |
| TimelineParser.RegionTablesAppend | scripts/parse_json.py:61-97 | parsing a concatenation of records gives the concatenation of their tables |
| TimelineParser.ThenAssociative | scripts/parse_json.py:74-93 | appending rows table by table is associative |
| TimelineParser.SceneLessStepIgnored | scripts/parse_json.py:69-70 | a record with no trial_id can be removed from anywhere in the region without changing any table |
| TimelineParser.UidStamped | scripts/parse_json.py:99-101 | every row of all three tables has uid == idx, and every warning names idx |
| TimelineParser.RowCounts | scripts/parse_json.py:61-97 | performance rows = records with scene and selected_objects; slider rows = records with scene and response; dial rows = 300 × records with scene and a non-empty dial log; warnings = records with scene and an empty one |
| TimelineParser.PerfRowsInStepOrder | scripts/parse_json.py:72-77 | the performance table is, in record order, one row per emitting record, with the record's scene, reversed, order and td |
| TimelineParser.SliderRowsInStepOrder | scripts/parse_json.py:79-83 | the slider table is, in record order, one row per emitting record, with effort equal to its response |
| TimelineParser.RegionAfterFirstMarker | scripts/parse_json.py:50-56 | when the first passed quiz is followed by one record, the trials and the exit record, the region is exactly the trials |
| TimelineParser.RegionWithoutMarker | scripts/parse_json.py:53-56 | without a passed quiz, every record but the last is parsed |
| TimelineParser.EndToEndExample | scripts/parse_json.py:48-106 | a passed quiz, a filler record (skipped), a second filler record and a trial with flags [1,0,1,0] (both parsed), and the exit record give one performance row with td 0.5 and nothing else |
| TimelineParser.AppendDialRows | scripts/parse_json.py:87-93 | the inner loop appends exactly DialRows: one row per resampled point, in grid order |
| TimelineParser.AppendStep | scripts/parse_json.py:61-97 | one pass of the trial loop appends exactly that record's rows to each table |
| TimelineParser.ParseSubject | scripts/parse_json.py:48-106 | the loop's three tables and warnings are exactly SubjectTables of the log |
| DatasetAggregator.Aggregate | scripts/parse_json.py:121-128 | the vstack loop over subjects computes DatasetTables |
| DatasetAggregator.PerSubject | scripts/parse_json.py:124-125 | subject i is parsed with uid i |
| DatasetAggregator.DatasetIsConcatenation | scripts/parse_json.py:124-128 | the dataset tables are the per-subject tables concatenated in input order |
| DatasetAggregator.ConcatTablesSizes | scripts/parse_json.py:126-128 | a stack of tables has, per table, the sum of the row counts |
| DatasetAggregator.DatasetRowTotals | scripts/parse_json.py:124-128 | each dataset table has as many rows as the subjects' tables together |
| DatasetAggregator.AppendSubject | scripts/parse_json.py:126-128 | stacking rows all stamped n onto rows in subject order below n keeps subject order below n+1 |
| DatasetAggregator.UidsThen | scripts/parse_json.py:126-128 | the uid column of stacked tables is the concatenation of their uid columns |
| DatasetAggregator.SubjectUids | scripts/parse_json.py:99-101 | every uid in subject n's tables is n |
| DatasetAggregator.UidsInSubjectOrder | scripts/parse_json.py:124-128 | in every dataset table, uids are below the subject count and never decrease |
| DatasetAggregator.TwoSubjectsInOrder | scripts/parse_json.py:124-128 | with one performance row each, subject 0's row precedes subject 1's, with uids 0 and 1 |
| Experiment.JoinAgrees | src/experiment.js:47-61 | joining utterances left to right (as the loop does) equals the independent right-to-left join with ", " |
| Experiment.PromptGrows | src/experiment.js:47-51 | each prompt extends the previous sentence by ", " and the next utterance, with no trailing separator |
| Experiment.SentenceGrows | src/experiment.js:47-61 | the loop's sentence after k utterances and ", ", extended by utterance k, is "The agent " + the join of utterances 0..k |
| Experiment.GenTrial | src/experiment.js:44-70 | the loop returns TrialBlockFor: one sub-trial per utterance, prompt k revealing utterances 0..k, with the given trial_id |
| Experiment.TrialBlockShape | src/experiment.js:44-70 | block k carries the shared background, buttons and agent, the prompt prefix + "The agent " + u0 ", " … uk + "</b>", and the block's trial_id is the argument |
| Experiment.PracticeTrial | src/experiment.js:194-196 | the practice block has trial_id 0, the example agent position, and one sub-trial per example utterance |
| Experiment.CompLoopTimeline | src/experiment.js:261 | the loop's round ends with the quiz and then the feedback screen, after the practice block |
| Experiment.Labelled | src/experiment.js:207-221 | an answer option starts with its letter |
| Experiment.FirstChar | src/experiment.js:227-228 | JavaScript's `answer[0]`: the first character when there is one, `undefined` for an empty answer |
| Experiment.QuizCorrect | src/experiment.js:230 | the score holds iff check1 is non-empty and starts with 'B' and check2 is non-empty and starts with 'C' |
| Experiment.OnlyIntendedAnswersPass | src/experiment.js:204-231 | of the offered options, the quiz passes exactly for check1 option B with check2 option C |
| Experiment.QuizData.constructor | src/experiment.js:226-228 | a quiz record holds the two answers and no score yet |
| Experiment.QuizData.OnFinish | src/experiment.js:226-231 | `correct` is set to whether check1 starts with 'B' and check2 with 'C'; the answers are unchanged |
| Experiment.QuizData.AsStep | src/experiment.js:232-234 | the logged record is tagged "comp_quiz" and carries the score |
| Experiment.LogQuiz | src/experiment.js:226-234 | a fresh quiz record, scored by `OnFinish` and logged, is exactly QuizStep of the answers |
| Experiment.QuizStep | src/experiment.js:226-234 | the logged quiz record is a passed quiz (what the parser searches for) iff the answers are B and C |
| Experiment.LoopAgain | src/experiment.js:262-268 | when the second-to-last record is the quiz's, the loop runs again iff that record is not a passed quiz, the same test the parser uses |
| Experiment.LoopRepeatsUntilPassed | src/experiment.js:262-268 | a round ending with its quiz and feedback is repeated iff the quiz was failed |
| Experiment.WaitStimulusShowsTask | src/experiment.js:283 | the wait text is the fixed "Good job! This is the end of task " … ". Press Next to continue to the next task." around the decimal digits of `task` |
| Experiment.WaitStimulusNamesTask | src/experiment.js:283 | different tasks get different wait-screen texts |
| Experiment.AppendTrials | src/experiment.js:277-290 | for n scenarios it appends 2n-1 entries (0 for none): block i with trial_id i+1 at offset 2i, the "end of task i+1" wait screen at 2i+1 for i < n-1, and the earlier timeline unchanged |
| SessionLog.NoMarkerAppend | scripts/parse_json.py:51-52 | two logs without a passed quiz concatenate to one without |
| SessionLog.RepeatedRoundsHaveNoMarker | src/experiment.js:262-268 | rounds after which the loop ran again contain no passed quiz |
| SessionLog.LastRoundEndsWithMarker | src/experiment.js:262-268 | in the round that ends the loop, the quiz record (second to last) is a passed quiz |
| SessionLog.LogShape | src/experiment.js:260-261 | a log of failed rounds and the passing round splits around the passing round's quiz and feedback |
| SessionLog.SessionLogSplit | src/experiment.js:260-268 | everything before the passing round's quiz is free of passed quizzes, and that quiz is passed |
| SessionLog.SessionTrialRegion | scripts/parse_json.py:50-56 | for any log the instruction loop can produce (failed rounds, then the round that ends the loop), followed by trials and the exit page, the parser's region is exactly the trial records |
| SessionLog.PassedQuizStartsTrials | src/experiment.js:226-268 | whatever rounds were failed, the round whose quiz is answered B and C ends the loop, and parsing starts right after its feedback |

## Left out

- `DialResampler.InterpolateDial`: values are exact reals. The source computes the grid in float32 and the interpolation in float64, so rounding is not modelled.
- `DialResampler.Interp`: the properties about event times need sorted (or strictly sorted) times. numpy does not define the result for unsorted `xp`, and neither does this model.
- The resampler's `zip(*movements)` assumes well-formed (time, scale) pairs. A dial event is a `Press` record, so malformed events are not modelled.
- Integer widths: scene, order and uid are polars `Int32` columns. Here they are unbounded integers, and values outside 32 bits are not modelled.
- Polars DataFrame and schema machinery: tables are sequences of row datatypes. The uid is stamped on each row as it is built, which gives the same table as assigning the column afterwards.
- JSON values of the wrong type are not modelled, for example a non-boolean `correct` or a non-list `selected_objects`. Each field is either present with its expected type or absent, and a JSON `null` counts as absent, as `dict.get` makes it.
- I/O is left out: argument parsing, file reading, JSON decoding, printing the tables, output file names and CSV writing. The printed warning is modelled as a `Diag` entry, rendered by `DiagMessage`.
- The jsPsych runtime is left out: consent, Prolific ID, preload, welcome and fullscreen screens, the debriefing survey, the JATOS redirect, and `jsPsych.run`. A session log in `SessionLog` takes everything before the loop as an arbitrary `head` with no passed quiz.
- `Experiment.CompLoopTimeline`: the instruction pages are one `Screen` entry. The feedback screen's message text is not modelled.
- `console.log(agentPosition)` and the implicit global `prompt` assignment in `gen_trial` have no effect on the returned block.
- `SKIP_PROLIFIC_ID` and `SKIP_INSTRUCTIONS` are constant `false`, so the model always includes the instruction loop.
- The code performs no shuffle: `trial_list` is a static JSON import. The trial list is a parameter here.
- `src/plugins/mot.ts` and `src/plugins/gi.ts` (DOM construction, animation, audio, timing) are not part of this model.
