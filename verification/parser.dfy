/**
 * The per-subject timeline parser (`parse_subj_data`): finds where the
 * scored trials start in one subject's log, drops the closing step, and
 * turns every remaining step into rows of three tables (performance,
 * effort slider, effort dial) plus diagnostics for empty dial logs.
 *
 * The specification functions below describe the result step by step;
 * the method `ParseSubject` is the loop the source runs and is proved to
 * compute exactly `SubjectTables`.
 */
module TimelineParser {
  import opened Wrappers
  import opened Records
  import opened Text
  import DialResampler

  /** A float64 cell: numpy's mean of an empty slice is NaN. */
  datatype F64 = NaN | Real(value: real)

  datatype PerfRow = PerfRow(scene: int, reversed: Option<bool>, order: Option<int>, td: F64, uid: nat)
  datatype SliderRow = SliderRow(scene: int, reversed: Option<bool>, order: Option<int>, effort: real, uid: nat)
  datatype DialRow = DialRow(scene: int, reversed: Option<bool>, order: Option<int>, rt: real, scale: real, uid: nat)

  /** The warning printed for a trial whose dial log is present but empty. */
  datatype Diag = Diag(subject: nat, scene: int)

  /** The three tables of one subject (or of the whole dataset), and the warnings. */
  datatype Tables = Tables(perf: seq<PerfRow>, slider: seq<SliderRow>, dial: seq<DialRow>, diags: seq<Diag>)
  {
    /** Row-wise concatenation, table by table. */
    function Then(other: Tables): Tables {
      Tables(perf + other.perf, slider + other.slider, dial + other.dial, diags + other.diags)
    }
  }

  const Empty: Tables := Tables([], [], [], [])

  const DiagPrefix: string := "Could not retrieve dials responses for (subj, trial) "

  function DiagMessage(d: Diag): (m: string)
    ensures |m| > |DiagPrefix| && m[..|DiagPrefix|] == DiagPrefix
  {
    DiagPrefix + (IntToString(d.subject) + (", " + IntToString(d.scene)))
  }

  /** The warning names its subject and scene: different warnings read differently. */
  lemma DiagMessageNames(d1: Diag, d2: Diag)
    requires DiagMessage(d1) == DiagMessage(d2)
    ensures d1 == d2
  {
    var a1, a2 := IntToString(d1.subject), IntToString(d2.subject);
    var b1, b2 := IntToString(d1.scene), IntToString(d2.scene);
    CancelPrefix(DiagPrefix, a1 + (", " + b1), a2 + (", " + b2));
    SplitAtDigits(a1, ", " + b1, a2, ", " + b2);
    IntToStringInjective(d1.subject, d2.subject);
    CancelPrefix(", ", b1, b2);
    IntToStringInjective(d1.scene, d2.scene);
  }

  // ---------------------------------------------------------------------
  // Target designation: the mean of the first four selected-object flags.

  function Sum(xs: seq<real>): real {
    if xs == [] then 0.0 else Sum(xs[..|xs| - 1]) + xs[|xs| - 1]
  }

  /** numpy's `mean`: NaN for an empty sequence. */
  function Mean(xs: seq<real>): (m: F64)
    ensures m.NaN? <==> xs == []
    ensures m.Real? ==> m.value * |xs| as real == Sum(xs)
  {
    if xs == [] then NaN else Real(Sum(xs) / |xs| as real)
  }

  /** `td`: the mean of at most the first four flags. */
  function Td(flags: seq<real>): (td: F64)
    ensures td.NaN? <==> flags == []
    ensures |flags| >= 4 ==> td == Mean(flags[..4])
    ensures |flags| < 4 ==> td == Mean(flags)
  {
    var n := if |flags| < 4 then |flags| else 4;
    assert flags[..|flags|] == flags;
    Mean(flags[..n])
  }

  predicate AllFlags(xs: seq<real>) {
    forall i :: 0 <= i < |xs| ==> 0.0 <= xs[i] <= 1.0
  }

  lemma {:induction false} SumOfFlags(xs: seq<real>)
    requires AllFlags(xs)
    ensures 0.0 <= Sum(xs) <= |xs| as real
  {
    if xs != [] {
      SumOfFlags(xs[..|xs| - 1]);
    }
  }

  /** With 0/1 detection flags, td is a proportion. */
  lemma TdIsProportion(flags: seq<real>)
    requires AllFlags(flags) && flags != []
    ensures Td(flags).Real? && 0.0 <= Td(flags).value <= 1.0
  {
    var head := if |flags| < 4 then flags else flags[..4];
    assert Td(flags) == Mean(head);
    SumOfFlags(head);
    var n := |head| as real;
    var v := Td(flags).value;
    assert v * n == Sum(head);

  }

  // ---------------------------------------------------------------------
  // Where the scored trials start.

  /** Index of the first passed comprehension quiz, if any. */
  function FirstMarker(tl: seq<Step>): (r: Option<nat>)
    ensures r.None? <==> NoMarker(tl)
    ensures r.Some? ==> r.value < |tl| && IsMarker(tl[r.value]) && NoMarker(tl[..r.value])
  {
    if tl == [] then None
    else if IsMarker(tl[0]) then Some(0)
    else match FirstMarker(tl[1..])
      case None => None
      case Some(i) =>
        assert tl[..i + 1] == [tl[0]] + tl[1..][..i];
        Some(i + 1)
  }

  /** First trial position: two past the first passed quiz, else 0. */
  function ExpStart(tl: seq<Step>): nat {
    match FirstMarker(tl)
    case Some(i) => i + 2
    case None => 0
  }

  /** `timeline[exp_start:-1]`, with Python's clamping of slice bounds. */
  function TrialRegion(tl: seq<Step>): (region: seq<Step>)
    ensures |region| == if ExpStart(tl) < |tl| - 1 then |tl| - 1 - ExpStart(tl) else 0
    ensures forall k :: 0 <= k < |region| ==> region[k] == tl[ExpStart(tl) + k]
  {
    var lo := ExpStart(tl);
    if lo < |tl| - 1 then tl[lo..|tl| - 1] else []
  }

  // ---------------------------------------------------------------------
  // Rows of one step.

  predicate EmitsPerf(s: Step) { s.trialId.Some? && s.selectedObjects.Some? }
  predicate EmitsSlider(s: Step) { s.trialId.Some? && s.response.Some? }
  predicate EmitsDial(s: Step) {
    s.trialId.Some? && s.effortDialResponses.Some? && |s.effortDialResponses.value| > 0
  }
  predicate EmitsDiag(s: Step) { s.trialId.Some? && s.effortDialResponses == Some([]) }

  /** One dial row per resampled point of the step's dial log. */
  function DialRows(scene: int, reversed: Option<bool>, order: Option<int>, presses: seq<Press>, uid: nat): (rows: seq<DialRow>)
    requires |presses| > 0
    ensures |rows| == DialResampler.Steps(DialResampler.Default)
    ensures forall k :: 0 <= k < |rows| ==>
      rows[k].scene == scene && rows[k].reversed == reversed && rows[k].order == order && rows[k].uid == uid
    ensures forall k :: 0 <= k < |rows| ==>
      rows[k].rt == DialResampler.Linspace(DialResampler.Duration(DialResampler.Default), |rows|)[k]
    ensures forall k :: 0 <= k < |rows| ==>
      rows[k].scale == DialResampler.Interp(presses, rows[k].rt)
  {
    var (ts, ys) := DialResampler.InterpolateDial(presses, DialResampler.Default);
    seq(|ts|, k requires 0 <= k < |ts| => DialRow(scene, reversed, order, ts[k], ys[k], uid))
  }

  /** The rows and warnings a single step of the trial region produces. */
  function StepTables(s: Step, idx: nat): (t: Tables)
    ensures s.trialId.None? ==> t == Empty
    ensures t.dial == [] || t.diags == []
  {
    match s.trialId
    case None => Empty
    case Some(scene) =>
      var perf := match s.selectedObjects
        case Some(flags) => [PerfRow(scene, s.reversed, s.trialIndex, Td(flags), idx)]
        case None => [];
      var slider := match s.response
        case Some(effort) => [SliderRow(scene, s.reversed, s.trialIndex, effort, idx)]
        case None => [];
      var dial := match s.effortDialResponses
        case Some(presses) =>
          if |presses| > 0 then DialRows(scene, s.reversed, s.trialIndex, presses, idx) else []
        case None => [];
      var diags := if s.effortDialResponses == Some([]) then [Diag(idx, scene)] else [];
      Tables(perf, slider, dial, diags)
  }

  /**
   * What one step contributes: nothing without a scene; otherwise one
   * performance row when it reports selected objects, one slider row when
   * it reports a response, Steps(Default) dial rows sharing its scene,
   * reversal flag and order when its dial log is non-empty, and a single
   * warning naming (subject, scene) when that log is empty.
   */
  lemma StepRows(s: Step, idx: nat)
    ensures var t := StepTables(s, idx);
      && (s.trialId.None? ==> t == Empty)
      && |t.perf| == (if EmitsPerf(s) then 1 else 0)
      && (EmitsPerf(s) ==>
            t.perf[0] == PerfRow(s.trialId.value, s.reversed, s.trialIndex, Td(s.selectedObjects.value), idx))
      && |t.slider| == (if EmitsSlider(s) then 1 else 0)
      && (EmitsSlider(s) ==>
            t.slider[0] == SliderRow(s.trialId.value, s.reversed, s.trialIndex, s.response.value, idx))
      && |t.dial| == (if EmitsDial(s) then DialResampler.Steps(DialResampler.Default) else 0)
      && (forall k :: 0 <= k < |t.dial| ==>
            t.dial[k].scene == s.trialId.value && t.dial[k].reversed == s.reversed &&
            t.dial[k].order == s.trialIndex && t.dial[k].uid == idx)
      && t.diags == (if EmitsDiag(s) then [Diag(idx, s.trialId.value)] else [])
  {
  }

  lemma StepRowCounts(s: Step, idx: nat)
    ensures |StepTables(s, idx).perf| == (if EmitsPerf(s) then 1 else 0)
    ensures |StepTables(s, idx).slider| == (if EmitsSlider(s) then 1 else 0)
    ensures |StepTables(s, idx).dial| == (if EmitsDial(s) then DialResampler.Steps(DialResampler.Default) else 0)
    ensures |StepTables(s, idx).diags| == (if EmitsDiag(s) then 1 else 0)
  {
    StepRows(s, idx);
  }

  /** The rows of a sequence of steps, in step order. */
  function RegionTables(steps: seq<Step>, idx: nat): Tables {
    if steps == [] then Empty
    else RegionTables(steps[..|steps| - 1], idx).Then(StepTables(steps[|steps| - 1], idx))
  }

  /** What `parse_subj_data` returns (and prints) for one subject. */
  function SubjectTables(tl: seq<Step>, idx: nat): (t: Tables)
    ensures forall r :: r in t.perf ==> r.uid == idx
    ensures forall r :: r in t.slider ==> r.uid == idx
    ensures forall r :: r in t.dial ==> r.uid == idx
    ensures forall d :: d in t.diags ==> d.subject == idx
  {
    UidStamped(TrialRegion(tl), idx);
    RegionTables(TrialRegion(tl), idx)
  }

  // ---------------------------------------------------------------------
  // Properties of the specification.

  lemma {:induction false} RegionTablesAppend(a: seq<Step>, b: seq<Step>, idx: nat)
    ensures RegionTables(a + b, idx) == RegionTables(a, idx).Then(RegionTables(b, idx))
  {
    if b == [] {
      assert a + b == a;
    } else {
      var b' := b[..|b| - 1];
      var last := StepTables(b[|b| - 1], idx);
      assert (a + b)[..|a + b| - 1] == a + b';
      assert (a + b)[|a + b| - 1] == b[|b| - 1];
      RegionTablesAppend(a, b', idx);
      var ra, rb' := RegionTables(a, idx), RegionTables(b', idx);
      calc {
        RegionTables(a + b, idx);
        RegionTables(a + b', idx).Then(last);
        ra.Then(rb').Then(last);
        { ThenAssociative(ra, rb', last); }
        ra.Then(rb'.Then(last));
        ra.Then(RegionTables(b, idx));
      }
    }
  }

  lemma ThenAssociative(x: Tables, y: Tables, z: Tables)
    ensures x.Then(y).Then(z) == x.Then(y.Then(z))
  {
    assert x.perf + y.perf + z.perf == x.perf + (y.perf + z.perf);
    assert x.slider + y.slider + z.slider == x.slider + (y.slider + z.slider);
    assert x.dial + y.dial + z.dial == x.dial + (y.dial + z.dial);
    assert x.diags + y.diags + z.diags == x.diags + (y.diags + z.diags);
  }

  /** A step without a scene adds nothing to any table, wherever it stands. */
  lemma SceneLessStepIgnored(a: seq<Step>, s: Step, b: seq<Step>, idx: nat)
    requires s.trialId.None?
    ensures RegionTables(a + [s] + b, idx) == RegionTables(a + b, idx)
  {
    var ra := RegionTables(a, idx);
    assert (a + [s])[..|a + [s]| - 1] == a;
    assert RegionTables(a + [s], idx) == ra.Then(StepTables(s, idx));
    assert StepTables(s, idx) == Empty;
    assert ra.Then(Empty) == ra;
    RegionTablesAppend(a + [s], b, idx);
    RegionTablesAppend(a, b, idx);
  }

  /** Every row and warning carries the subject index it was parsed with. */
  lemma {:induction false} UidStamped(steps: seq<Step>, idx: nat)
    ensures forall r :: r in RegionTables(steps, idx).perf ==> r.uid == idx
    ensures forall r :: r in RegionTables(steps, idx).slider ==> r.uid == idx
    ensures forall r :: r in RegionTables(steps, idx).dial ==> r.uid == idx
    ensures forall d :: d in RegionTables(steps, idx).diags ==> d.subject == idx
  {
    if steps != [] {
      UidStamped(steps[..|steps| - 1], idx);
    }
  }

  /** Number of steps satisfying `p`. */
  function CountWhere(steps: seq<Step>, p: Step -> bool): (n: nat)
    ensures n <= |steps|
  {
    if steps == [] then 0
    else CountWhere(steps[..|steps| - 1], p) + (if p(steps[|steps| - 1]) then 1 else 0)
  }

  /**
   * One performance row per step with a scene and selected objects, one
   * slider row per step with a scene and a response, Steps(Default) dial
   * rows per step with a scene and a non-empty dial log, one warning per
   * step with a scene and an empty one.
   */
  lemma {:induction false} RowCounts(steps: seq<Step>, idx: nat)
    ensures |RegionTables(steps, idx).perf| == CountWhere(steps, EmitsPerf)
    ensures |RegionTables(steps, idx).slider| == CountWhere(steps, EmitsSlider)
    ensures |RegionTables(steps, idx).dial| ==
      DialResampler.Steps(DialResampler.Default) * CountWhere(steps, EmitsDial)
    ensures |RegionTables(steps, idx).diags| == CountWhere(steps, EmitsDiag)
  {
    if steps != [] {
      var init, s := steps[..|steps| - 1], steps[|steps| - 1];
      var n := DialResampler.Steps(DialResampler.Default);
      RowCounts(init, idx);
      StepRowCounts(s, idx);
      var t, u := RegionTables(init, idx), StepTables(s, idx);
      assert RegionTables(steps, idx) == t.Then(u);
      var c0 := CountWhere(init, EmitsDial);
      assert CountWhere(steps, EmitsDial) == c0 + (if EmitsDial(s) then 1 else 0);
      MulSucc(n, c0);
    }
  }

  lemma MulSucc(n: nat, c: nat)
    ensures n * (c + 1) == n * c + n
  {
  }

  /** The steps satisfying `p`, in their original order. */
  function Filter(steps: seq<Step>, p: Step -> bool): (r: seq<Step>)
    ensures |r| == CountWhere(steps, p)
    ensures forall k :: 0 <= k < |r| ==> p(r[k])
  {
    if steps == [] then []
    else Filter(steps[..|steps| - 1], p) + (if p(steps[|steps| - 1]) then [steps[|steps| - 1]] else [])
  }

  function PerfRowOf(s: Step, idx: nat): PerfRow
    requires EmitsPerf(s)
  {
    PerfRow(s.trialId.value, s.reversed, s.trialIndex, Td(s.selectedObjects.value), idx)
  }

  function SliderRowOf(s: Step, idx: nat): SliderRow
    requires EmitsSlider(s)
  {
    SliderRow(s.trialId.value, s.reversed, s.trialIndex, s.response.value, idx)
  }

  /**
   * The performance table is the row of each qualifying step, taken in
   * step order: nothing added, nothing dropped, nothing reordered.
   */
  lemma {:induction false} PerfRowsInStepOrder(steps: seq<Step>, idx: nat)
    ensures var f := Filter(steps, EmitsPerf);
      RegionTables(steps, idx).perf == seq(|f|, k requires 0 <= k < |f| => PerfRowOf(f[k], idx))
  {
    if steps != [] {
      PerfRowsInStepOrder(steps[..|steps| - 1], idx);
    }
  }

  /** Likewise for the effort-slider table. */
  lemma {:induction false} SliderRowsInStepOrder(steps: seq<Step>, idx: nat)
    ensures var f := Filter(steps, EmitsSlider);
      RegionTables(steps, idx).slider == seq(|f|, k requires 0 <= k < |f| => SliderRowOf(f[k], idx))
  {
    if steps != [] {
      SliderRowsInStepOrder(steps[..|steps| - 1], idx);
    }
  }

  /** When a passed quiz exists, the trial region starts two steps after the first one. */
  lemma RegionAfterFirstMarker(pre: seq<Step>, quiz: Step, next: Step, trials: seq<Step>, exit: Step)
    requires NoMarker(pre) && IsMarker(quiz)
    ensures TrialRegion(pre + [quiz, next] + trials + [exit]) == trials
  {
    var tl := pre + [quiz, next] + trials + [exit];
    assert tl[|pre|] == quiz;
    assert tl[..|pre|] == pre;
    var m := FirstMarker(tl).value;
    assert m == |pre|;
  }

  /** Without a passed quiz, every step but the last is parsed. */
  lemma RegionWithoutMarker(tl: seq<Step>)
    requires NoMarker(tl) && |tl| > 0
    ensures TrialRegion(tl) == tl[..|tl| - 1]
  {
  }

  /**
   * A passed quiz, two filler steps, one scored trial with detection flags
   * [1, 0, 1, 0] and the exit page give exactly one performance row with
   * td 0.5 and nothing else.
   */
  lemma EndToEndExample()
    ensures var quiz := Blank.(kind := Some(CompQuiz), correct := Some(true));
      var trial := Blank.(trialId := Some(1), selectedObjects := Some([1.0, 0.0, 1.0, 0.0]));
      SubjectTables([quiz, Blank, Blank, trial, Blank], 0)
        == Tables([PerfRow(1, None, None, Real(0.5), 0)], [], [], [])
  {
    var quiz := Blank.(kind := Some(CompQuiz), correct := Some(true));
    var trial := Blank.(trialId := Some(1), selectedObjects := Some([1.0, 0.0, 1.0, 0.0]));
    RegionAfterFirstMarker([], quiz, Blank, [Blank, trial], Blank);
    assert [quiz, Blank, Blank, trial, Blank] == [] + [quiz, Blank] + [Blank, trial] + [Blank];
    assert [Blank, trial][..1] == [Blank];
    assert [Blank, trial][..0] == [];
    var flags := [1.0, 0.0, 1.0, 0.0];
    assert [1.0][..0] == [];
    assert Sum([1.0]) == 1.0;
    assert [1.0, 0.0][..1] == [1.0];
    assert Sum([1.0, 0.0]) == 1.0;
    assert [1.0, 0.0, 1.0][..2] == [1.0, 0.0];
    assert Sum([1.0, 0.0, 1.0]) == 2.0;
    assert flags[..3] == [1.0, 0.0, 1.0];
    assert Sum(flags) == 2.0;
    assert flags[..4] == flags;
    assert Td(flags) == Real(0.5);
    assert StepTables(Blank, 0) == Empty;
    assert StepTables(trial, 0) == Tables([PerfRow(1, None, None, Real(0.5), 0)], [], [], []);
    assert RegionTables([Blank], 0) == Empty;
    assert RegionTables([Blank, trial], 0) == Empty.Then(StepTables(trial, 0));
  }

  // ---------------------------------------------------------------------
  // The loop the source runs.

  /** The search for the first passed quiz (a loop that breaks on it). */
  method FindExpStart(timeline: seq<Step>) returns (expStart: nat)
    ensures expStart == ExpStart(timeline)
    ensures expStart > 0 <==> !NoMarker(timeline)
  {
    expStart := 0;
    var i := 0;
    while i < |timeline|
      invariant 0 <= i <= |timeline|
      invariant NoMarker(timeline[..i])
      invariant expStart == 0
    {
      if IsMarker(timeline[i]) {
        expStart := i + 2;
        break;
      }
      assert timeline[..i + 1] == timeline[..i] + [timeline[i]];
      i := i + 1;
    }
    if i == |timeline| {
      assert timeline[..i] == timeline;
    }
  }

  /** The inner loop over the resampled points: one dial row per point. */
  method AppendDialRows(dial: seq<DialRow>, scene: int, reversed: Option<bool>, order: Option<int>,
                        presses: seq<Press>, idx: nat) returns (dial': seq<DialRow>)
    requires |presses| > 0
    ensures dial' == dial + DialRows(scene, reversed, order, presses, idx)
  {
    var (rts, scales) := DialResampler.InterpolateDial(presses, DialResampler.Default);
    ghost var rows := DialRows(scene, reversed, order, presses, idx);
    dial' := dial;
    var j := 0;
    while j < |rts|
      invariant 0 <= j <= |rts|
      invariant dial' == dial + rows[..j]
    {
      dial' := dial' + [DialRow(scene, reversed, order, rts[j], scales[j], idx)];
      assert rows[..j + 1] == rows[..j] + [rows[j]];
      j := j + 1;
    }
    assert rows[..j] == rows;
  }

  /** One pass of the trial loop: appends the rows of `step` to each table. */
  method AppendStep(step: Step, idx: nat, t: Tables) returns (t': Tables)
    ensures t' == t.Then(StepTables(step, idx))
  {
    var perf, slider, dial, diags := t.perf, t.slider, t.dial, t.diags;
    t' := t;
    if step.trialId.None? {
      return;
    }
    var scene := step.trialId.value;
    if step.selectedObjects.Some? {
      perf := perf + [PerfRow(scene, step.reversed, step.trialIndex, Td(step.selectedObjects.value), idx)];
    }
    if step.response.Some? {
      slider := slider + [SliderRow(scene, step.reversed, step.trialIndex, step.response.value, idx)];
    }
    if step.effortDialResponses.Some? {
      var presses := step.effortDialResponses.value;
      if |presses| > 0 {
        dial := AppendDialRows(dial, scene, step.reversed, step.trialIndex, presses, idx);
      } else {
        diags := diags + [Diag(idx, scene)];
      }
    }
    t' := Tables(perf, slider, dial, diags);
  }

  /** `parse_subj_data`: the three tables of one subject, and its warnings. */
  method ParseSubject(timeline: seq<Step>, idx: nat)
    returns (perf: seq<PerfRow>, slider: seq<SliderRow>, dial: seq<DialRow>, diags: seq<Diag>)
    ensures Tables(perf, slider, dial, diags) == SubjectTables(timeline, idx)
  {
    var expStart := FindExpStart(timeline);
    // the last step is the exit page
    var region := if expStart < |timeline| - 1 then timeline[expStart..|timeline| - 1] else [];
    assert region == TrialRegion(timeline);

    var t := Empty;
    var k := 0;
    while k < |region|
      invariant 0 <= k <= |region|
      invariant t == RegionTables(region[..k], idx)
    {
      assert region[..k + 1][..k] == region[..k];
      t := AppendStep(region[k], idx, t);
      k := k + 1;
    }
    assert region[..k] == region;
    perf, slider, dial, diags := t.perf, t.slider, t.dial, t.diags;
  }

}
