/**
 * The dataset aggregator (the subject loop of `main`): parses every
 * subject in input order, with its position as uid, and appends its three
 * tables (and its warnings) to the growing dataset tables.
 */
module DatasetAggregator {
  import opened Records
  import opened TimelineParser

  /** The dataset tables after the first |subjects| subjects. */
  function DatasetTables(subjects: seq<seq<Step>>): Tables {
    if subjects == [] then Empty
    else
      var n := |subjects| - 1;
      DatasetTables(subjects[..n]).Then(SubjectTables(subjects[n], n))
  }

  /** `main`'s loop: vstack each subject's tables onto the dataset tables. */
  method Aggregate(subjects: seq<seq<Step>>)
    returns (perf: seq<PerfRow>, slider: seq<SliderRow>, dial: seq<DialRow>, diags: seq<Diag>)
    ensures Tables(perf, slider, dial, diags) == DatasetTables(subjects)
  {
    perf, slider, dial, diags := [], [], [], [];
    for idx := 0 to |subjects|
      invariant Tables(perf, slider, dial, diags) == DatasetTables(subjects[..idx])
    {
      var p, s, k, w := ParseSubject(subjects[idx], idx);
      perf := perf + p;
      slider := slider + s;
      dial := dial + k;
      diags := diags + w;
      assert subjects[..idx + 1][..idx] == subjects[..idx];
    }
    assert subjects[..|subjects|] == subjects;
  }

  /** Each subject's own tables, uid = position. */
  function PerSubject(subjects: seq<seq<Step>>): (r: seq<Tables>)
    ensures |r| == |subjects|
    ensures forall i :: 0 <= i < |subjects| ==> r[i] == SubjectTables(subjects[i], i)
  {
    seq(|subjects|, i requires 0 <= i < |subjects| => SubjectTables(subjects[i], i))
  }

  /** A sequence of tables stacked one after the other, in order. */
  function ConcatTables(ts: seq<Tables>): Tables {
    if ts == [] then Empty else ConcatTables(ts[..|ts| - 1]).Then(ts[|ts| - 1])
  }

  /** Per table, the sum of the row counts of a sequence of tables. */
  function RowTotals(ts: seq<Tables>): (nat, nat, nat, nat) {
    if ts == [] then (0, 0, 0, 0)
    else
      var (p, s, d, w) := RowTotals(ts[..|ts| - 1]);
      var t := ts[|ts| - 1];
      (p + |t.perf|, s + |t.slider|, d + |t.dial|, w + |t.diags|)
  }

  /** The dataset tables are the per-subject tables stacked in subject order. */
  lemma {:induction false} DatasetIsConcatenation(subjects: seq<seq<Step>>)
    ensures DatasetTables(subjects) == ConcatTables(PerSubject(subjects))
  {
    if subjects != [] {
      var n := |subjects| - 1;
      DatasetIsConcatenation(subjects[..n]);
      assert PerSubject(subjects)[..n] == PerSubject(subjects[..n]);
    }
  }

  lemma {:induction false} ConcatTablesSizes(ts: seq<Tables>)
    ensures var c := ConcatTables(ts);
      (|c.perf|, |c.slider|, |c.dial|, |c.diags|) == RowTotals(ts)
  {
    if ts != [] {
      ConcatTablesSizes(ts[..|ts| - 1]);
    }
  }

  /** Each dataset table has as many rows as the subjects' tables together. */
  lemma DatasetRowTotals(subjects: seq<seq<Step>>)
    ensures var t := DatasetTables(subjects);
      (|t.perf|, |t.slider|, |t.dial|, |t.diags|) == RowTotals(PerSubject(subjects))
  {
    DatasetIsConcatenation(subjects);
    ConcatTablesSizes(PerSubject(subjects));
  }

  /** The uid column of each table (the subject column of the warnings). */
  function Uids(t: Tables): (seq<nat>, seq<nat>, seq<nat>, seq<nat>) {
    (seq(|t.perf|, i requires 0 <= i < |t.perf| => t.perf[i].uid),
     seq(|t.slider|, i requires 0 <= i < |t.slider| => t.slider[i].uid),
     seq(|t.dial|, i requires 0 <= i < |t.dial| => t.dial[i].uid),
     seq(|t.diags|, i requires 0 <= i < |t.diags| => t.diags[i].subject))
  }

  /** Every uid is below `n` and uids never decrease. */
  predicate InSubjectOrder(us: seq<nat>, n: nat) {
    && (forall i :: 0 <= i < |us| ==> us[i] < n)
    && (forall i, j :: 0 <= i < j < |us| ==> us[i] <= us[j])
  }

  lemma AppendSubject(us: seq<nat>, vs: seq<nat>, n: nat)
    requires InSubjectOrder(us, n)
    requires forall i :: 0 <= i < |vs| ==> vs[i] == n
    ensures InSubjectOrder(us + vs, n + 1)
  {
  }

  lemma UidsThen(x: Tables, y: Tables)
    ensures Uids(x.Then(y)).0 == Uids(x).0 + Uids(y).0
    ensures Uids(x.Then(y)).1 == Uids(x).1 + Uids(y).1
    ensures Uids(x.Then(y)).2 == Uids(x).2 + Uids(y).2
    ensures Uids(x.Then(y)).3 == Uids(x).3 + Uids(y).3
  {
  }

  lemma SubjectUids(tl: seq<Step>, n: nat)
    ensures var (p, s, d, w) := Uids(SubjectTables(tl, n));
      && (forall i :: 0 <= i < |p| ==> p[i] == n)
      && (forall i :: 0 <= i < |s| ==> s[i] == n)
      && (forall i :: 0 <= i < |d| ==> d[i] == n)
      && (forall i :: 0 <= i < |w| ==> w[i] == n)
  {
    var u := SubjectTables(tl, n);
    UidStamped(TrialRegion(tl), n);
    assert forall i :: 0 <= i < |u.perf| ==> u.perf[i] in u.perf;
    assert forall i :: 0 <= i < |u.slider| ==> u.slider[i] in u.slider;
    assert forall i :: 0 <= i < |u.dial| ==> u.dial[i] in u.dial;
    assert forall i :: 0 <= i < |u.diags| ==> u.diags[i] in u.diags;
  }

  /**
   * Rows appear in subject order: down every table the uids never
   * decrease, and each one is the position of an input subject.
   */
  lemma {:induction false} UidsInSubjectOrder(subjects: seq<seq<Step>>)
    ensures var (p, s, d, w) := Uids(DatasetTables(subjects));
      && InSubjectOrder(p, |subjects|) && InSubjectOrder(s, |subjects|)
      && InSubjectOrder(d, |subjects|) && InSubjectOrder(w, |subjects|)
  {
    if subjects != [] {
      var n := |subjects| - 1;
      UidsInSubjectOrder(subjects[..n]);
      var t0, u := DatasetTables(subjects[..n]), SubjectTables(subjects[n], n);
      SubjectUids(subjects[n], n);
      UidsThen(t0, u);
      AppendSubject(Uids(t0).0, Uids(u).0, n);
      AppendSubject(Uids(t0).1, Uids(u).1, n);
      AppendSubject(Uids(t0).2, Uids(u).2, n);
      AppendSubject(Uids(t0).3, Uids(u).3, n);
    }
  }

  /** Two subjects with one performance row each: subject 0's row comes first. */
  lemma TwoSubjectsInOrder(a: seq<Step>, b: seq<Step>)
    requires |SubjectTables(a, 0).perf| == 1 && |SubjectTables(b, 1).perf| == 1
    ensures var perf := DatasetTables([a, b]).perf;
      |perf| == 2 && perf[0] == SubjectTables(a, 0).perf[0] && perf[1] == SubjectTables(b, 1).perf[0]
      && perf[0].uid == 0 && perf[1].uid == 1
  {
    assert [a, b][..1] == [a];
    assert [a][..0] == [];
    assert DatasetTables([a]) == Empty.Then(SubjectTables(a, 0));
    assert DatasetTables([a, b]) == DatasetTables([a]).Then(SubjectTables(b, 1));
    UidStamped(TrialRegion(a), 0);
    UidStamped(TrialRegion(b), 1);
    assert SubjectTables(a, 0).perf[0] in SubjectTables(a, 0).perf;
    assert SubjectTables(b, 1).perf[0] in SubjectTables(b, 1).perf;
  }

}
