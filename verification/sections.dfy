/** Splitting a sampled pose list into the sections that the 2-D preview
    draws as separate polylines (get_2d_visualization in
    classes/base_letters.py). The scan walks the poses once, skips the
    samples that are not drawn and collects every maximal run of samples
    that are. */
module Sections {
  import opened Geometry
  import opened Seqs

  /** The half-open index range [start, end) of one section. */
  datatype Run = Run(start: nat, end: nat)

  /** Every run is a non-empty range inside the pose list. */
  predicate RunsInside(n: nat, runs: seq<Run>)
  {
    forall k :: 0 <= k < |runs| ==> runs[k].start < runs[k].end <= n
  }

  /** Sample i belongs to one of the runs. */
  predicate Covered(runs: seq<Run>, i: nat)
  {
    exists k :: 0 <= k < |runs| && runs[k].start <= i < runs[k].end
  }

  /** The runs are exactly the maximal blocks of consecutive samples that
      satisfy keep: in increasing order with a gap between neighbours, made
      only of kept samples, bounded on both sides by a dropped sample or the
      end of the list, and together covering every kept sample. */
  predicate MaximalRuns(poses: seq<Vec3>, keep: Vec3 -> bool, runs: seq<Run>)
  {
    && RunsInside(|poses|, runs)
    && (forall k :: 0 <= k < |runs| - 1 ==> runs[k].end < runs[k + 1].start)
    && (forall k :: 0 <= k < |runs| ==>
          forall i :: runs[k].start <= i < runs[k].end ==> keep(poses[i]))
    && (forall k :: 0 <= k < |runs| ==> runs[k].start == 0 || !keep(poses[runs[k].start - 1]))
    && (forall k :: 0 <= k < |runs| ==> runs[k].end == |poses| || !keep(poses[runs[k].end]))
    && (forall i :: 0 <= i < |poses| && keep(poses[i]) ==> Covered(runs, i))
  }

  /** The pose slices `poses[start:end]` the runs select. */
  function Slices(poses: seq<Vec3>, runs: seq<Run>): (r: seq<seq<Vec3>>)
    requires RunsInside(|poses|, runs)
    ensures |r| == |runs|
    ensures forall k :: 0 <= k < |r| ==> |r[k]| > 0
  {
    seq(|runs|, k requires 0 <= k < |runs| => poses[runs[k].start..runs[k].end])
  }

  /** What the scan knows after looking at the samples before start: the
      runs found so far are the maximal runs of that prefix, and a run that
      stopped at start did so because the list or the kept block ended
      there. */
  predicate Scanned(poses: seq<Vec3>, keep: Vec3 -> bool, runs: seq<Run>, start: nat)
  {
    && start <= |poses|
    && RunsInside(start, runs)
    && (forall k :: 0 <= k < |runs| - 1 ==> runs[k].end < runs[k + 1].start)
    && (forall k :: 0 <= k < |runs| ==>
          forall i :: runs[k].start <= i < runs[k].end ==> keep(poses[i]))
    && (forall k :: 0 <= k < |runs| ==> runs[k].start == 0 || !keep(poses[runs[k].start - 1]))
    && (forall k :: 0 <= k < |runs| ==> runs[k].end == |poses| || !keep(poses[runs[k].end]))
    && (forall i :: 0 <= i < start && keep(poses[i]) ==> Covered(runs, i))
    && (0 < start && keep(poses[start - 1]) ==> start == |poses| || !keep(poses[start]))
  }

  /** The scanning loop of the preview, for an arbitrary "is drawn" test:
      the outer loop skips dropped samples, the inner loop extends a section
      while samples are kept. Besides the run structure, the sections laid
      end to end are exactly the kept samples in their original order. */
  method SplitRuns(poses: seq<Vec3>, keep: Vec3 -> bool) returns (runs: seq<Run>)
    ensures MaximalRuns(poses, keep, runs)
    ensures Flatten(Slices(poses, runs)) == Filter(poses, keep)
  {
    runs := [];
    var start := 0;
    while start < |poses|
      invariant Scanned(poses, keep, runs, start)
      invariant Flatten(Slices(poses, runs)) == Filter(poses[..start], keep)
    {
      if !keep(poses[start]) {
        SkipStep(poses, keep, runs, start);
        SkipFilter(poses, keep, start);
        start := start + 1;
      } else {
        var end := KeptBlockEnd(poses, keep, start);
        RunStep(poses, keep, runs, start, end);
        SplitStep(poses, keep, runs, start, end);
        runs := runs + [Run(start, end)];
        start := end;
      }
    }
    ScanDone(poses, keep, runs, start);
  }

  /** The inner loop of the preview: from a kept sample, the end of the
      block of kept samples that starts there. */
  method KeptBlockEnd(poses: seq<Vec3>, keep: Vec3 -> bool, start: nat) returns (end: nat)
    requires start < |poses| && keep(poses[start])
    ensures start < end <= |poses|
    ensures forall i :: start <= i < end ==> keep(poses[i])
    ensures end == |poses| || !keep(poses[end])
  {
    end := start + 1;
    while end < |poses| && keep(poses[end])
      invariant start < end <= |poses|
      invariant forall i :: start <= i < end ==> keep(poses[i])
    {
      end := end + 1;
    }
  }

  /** A scan that reached the end of the list has found the maximal runs
      and all the kept samples. */
  lemma ScanDone(poses: seq<Vec3>, keep: Vec3 -> bool, runs: seq<Run>, start: nat)
    requires Scanned(poses, keep, runs, start) && start >= |poses|
    requires Flatten(Slices(poses, runs)) == Filter(poses[..start], keep)
    ensures MaximalRuns(poses, keep, runs)
    ensures Flatten(Slices(poses, runs)) == Filter(poses, keep)
  {
    assert poses[..start] == poses;
  }

  /** Skipping a dropped sample keeps the scan state. */
  lemma SkipStep(poses: seq<Vec3>, keep: Vec3 -> bool, runs: seq<Run>, start: nat)
    requires Scanned(poses, keep, runs, start)
    requires start < |poses| && !keep(poses[start])
    ensures Scanned(poses, keep, runs, start + 1)
  {
  }

  /** Skipping a dropped sample adds nothing to the kept samples. */
  lemma SkipFilter(poses: seq<Vec3>, keep: Vec3 -> bool, start: nat)
    requires start < |poses| && !keep(poses[start])
    ensures Filter(poses[..start + 1], keep) == Filter(poses[..start], keep)
  {
    assert poses[..start + 1] == poses[..start] + [poses[start]];
    FilterConcat(poses[..start], [poses[start]], keep);
  }

  /** Recording a maximal kept block [start, end) keeps the scan state. */
  lemma RunStep(poses: seq<Vec3>, keep: Vec3 -> bool, runs: seq<Run>, start: nat, end: nat)
    requires Scanned(poses, keep, runs, start)
    requires start < end <= |poses| && keep(poses[start])
    requires forall i :: start <= i < end ==> keep(poses[i])
    requires end == |poses| || !keep(poses[end])
    ensures Scanned(poses, keep, runs + [Run(start, end)], end)
  {
    var next := runs + [Run(start, end)];
    CoverStep(poses, keep, runs, start, end);
    assert forall k :: 0 <= k < |runs| ==> next[k] == runs[k];
    assert next[|runs|] == Run(start, end);
  }

  /** Appending the run [start, end) extends the concatenated sections by
      exactly the samples it covers. */
  lemma SplitStep(poses: seq<Vec3>, keep: Vec3 -> bool, runs: seq<Run>, start: nat, end: nat)
    requires start < end <= |poses|
    requires RunsInside(start, runs)
    requires forall i :: start <= i < end ==> keep(poses[i])
    requires Flatten(Slices(poses, runs)) == Filter(poses[..start], keep)
    ensures RunsInside(|poses|, runs + [Run(start, end)])
    ensures Flatten(Slices(poses, runs + [Run(start, end)])) == Filter(poses[..end], keep)
  {
    SlicesAppend(poses, runs, Run(start, end));
    FlattenAppend(Slices(poses, runs), poses[start..end]);
    FilterKeptBlock(poses, keep, start, end);
  }

  /** Appending a run appends its slice. */
  lemma SlicesAppend(poses: seq<Vec3>, runs: seq<Run>, run: Run)
    requires RunsInside(run.start, runs) && run.start < run.end <= |poses|
    ensures RunsInside(|poses|, runs + [run])
    ensures Slices(poses, runs + [run]) == Slices(poses, runs) + [poses[run.start..run.end]]
  {
    var next := runs + [run];
    assert forall k :: 0 <= k < |runs| ==> next[k] == runs[k];
    assert next[|runs|] == run;
  }

  /** A block of kept samples passes the filter whole. */
  lemma FilterKeptBlock(poses: seq<Vec3>, keep: Vec3 -> bool, start: nat, end: nat)
    requires start <= end <= |poses|
    requires forall i :: start <= i < end ==> keep(poses[i])
    ensures Filter(poses[..end], keep) == Filter(poses[..start], keep) + poses[start..end]
  {
    assert poses[..end] == poses[..start] + poses[start..end];
    FilterConcat(poses[..start], poses[start..end], keep);
    FilterAll(poses[start..end], keep);
  }

  /** Appending the run [start, end) keeps every earlier kept sample
      covered and covers the samples up to end. */
  lemma CoverStep(poses: seq<Vec3>, keep: Vec3 -> bool, runs: seq<Run>, start: nat, end: nat)
    requires start < end <= |poses|
    requires forall i :: 0 <= i < start && keep(poses[i]) ==> Covered(runs, i)
    ensures forall i :: 0 <= i < end && keep(poses[i]) ==> Covered(runs + [Run(start, end)], i)
  {
    var next := runs + [Run(start, end)];
    forall i | 0 <= i < end && keep(poses[i])
      ensures Covered(next, i)
    {
      if i < start {
        var k :| 0 <= k < |runs| && runs[k].start <= i < runs[k].end;
        assert next[k] == runs[k];
      } else {
        assert next[|runs|] == Run(start, end);
      }
    }
  }

  /** A sample is in a section exactly when it is kept. */
  lemma {:induction false} CoveredIffKept(poses: seq<Vec3>, keep: Vec3 -> bool, runs: seq<Run>, i: nat)
    requires MaximalRuns(poses, keep, runs)
    requires i < |poses|
    ensures Covered(runs, i) <==> keep(poses[i])
  {
    if Covered(runs, i) {
      var k :| 0 <= k < |runs| && runs[k].start <= i < runs[k].end;
      assert keep(poses[i]);
    }
  }

  /** Whether the pen touches the paper at a sample. */
  predicate PenDown(p: Vec3)
  {
    p.z == 0.0
  }

  /** Every sample of every slice of maximal runs is a kept sample. */
  lemma SlicesKept(poses: seq<Vec3>, keep: Vec3 -> bool, runs: seq<Run>)
    requires MaximalRuns(poses, keep, runs)
    ensures forall k :: 0 <= k < |runs| ==>
      forall j :: 0 <= j < |Slices(poses, runs)[k]| ==> keep(Slices(poses, runs)[k][j])
  {
    var s := Slices(poses, runs);
    forall k, j | 0 <= k < |runs| && 0 <= j < |s[k]|
      ensures keep(s[k][j])
    {
      assert s[k][j] == poses[runs[k].start + j];
    }
  }

  /** The test the preview applies as written: samples with a non-zero
      height are the ones kept and drawn. */
  predicate Raised(p: Vec3)
  {
    p.z != 0.0
  }

  /** The preview's sections as written: the maximal runs of raised
      samples (the index ranges `runs`), so every drawn point is a pen-up
      point and every pen-up point is drawn. */
  method PenUpSections(poses: seq<Vec3>) returns (sections: seq<seq<Vec3>>, runs: seq<Run>)
    ensures MaximalRuns(poses, Raised, runs)
    ensures |sections| == |runs|
    ensures forall k :: 0 <= k < |runs| ==> sections[k] == poses[runs[k].start..runs[k].end]
    ensures forall k :: 0 <= k < |sections| ==> |sections[k]| > 0
    ensures forall k :: 0 <= k < |sections| ==>
      forall j :: 0 <= j < |sections[k]| ==> sections[k][j].z != 0.0
    ensures Flatten(sections) == Filter(poses, Raised)
  {
    runs := SplitRuns(poses, Raised);
    sections := Slices(poses, runs);
    SlicesKept(poses, Raised, runs);
  }

  /** The preview's sections as its documentation describes them: the
      samples with non-zero height are removed, so the sections are the
      maximal runs of pen-down samples (the index ranges `runs`) and the
      drawing shows what the pen writes. */
  method PenDownSections(poses: seq<Vec3>) returns (sections: seq<seq<Vec3>>, runs: seq<Run>)
    ensures MaximalRuns(poses, PenDown, runs)
    ensures |sections| == |runs|
    ensures forall k :: 0 <= k < |runs| ==> sections[k] == poses[runs[k].start..runs[k].end]
    ensures forall k :: 0 <= k < |sections| ==> |sections[k]| > 0
    ensures forall k :: 0 <= k < |sections| ==>
      forall j :: 0 <= j < |sections[k]| ==> sections[k][j].z == 0.0
    ensures Flatten(sections) == Filter(poses, PenDown)
  {
    runs := SplitRuns(poses, PenDown);
    sections := Slices(poses, runs);
    SlicesKept(poses, PenDown, runs);
  }

  /** A stroke on the paper followed by a lift: the preview as written
      draws only the lifted sample and drops the written one. */
  lemma PenUpDrawsOnlyTheLift()
    ensures Filter([Vec3(0.0, 0.0, 0.0), Vec3(0.0, 0.0, 5.0)], Raised) == [Vec3(0.0, 0.0, 5.0)]
    ensures Filter([Vec3(0.0, 0.0, 0.0), Vec3(0.0, 0.0, 5.0)], PenDown) == [Vec3(0.0, 0.0, 0.0)]
  {
    var ps := [Vec3(0.0, 0.0, 0.0), Vec3(0.0, 0.0, 5.0)];
    assert ps[1..][1..] == [];
  }
}
