/** The sweep line over sample intervals: how many operations were in flight at once. */
module CapacityProbe {
  import opened Sorting

  datatype Sample = Sample(start: int, finish: int)

  /** A start (+1) or a finish (-1) at a time. */
  datatype Mark = Mark(time: int, change: int)

  /** Python's tuple order: by time, finishes before starts. */
  predicate MarkLe(a: Mark, b: Mark) {
    a.time < b.time || (a.time == b.time && a.change <= b.change)
  }

  /** `measure_capacity_workload` records at least one microsecond per sample. */
  predicate Proper(samples: seq<Sample>) {
    forall s | s in samples :: s.start < s.finish
  }

  function Starts(samples: seq<Sample>): seq<Mark> {
    if samples == [] then [] else [Mark(samples[0].start, 1)] + Starts(samples[1..])
  }

  function Finishes(samples: seq<Sample>): seq<Mark> {
    if samples == [] then [] else [Mark(samples[0].finish, -1)] + Finishes(samples[1..])
  }

  /** How many samples are in flight at time `t`: the quantity whose maximum is wanted. */
  function Active(samples: seq<Sample>, t: int): nat {
    if samples == [] then 0
    else (if samples[0].start <= t < samples[0].finish then 1 else 0) + Active(samples[1..], t)
  }

  function Level(marks: seq<Mark>): int {
    if marks == [] then 0 else marks[0].change + Level(marks[1..])
  }

  /** The changes of the marks up to `cut` in sweep order. */
  function Tally(marks: seq<Mark>, cut: Mark): int {
    if marks == [] then 0
    else (if MarkLe(marks[0], cut) then marks[0].change else 0) + Tally(marks[1..], cut)
  }

  lemma {:induction false} LevelConcat(xs: seq<Mark>, ys: seq<Mark>)
    ensures Level(xs + ys) == Level(xs) + Level(ys)
  {
    if xs == [] {
      assert xs + ys == ys;
    } else {
      assert (xs + ys)[1..] == xs[1..] + ys;
      LevelConcat(xs[1..], ys);
    }
  }

  lemma {:induction false} TallyConcat(xs: seq<Mark>, ys: seq<Mark>, cut: Mark)
    ensures Tally(xs + ys, cut) == Tally(xs, cut) + Tally(ys, cut)
  {
    if xs == [] {
      assert xs + ys == ys;
    } else {
      assert (xs + ys)[1..] == xs[1..] + ys;
      TallyConcat(xs[1..], ys, cut);
    }
  }

  lemma {:induction false} TallyInsert(x: Mark, xs: seq<Mark>, cut: Mark)
    ensures Tally(Insert(x, xs, MarkLe), cut) == Tally([x], cut) + Tally(xs, cut)
  {
    if xs == [] || MarkLe(x, xs[0]) {
      TallyConcat([x], xs, cut);
    } else {
      TallyInsert(x, xs[1..], cut);
      TallyConcat([xs[0]], Insert(x, xs[1..], MarkLe), cut);
      assert [xs[0]] + xs[1..] == xs;
      TallyConcat([xs[0]], xs[1..], cut);
    }
  }

  lemma {:induction false} TallySort(xs: seq<Mark>, cut: Mark)
    ensures Tally(Sort(xs, MarkLe), cut) == Tally(xs, cut)
  {
    if xs != [] {
      TallySort(xs[1..], cut);
      TallyInsert(xs[0], Sort(xs[1..], MarkLe), cut);
      assert [xs[0]] + xs[1..] == xs;
      TallyConcat([xs[0]], xs[1..], cut);
    }
  }

  /** All marks up to time `t` leave exactly the samples in flight at `t`. */
  lemma {:induction false} TallyIsActive(samples: seq<Sample>, t: int)
    requires Proper(samples)
    ensures Tally(Starts(samples), Mark(t, 1)) + Tally(Finishes(samples), Mark(t, 1)) == Active(samples, t)
  {
    if samples != [] {
      TallyIsActive(samples[1..], t);
      TallyConcat([Mark(samples[0].start, 1)], Starts(samples[1..]), Mark(t, 1));
      TallyConcat([Mark(samples[0].finish, -1)], Finishes(samples[1..]), Mark(t, 1));
    }
  }

  /** Stopping before the starts at `t` still leaves no negative count: every finish followed its start. */
  lemma {:induction false} TallyBeforeStarts(samples: seq<Sample>, t: int)
    requires Proper(samples)
    ensures Tally(Starts(samples), Mark(t, -1)) + Tally(Finishes(samples), Mark(t, -1)) >= 0
  {
    if samples != [] {
      TallyBeforeStarts(samples[1..], t);
      TallyConcat([Mark(samples[0].start, 1)], Starts(samples[1..]), Mark(t, -1));
      TallyConcat([Mark(samples[0].finish, -1)], Finishes(samples[1..]), Mark(t, -1));
    }
  }

  lemma {:induction false} TallyWhole(marks: seq<Mark>, cut: Mark)
    requires forall m | m in marks :: MarkLe(m, cut)
    ensures Tally(marks, cut) == Level(marks)
  {
    if marks != [] {
      TallyWhole(marks[1..], cut);
    }
  }

  lemma {:induction false} TallyNothing(marks: seq<Mark>, cut: Mark)
    requires forall m | m in marks :: !MarkLe(m, cut)
    ensures Tally(marks, cut) == 0
  {
    if marks != [] {
      TallyNothing(marks[1..], cut);
    }
  }

  /** Marks beyond a cut may only add starts to it, or only finishes. */
  lemma {:induction false} TallySigned(marks: seq<Mark>, cut: Mark)
    ensures (forall m | m in marks && MarkLe(m, cut) :: m.change >= 0) ==> Tally(marks, cut) >= 0
    ensures (forall m | m in marks && MarkLe(m, cut) :: m.change <= 0) ==> Tally(marks, cut) <= 0
    ensures (forall m | m in marks && !MarkLe(m, cut) :: m.change >= 0) ==> Tally(marks, cut) <= Level(marks)
  {
    if marks != [] {
      TallySigned(marks[1..], cut);
      assert marks[0] in marks;
    }
  }

  function SortedMarks(samples: seq<Sample>): seq<Mark> {
    Sort(Starts(samples) + Finishes(samples), MarkLe)
  }

  lemma {:induction false} UnitMarks(samples: seq<Sample>)
    ensures forall m | m in Starts(samples) :: m.change == 1
    ensures forall m | m in Finishes(samples) :: m.change == -1
  {
    if samples != [] {
      UnitMarks(samples[1..]);
    }
  }

  lemma MarksSorted(samples: seq<Sample>)
    ensures SortedBy(SortedMarks(samples), MarkLe)
    ensures forall m | m in SortedMarks(samples) :: m.change == 1 || m.change == -1
  {
    var all := Starts(samples) + Finishes(samples);
    assert TotalPreorder(MarkLe);
    SortSorted(all, MarkLe);
    SameElements(Sort(all, MarkLe), all);
    UnitMarks(samples);
  }

  lemma MarksTally(samples: seq<Sample>, cut: Mark)
    ensures Tally(SortedMarks(samples), cut) == Tally(Starts(samples), cut) + Tally(Finishes(samples), cut)
  {
    TallySort(Starts(samples) + Finishes(samples), cut);
    TallyConcat(Starts(samples), Finishes(samples), cut);
  }

  /** Cutting a sorted sweep at index `i` and at the mark `cut` compares when only starts are cut off the front. */
  lemma LevelOfCut(marks: seq<Mark>, i: nat, cut: Mark)
    requires i <= |marks|
    requires forall j | 0 <= j < i :: MarkLe(marks[j], cut) || marks[j].change >= 0
    requires forall j | i <= j < |marks| :: !MarkLe(marks[j], cut) || marks[j].change <= 0
    ensures Tally(marks, cut) <= Level(marks[..i])
  {
    hide MarkLe, Tally, Level;
    assert marks == marks[..i] + marks[i..];
    TallyConcat(marks[..i], marks[i..], cut);
    TallySigned(marks[..i], cut);
    TallySigned(marks[i..], cut);
  }

  lemma LevelNonNegativeInside(samples: seq<Sample>, i: nat)
    requires Proper(samples) && i < |SortedMarks(samples)|
    ensures Level(SortedMarks(samples)[..i]) >= 0
  {
    hide SortedMarks, Level, Tally, Proper;
    var marks := SortedMarks(samples);
    var cut := Mark(marks[i].time, -1);
    MarksSorted(samples);
    forall j | 0 <= j < i ensures MarkLe(marks[j], cut) || marks[j].change >= 0 {
      assert MarkLe(marks[j], marks[i]) && marks[j] in marks;
    }
    forall j | i <= j < |marks| ensures !MarkLe(marks[j], cut) || marks[j].change <= 0 {
      assert i < j ==> MarkLe(marks[i], marks[j]);
      assert marks[j] in marks;
    }
    LevelOfCut(marks, i, cut);
    MarksTally(samples, cut);
    TallyBeforeStarts(samples, cut.time);
  }

  lemma LevelNonNegativeAtEnd(samples: seq<Sample>)
    requires Proper(samples)
    ensures Level(SortedMarks(samples)) >= 0
  {
    hide SortedMarks, Tally, Proper;
    var marks := SortedMarks(samples);
    var n := |marks|;
    if n > 0 {
      var cut := Mark(marks[n - 1].time + 1, -1);
      MarksSorted(samples);
      forall j | 0 <= j < n ensures MarkLe(marks[j], cut) {
        assert j < n - 1 ==> MarkLe(marks[j], marks[n - 1]);
      }
      TallyWhole(marks, cut);
      MarksTally(samples, cut);
      TallyBeforeStarts(samples, cut.time);
    }
  }

  /** The running count is never negative. */
  lemma LevelNonNegative(samples: seq<Sample>, i: nat)
    requires Proper(samples) && i <= |SortedMarks(samples)|
    ensures Level(SortedMarks(samples)[..i]) >= 0
  {
    hide *;
    if i < |SortedMarks(samples)| {
      LevelNonNegativeInside(samples, i);
    } else {
      LevelNonNegativeAtEnd(samples);
      assert SortedMarks(samples)[..i] == SortedMarks(samples);
    }
  }

  /** Just after a start at time t the count is at most the number in flight at t. */
  lemma LevelAfterStart(samples: seq<Sample>, i: nat)
    requires Proper(samples) && i < |SortedMarks(samples)| && SortedMarks(samples)[i].change == 1
    ensures Level(SortedMarks(samples)[..i + 1]) <= Active(samples, SortedMarks(samples)[i].time)
  {
    hide SortedMarks;
    var marks := SortedMarks(samples);
    MarksSorted(samples);
    var cut := marks[i];
    MarksTally(samples, cut);
    TallyIsActive(samples, cut.time);
    assert marks == marks[..i + 1] + marks[i + 1..];
    TallyConcat(marks[..i + 1], marks[i + 1..], cut);
    forall m | m in marks[..i + 1] ensures MarkLe(m, cut) {
      var j :| 0 <= j < i + 1 && marks[j] == m;
      if j < i {
        assert MarkLe(marks[j], marks[i]);
      }
    }
    TallyWhole(marks[..i + 1], cut);
    forall m | m in marks[i + 1..] ensures m.change >= 0 || !MarkLe(m, cut) {
      var j :| i + 1 <= j < |marks| && marks[j] == m;
      assert MarkLe(marks[i], marks[j]);
    }
    TallySigned(marks[i + 1..], cut);
  }

  /** A sorted sweep has an index before which lie exactly the marks up to `cut`. */
  lemma CutIndex(marks: seq<Mark>, cut: Mark) returns (i: nat)
    requires SortedBy(marks, MarkLe)
    ensures i <= |marks|
    ensures forall j | 0 <= j < i :: MarkLe(marks[j], cut)
    ensures forall j | i <= j < |marks| :: !MarkLe(marks[j], cut)
  {
    i := 0;
    while i < |marks| && MarkLe(marks[i], cut)
      invariant i <= |marks| && forall j | 0 <= j < i :: MarkLe(marks[j], cut)
    {
      i := i + 1;
    }
    forall j | i <= j < |marks| ensures !MarkLe(marks[j], cut) {
      assert i < j ==> MarkLe(marks[i], marks[j]);
    }
  }

  lemma LevelAtCut(marks: seq<Mark>, i: nat, cut: Mark)
    requires i <= |marks|
    requires forall j | 0 <= j < i :: MarkLe(marks[j], cut)
    requires forall j | i <= j < |marks| :: !MarkLe(marks[j], cut)
    ensures Level(marks[..i]) == Tally(marks, cut)
  {
    hide MarkLe, Level, Tally;
    assert marks == marks[..i] + marks[i..];
    TallyConcat(marks[..i], marks[i..], cut);
    TallyWhole(marks[..i], cut);
    TallyNothing(marks[i..], cut);
  }

  /** At every time the number in flight is the running count at some point of the sweep. */
  lemma LevelReaches(samples: seq<Sample>, t: int) returns (i: nat)
    requires Proper(samples)
    ensures i <= |SortedMarks(samples)| && Level(SortedMarks(samples)[..i]) == Active(samples, t)
  {
    hide *;
    var cut := Mark(t, 1);
    MarksSorted(samples);
    i := CutIndex(SortedMarks(samples), cut);
    LevelAtCut(SortedMarks(samples), i, cut);
    MarksTally(samples, cut);
    TallyIsActive(samples, t);
  }

  lemma LevelStep(marks: seq<Mark>, i: nat)
    requires i < |marks|
    ensures Level(marks[..i + 1]) == Level(marks[..i]) + marks[i].change
  {
    assert marks[..i + 1] == marks[..i] + [marks[i]];
    LevelConcat(marks[..i], [marks[i]]);
  }

  /** `_interval_peak_concurrency`: the largest number of samples in flight at any one time. */
  method PeakConcurrency(samples: seq<Sample>) returns (peak: int)
    requires Proper(samples)
    ensures forall t :: Active(samples, t) <= peak
    ensures exists t :: Active(samples, t) == peak
  {
    var marks := SortedMarks(samples);
    MarksSorted(samples);
    hide SortedMarks, Active, Proper;
    var current := 0;
    peak := 0;
    assert Active(samples, 0) >= peak;
    for i := 0 to |marks|
      invariant current == Level(marks[..i]) && 0 <= current <= peak
      invariant forall j | 0 <= j <= i :: Level(marks[..j]) <= peak
      invariant exists t :: Active(samples, t) >= peak
    {
      LevelStep(marks, i);
      LevelNonNegative(samples, i + 1);
      current := current + marks[i].change;
      if current > peak {
        LevelAfterStart(samples, i);
        assert Active(samples, marks[i].time) >= current;
        peak := current;
      }
    }
    forall t ensures Active(samples, t) <= peak {
      var i := LevelReaches(samples, t);
      assert Level(marks[..i]) <= peak;
    }
  }
}
