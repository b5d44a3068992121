/** The learning path: track selection, progress analytics over the score table, the
    track's cases split into foundations and core rotations, and the lock rule. */
module LearningPath {
  import opened Types
  import opened ScoreTable

  datatype Track = Track(
    id: string, name: string, owner: string, description: string, level: int, requiredCount: int)

  const Tracks := [
    Track("t1", "Medical Student – Level 1", "University Hospital – Med School 2025",
          "Focuses on basic history taking, red flags, and communication for early medical students.", 1, 5),
    Track("t2", "EM Internship Prep", "General Hospital",
          "High-acuity cases focusing on triage, rapid assessment, and stabilization.", 2, 8)]

  const FirstTrackId := "t1"

  /** The selected track, falling back to the first one for an unknown id. */
  function CurrentTrack(selectedId: string): (r: Track)
    ensures r in Tracks
    ensures r.id == selectedId || r == Tracks[0]
  {
    var t := Find(Tracks, (t: Track) => t.id == selectedId);
    if t.Some? then t.value else Tracks[0]
  }

  /** An id that names no track falls back to the first track (five required cases);
      "t2" needs eight. */
  lemma CurrentTrackChoice(selectedId: string)
    ensures selectedId != Tracks[0].id && selectedId != Tracks[1].id ==>
      CurrentTrack(selectedId) == Tracks[0] && CurrentTrack(selectedId).requiredCount == 5
    ensures selectedId == Tracks[1].id ==> CurrentTrack(selectedId).requiredCount == 8
  {
  }

  // ---- Analytics ----

  /** `Math.round(a / b)` for a positive `b`: the nearest integer, halves rounded up. */
  function RoundDiv(a: int, b: int): (r: int)
    requires b > 0
    ensures 2 * b * r <= 2 * a + b < 2 * b * r + 2 * b
    ensures a >= 0 ==> r >= 0
  {
    var q := (2 * a + b) / (2 * b);
    assert (2 * a + b) == (2 * b) * q + (2 * a + b) % (2 * b);
    q
  }

  /** The rounded mean of the stored scores, 0 with none. */
  function AverageScore(t: Table): (r: int)
    ensures |t| == 0 ==> r == 0
    ensures |t| > 0 ==> 2 * |t| * r <= 2 * Sum(Values(t)) + |t| < 2 * |t| * r + 2 * |t|
  {
    if |Values(t)| > 0 then RoundDiv(Sum(Values(t)), |Values(t)|) else 0
  }

  /** Scores between `lo` and `hi` sum to between `lo` and `hi` times their number. */
  lemma {:induction false} SumBounds(xs: seq<int>, lo: int, hi: int)
    requires forall i :: 0 <= i < |xs| ==> lo <= xs[i] <= hi
    ensures lo * |xs| <= Sum(xs) <= hi * |xs|
    decreases |xs|
  {
    if xs != [] {
      SumBounds(xs[1..], lo, hi);
    }
  }

  /** Cancelling a positive factor from a strict inequality. */
  lemma CancelLt(m: int, a: int, b: int)
    requires m > 0 && m * a < m * b
    ensures a < b
  {
  }

  /** Scores on the 0..100 scale average to a value on that scale. */
  lemma AverageInRange(t: Table)
    requires forall i :: 0 <= i < |t| ==> 0 <= t[i].score <= 100
    ensures 0 <= AverageScore(t) <= 100
  {
    var n := |t|;
    if n > 0 {
      SumBounds(Values(t), 0, 100);
      var r := AverageScore(t);
      CancelLt(2 * n, r, 101);
      CancelLt(2 * n, -1, r);
    }
  }

  function Min(a: int, b: int): int {
    if a < b then a else b
  }

  // The performance metrics: scaled averages and the share of the track completed.

  /** The accuracy shown never exceeds 100, nor, for a non-negative average, the average. */
  function AccuracyMetric(avg: int): (r: int)
    ensures r <= 100
    ensures avg >= 0 ==> 0 <= r <= avg
  {
    Min(100, RoundDiv(95 * avg, 100))
  }

  /** The efficiency shown never exceeds 100, and is at least the average up to that cap. */
  function EfficiencyMetric(avg: int): (r: int)
    ensures r <= 100
    ensures avg >= 0 ==> Min(100, avg) <= r
  {
    Min(100, RoundDiv(105 * avg, 100))
  }

  /** The coverage shown lies within 0..100 (full once the count is met: `CoverageFull`). */
  function CoverageMetric(completed: int, required: int): (r: int)
    requires required > 0
    ensures r <= 100
    ensures completed >= 0 ==> r >= 0
  {
    Min(100, RoundDiv(100 * completed, required))
  }

  /** The progress figure shown: `Math.min(completed, requiredCount)`. */
  function ProgressCount(completed: int, required: int): int {
    Min(completed, required)
  }

  /** No metric exceeds 100, and none is negative for a non-negative average. */
  lemma MetricsCapped(avg: int, completed: nat, required: int)
    requires required > 0
    ensures AccuracyMetric(avg) <= 100 && EfficiencyMetric(avg) <= 100
    ensures CoverageMetric(completed, required) <= 100
    ensures avg >= 0 ==> AccuracyMetric(avg) >= 0 && EfficiencyMetric(avg) >= 0
    ensures CoverageMetric(completed, required) >= 0
  {
  }

  /** Coverage is full once the track's count is reached. */
  lemma CoverageFull(completed: nat, required: int)
    requires required > 0 && completed >= required
    ensures CoverageMetric(completed, required) == 100
  {
    var r := RoundDiv(100 * completed, required);
    assert 100 * completed >= 100 * required;
    CancelLt(2 * required, 99, r);
  }

  /** The progress figure never passes the required count nor the completed count, and
      equals the completed count until the track is done. */
  lemma ProgressBounds(completed: nat, required: int)
    ensures ProgressCount(completed, required) <= required
    ensures ProgressCount(completed, required) <= completed
    ensures completed <= required ==> ProgressCount(completed, required) == completed
  {
  }

  // ---- Track contents ----

  /** Track t1: Novice cases and Intermediate Cardiology ones; any other: all but Novice. */
  predicate InTrack(c: ClinicalCase, selectedId: string) {
    if selectedId == FirstTrackId then
      c.difficulty == Novice || (c.difficulty == Intermediate && c.category == Cardiology)
    else c.difficulty != Novice
  }

  function TrackCases(cases: seq<ClinicalCase>, selectedId: string): (r: seq<ClinicalCase>)
    ensures IsSubsequence(r, cases)
    ensures forall i :: 0 <= i < |r| ==> InTrack(r[i], selectedId)
    ensures forall i :: 0 <= i < |cases| && InTrack(cases[i], selectedId) ==> cases[i] in r
  {
    FilterIsSubsequence(cases, (c: ClinicalCase) => InTrack(c, selectedId));
    Filter(cases, (c: ClinicalCase) => InTrack(c, selectedId))
  }

  const IsFoundation: ClinicalCase -> bool := (c: ClinicalCase) => c.difficulty == Novice
  const IsCore: ClinicalCase -> bool := (c: ClinicalCase) => c.difficulty != Novice

  function Foundations(trackCases: seq<ClinicalCase>): seq<ClinicalCase> {
    Filter(trackCases, IsFoundation)
  }

  function CoreRotations(trackCases: seq<ClinicalCase>): seq<ClinicalCase> {
    Filter(trackCases, IsCore)
  }

  /** Foundations and core rotations split the track's cases by whether they are Novice:
      every case lands in exactly one column. */
  lemma ColumnsPartition(trackCases: seq<ClinicalCase>)
    ensures |Foundations(trackCases)| + |CoreRotations(trackCases)| == |trackCases|
    ensures forall c :: c in Foundations(trackCases) ==> c.difficulty == Novice
    ensures forall c :: c in CoreRotations(trackCases) ==> c.difficulty != Novice
    ensures forall c :: c in trackCases ==> c in Foundations(trackCases) || c in CoreRotations(trackCases)
  {
    FilterComplement(trackCases, IsFoundation, IsCore);
  }

  // ---- Completion and locks ----

  /** A card is completed when a score is stored for it, whatever its value. */
  predicate IsCompleted(c: ClinicalCase, t: Table) {
    Get(t, c.id) != None
  }

  /** The path's completion mark and the truthy check used for the lock and the case
      page disagree exactly on a stored score of 0: such a case shows as completed on the
      path but is not completed anywhere that tests the score's truthiness. */
  lemma CompletedButNotTruthy(c: ClinicalCase, t: Table)
    ensures TruthyScore(t, c.id) ==> IsCompleted(c, t)
    ensures IsCompleted(c, t) && !TruthyScore(t, c.id) <==> Get(t, c.id) == Some(0)
  {
  }

  /** The lock as written: foundations counted by a truthy stored score. */
  function FoundationsDoneAsWritten(foundations: seq<ClinicalCase>, t: Table): nat {
    |Filter(foundations, (f: ClinicalCase) => TruthyScore(t, f.id))|
  }

  predicate CoreLockedAsWritten(foundations: seq<ClinicalCase>, t: Table) {
    FoundationsDoneAsWritten(foundations, t) < 2
  }

  /** A foundation finished with a score of 0 shows as completed but does not count
      toward unlocking: two completed foundations, one scored 0, leave the core locked. */
  lemma ZeroScoreKeepsCoreLocked(a: ClinicalCase, b: ClinicalCase, scoreB: int)
    requires a.id != b.id
    ensures var t := [Entry(a.id, 0), Entry(b.id, scoreB)];
      && IsCompleted(a, t) && IsCompleted(b, t)
      && CoreLockedAsWritten([a, b], t)
  {
    var t := [Entry(a.id, 0), Entry(b.id, scoreB)];
    assert Get(t, a.id) == Some(0);
    assert !TruthyScore(t, a.id);
    var p := (f: ClinicalCase) => TruthyScore(t, f.id);
    assert Filter([a, b], p) == Filter([b], p) by {
      assert [a, b][1..] == [b];
    }
  }

  /** Finishing a foundation again with a score of 0 relocks the core rotations. */
  lemma ZeroRetakeRelocks(a: ClinicalCase, b: ClinicalCase, scoreA: int, scoreB: int)
    requires a.id != b.id && scoreA != 0 && scoreB != 0
    ensures var t := [Entry(a.id, scoreA), Entry(b.id, scoreB)];
      && !CoreLockedAsWritten([a, b], t)
      && CoreLockedAsWritten([a, b], Put(t, a.id, 0))
  {
    var t := [Entry(a.id, scoreA), Entry(b.id, scoreB)];
    var p := (f: ClinicalCase) => TruthyScore(t, f.id);
    assert Get(t, a.id) == Some(scoreA);
    assert Get(t, b.id) == Some(scoreB);
    assert [a, b][1..] == [b];
    assert Filter([a, b], p) == [a, b];
    var t2 := Put(t, a.id, 0);
    assert t2 == [Entry(a.id, 0), Entry(b.id, scoreB)];
    ZeroScoreKeepsCoreLocked(a, b, scoreB);
  }

  /** The intended count: foundations with any stored score, as the completion marks show. */
  function FoundationsDone(foundations: seq<ClinicalCase>, t: Table): nat {
    |Filter(foundations, (f: ClinicalCase) => IsCompleted(f, t))|
  }

  /** The lock flag as written: a core card is locked while fewer than two foundations have
      a truthy stored score; foundation cards are never locked. */
  predicate CardLockedAsWritten(c: ClinicalCase, foundations: seq<ClinicalCase>, t: Table): (r: bool)
    ensures c.difficulty == Novice ==> !r
    ensures FoundationsDoneAsWritten(foundations, t) >= 2 ==> !r
  {
    c.difficulty != Novice && CoreLockedAsWritten(foundations, t)
  }

  /** The intended lock: a core card is locked while fewer than two foundations are
      completed; foundation cards are never locked. */
  predicate CardLocked(c: ClinicalCase, foundations: seq<ClinicalCase>, t: Table): (r: bool)
    ensures c.difficulty == Novice ==> !r
    ensures FoundationsDone(foundations, t) >= 2 ==> !r
  {
    c.difficulty != Novice && FoundationsDone(foundations, t) < 2
  }

  /** Recording a score never relocks a card, whatever the score. */
  lemma RecordingNeverRelocks(c: ClinicalCase, foundations: seq<ClinicalCase>, t: Table, id: string, score: int)
    ensures FoundationsDone(foundations, t) <= FoundationsDone(foundations, Put(t, id, score))
    ensures CardLocked(c, foundations, Put(t, id, score)) ==> CardLocked(c, foundations, t)
  {
    var t2 := Put(t, id, score);
    forall i | 0 <= i < |foundations| && IsCompleted(foundations[i], t)
      ensures IsCompleted(foundations[i], t2)
    {
      PutGet(t, id, score, foundations[i].id);
    }
    FilterCountMono(foundations, (f: ClinicalCase) => IsCompleted(f, t), (f: ClinicalCase) => IsCompleted(f, t2));
  }

  /** Once two foundations are completed, every card is open. */
  lemma TwoFoundationsUnlock(c: ClinicalCase, foundations: seq<ClinicalCase>, t: Table, i: int, j: int)
    requires 0 <= i < j < |foundations|
    requires IsCompleted(foundations[i], t) && IsCompleted(foundations[j], t)
    ensures !CardLocked(c, foundations, t)
  {
    var p := (f: ClinicalCase) => IsCompleted(f, t);
    FilterKeepsPair(foundations, p, i, j);
  }

  /** A filter keeps at least the two elements it accepts. */
  lemma {:induction false} FilterKeepsPair(xs: seq<ClinicalCase>, p: ClinicalCase -> bool, i: int, j: int)
    requires 0 <= i < j < |xs| && p(xs[i]) && p(xs[j])
    ensures |Filter(xs, p)| >= 2
    decreases |xs|
  {
    if i == 0 {
      assert xs[1..][j - 1] == xs[j];
    } else {
      assert xs[1..][i - 1] == xs[i] && xs[1..][j - 1] == xs[j];
      FilterKeepsPair(xs[1..], p, i - 1, j - 1);
    }
  }

  /** The code locks at least whatever the intended rule locks, and the two agree on every
      table that stores no score of 0 for a foundation. */
  lemma AsWrittenLocksMore(c: ClinicalCase, foundations: seq<ClinicalCase>, t: Table)
    ensures CardLocked(c, foundations, t) ==> CardLockedAsWritten(c, foundations, t)
    ensures (forall i :: 0 <= i < |foundations| ==> Get(t, foundations[i].id) != Some(0))
            ==> (CardLocked(c, foundations, t) <==> CardLockedAsWritten(c, foundations, t))
  {
    var truthy := (f: ClinicalCase) => TruthyScore(t, f.id);
    var done := (f: ClinicalCase) => IsCompleted(f, t);
    FilterCountMono(foundations, truthy, done);
    if forall i :: 0 <= i < |foundations| ==> Get(t, foundations[i].id) != Some(0) {
      FilterCountMono(foundations, done, truthy);
    }
  }

  /** Clicking a card opens its case unless the card is locked. */
  function CardClick(c: ClinicalCase, locked: bool): (r: Option<ClinicalCase>)
    ensures r.Some? <==> !locked
    ensures r.Some? ==> r.value == c
  {
    if locked then None else Some(c)
  }
}
