/**
 * The timeline under the status line (src/components/TimeMachine.js:118-132):
 * `dirs.slice(0, -1).map(...)` draws one clickable segment per catalog entry
 * except the last, with flex weight `min(next.time - this.time, 1800)`, marked
 * `data-active` when its id is the override.
 */
module Timeline {
  import opened Wrappers
  import opened Catalog

  /** Cap on a segment's flex weight, in seconds: a longer gap is drawn as 30 minutes. */
  const MaxWeight: int := 1800

  /** One `<a>` of the timeline: the id it selects, its flex weight, and whether it is `data-active`. */
  datatype Segment = Segment(id: string, weight: int, active: bool)

  /** `Math.min` and `Math.max`, used for the segment weights here and for the step clamp in the widget. */
  function Min(a: int, b: int): int {
    if a < b then a else b
  }

  function Max(a: int, b: int): int {
    if a < b then b else a
  }

  /** Number of segments: `slice(0, -1)` drops the last entry, and gives nothing for an empty catalog. */
  function SegmentCount(c: seq<Snapshot>): nat {
    if |c| == 0 then 0 else |c| - 1
  }

  function Segments(c: seq<Snapshot>, override: Option<string>): (r: seq<Segment>)
    ensures |r| == SegmentCount(c)
  {
    seq(SegmentCount(c), i requires 0 <= i < SegmentCount(c) =>
      Segment(c[i].id, Min(c[i + 1].time - c[i].time, MaxWeight), override == Some(c[i].id)))
  }

  /** Segment `i` selects entry `i`, weighs the gap to entry `i + 1` capped at 1800, and is active iff entry `i` is the override. */
  lemma SegmentAt(c: seq<Snapshot>, override: Option<string>, i: int)
    requires 0 <= i < |c| - 1
    ensures var s := Segments(c, override)[i];
      && s.id == c[i].id
      && (c[i + 1].time - c[i].time <= MaxWeight ==> s.weight == c[i + 1].time - c[i].time)
      && (c[i + 1].time - c[i].time > MaxWeight ==> s.weight == MaxWeight)
      && (s.active <==> Matches(c[i], override))
  {
  }

  /** On a time-ordered catalog every weight is positive and at most 1800. */
  lemma WeightsBounded(c: seq<Snapshot>, override: Option<string>)
    requires AscendingTimes(c)
    ensures var r := Segments(c, override);
      forall i :: 0 <= i < |r| ==> 0 < r[i].weight <= MaxWeight
  {
  }

  /** With unique ids at most one segment is active. */
  lemma AtMostOneActive(c: seq<Snapshot>, override: Option<string>)
    requires DistinctIds(c)
    ensures var r := Segments(c, override);
      forall i, j :: 0 <= i < |r| && 0 <= j < |r| && r[i].active && r[j].active ==> i == j
  {
  }

  /** Browsing entry `k`: exactly the segment `k` is active when `k` is not the last entry, and none when it is. */
  lemma ActiveSegmentOfSelection(c: seq<Snapshot>, k: int)
    requires DistinctIds(c) && 0 <= k < |c|
    ensures var r := Segments(c, Some(c[k].id));
      forall i :: 0 <= i < |r| ==> (r[i].active <==> i == k)
  {
  }

  /** An override that is no catalog id activates no segment. */
  lemma NoActiveForUnknown(c: seq<Snapshot>, override: Option<string>)
    requires FindIndex(c, override) == -1
    ensures var r := Segments(c, override);
      forall i :: 0 <= i < |r| ==> !r[i].active
  {
  }

  /** Three snapshots at times 0, 10 and 2000: weights 10 and 1800 (the cap applies). */
  lemma CapExample()
    ensures var r := Segments([Snapshot("A", 0, 0), Snapshot("B", 10, 0), Snapshot("C", 2000, 0)], None);
      |r| == 2 && r[0].weight == 10 && r[1].weight == 1800
  {
  }

  /** The catalog draws 131 segments, each of weight in (0, 1800]. */
  lemma DirsTimeline(override: Option<string>)
    ensures |Segments(Dirs, override)| == Size - 1
    ensures var r := Segments(Dirs, override);
      forall i :: 0 <= i < |r| ==> 0 < r[i].weight <= MaxWeight
  {
    DirsWellFormed();
    WeightsBounded(Dirs, override);
  }
}
