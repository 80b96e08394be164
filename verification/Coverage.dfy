/** Day slices and the interval sweep that decides completeness (`sync_service.py`, `database.py`). */
module Coverage {
  import opened Prelude

  const DAY: nat := 86_400
  const MAX_SYNC_DAYS: nat := 366

  type Interval = (int, int)

  // ---------------------------------------------------------------- the sweep

  predicate Contains(iv: Interval, t: int) { iv.0 <= t < iv.1 }

  ghost predicate CoversPoint(ivs: seq<Interval>, t: int) {
    exists i :: 0 <= i < |ivs| && Contains(ivs[i], t)
  }

  /** Every second of the range lies in some interval. */
  ghost predicate Covers(ivs: seq<Interval>, start: int, end: int) {
    forall t :: start <= t < end ==> CoversPoint(ivs, t)
  }

  /** Python's order on pairs. */
  predicate PairLeq(a: Interval, b: Interval) { a.0 < b.0 || (a.0 == b.0 && a.1 <= b.1) }

  function InsertInterval(iv: Interval, sorted: seq<Interval>): (r: seq<Interval>)
    ensures forall x :: x in r <==> x == iv || x in sorted
  {
    if sorted == [] || PairLeq(iv, sorted[0]) then [iv] + sorted
    else [sorted[0]] + InsertInterval(iv, sorted[1..])
  }

  /** `sorted(intervals)`. */
  function SortIntervals(ivs: seq<Interval>): (r: seq<Interval>)
    ensures forall x :: x in r <==> x in ivs
  {
    if ivs == [] then [] else
      assert ivs == [ivs[0]] + ivs[1..];
      InsertInterval(ivs[0], SortIntervals(ivs[1..]))
  }

  ghost predicate Ascending(ivs: seq<Interval>) {
    forall i, j :: 0 <= i < j < |ivs| ==> PairLeq(ivs[i], ivs[j])
  }

  lemma {:induction false} InsertAscending(iv: Interval, ivs: seq<Interval>)
    requires Ascending(ivs)
    ensures Ascending(InsertInterval(iv, ivs))
  {
    if ivs != [] && !PairLeq(iv, ivs[0]) {
      InsertAscending(iv, ivs[1..]);
      var rest := InsertInterval(iv, ivs[1..]);
      forall k | 0 <= k < |rest| ensures PairLeq(ivs[0], rest[k]) {
        assert rest[k] in rest;
        if rest[k] != iv { var i :| 0 <= i < |ivs| - 1 && ivs[1..][i] == rest[k]; }
      }
    }
  }

  lemma {:induction false} SortAscending(ivs: seq<Interval>)
    ensures Ascending(SortIntervals(ivs))
  {
    if ivs != [] {
      SortAscending(ivs[1..]);
      InsertAscending(ivs[0], SortIntervals(ivs[1..]));
    }
  }

  lemma SameElementsCoverSame(a: seq<Interval>, b: seq<Interval>, t: int)
    requires forall x :: x in a ==> x in b
    requires CoversPoint(a, t)
    ensures CoversPoint(b, t)
  {
    var i :| 0 <= i < |a| && Contains(a[i], t);
    assert a[i] in b;
  }

  /** `_interval_is_covered`: exact for every range and every list of intervals in any order;
      an empty range counts as its first second. */
  method IntervalIsCovered(start: int, end: int, intervals: seq<Interval>) returns (covered: bool)
    ensures covered <==> Covers(intervals, start, if start < end then end else start + 1)
  {
    var sorted := SortIntervals(intervals);
    SortAscending(intervals);
    var cursor := start;
    var i := 0;
    while i < |sorted|
      invariant 0 <= i <= |sorted| && start <= cursor && (cursor > start ==> cursor < end)
      invariant forall t :: start <= t < cursor ==> CoversPoint(intervals, t)
      invariant forall k :: 0 <= k < i ==> sorted[k].1 <= cursor
    {
      var (from, to) := sorted[i];
      if to > cursor {
        if from > cursor {
          GapIsFound(intervals, sorted, i, cursor);
          return false;
        }
        forall t | cursor <= t < to ensures CoversPoint(intervals, t) {
          assert Contains(sorted[i], t);
          SameElementsCoverSame(sorted, intervals, t);
        }
        cursor := to;
        if cursor >= end { return true; }
      }
      i := i + 1;
    }
    if CoversPoint(intervals, cursor) {
      SameElementsCoverSame(intervals, sorted, cursor);
    }
    covered := false;
  }

  /** If everything before `i` ends by the cursor and the next interval starts after it, the cursor is in a gap. */
  lemma GapIsFound(intervals: seq<Interval>, sorted: seq<Interval>, i: nat, cursor: int)
    requires sorted == SortIntervals(intervals) && i < |sorted| && sorted[i].0 > cursor
    requires forall k :: 0 <= k < i ==> sorted[k].1 <= cursor
    ensures !CoversPoint(intervals, cursor)
  {
    SortAscending(intervals);
    forall k | 0 <= k < |sorted| ensures !Contains(sorted[k], cursor) {
      if k > i { assert PairLeq(sorted[i], sorted[k]); }
    }
    if CoversPoint(intervals, cursor) { SameElementsCoverSame(intervals, sorted, cursor); }
  }

  /** Dropping intervals that do not meet the range, as the day query does, never changes the answer. */
  lemma IrrelevantIntervals(all: seq<Interval>, kept: seq<Interval>, start: int, end: int)
    requires forall x :: x in kept ==> x in all
    requires forall x :: x in all && x.1 > start && x.0 < end ==> x in kept
    ensures Covers(all, start, end) <==> Covers(kept, start, end)
  {
    if Covers(all, start, end) {
      forall t | start <= t < end ensures CoversPoint(kept, t) {
        assert CoversPoint(all, t);
        var i :| 0 <= i < |all| && Contains(all[i], t);
        assert all[i] in all && all[i] in kept;
        var k :| 0 <= k < |kept| && kept[k] == all[i];
      }
    }
    if Covers(kept, start, end) {
      forall t | start <= t < end ensures CoversPoint(all, t) {
        SameElementsCoverSame(kept, all, t);
      }
    }
  }

  // ---------------------------------------------------------------- day slices

  /** `_validate_sync_range`. */
  predicate ValidSyncRange(start: int, end: int) {
    0 <= start < end && end - start <= MAX_SYNC_DAYS * DAY
  }

  predicate Midnight(t: int) { t % DAY == 0 }

  /** The slices tile the range in order and are cut exactly at the midnights inside it. */
  ghost predicate DaySlices(slices: seq<Interval>, start: int, end: int) {
    && slices != [] && slices[0].0 == start && slices[|slices| - 1].1 == end
    && (forall i :: 0 <= i < |slices| ==> slices[i].0 < slices[i].1)
    && (forall i :: 0 < i < |slices| ==> slices[i].0 == slices[i - 1].1 && Midnight(slices[i].0))
    && (forall i, t :: 0 <= i < |slices| && Midnight(t) ==> !(slices[i].0 < t < slices[i].1))
  }

  lemma NextMidnight(cursor: nat, t: int)
    requires cursor < t < cursor - cursor % DAY + DAY
    ensures !Midnight(t)
  {
    var q := cursor / DAY;
    assert q * DAY < t < (q + 1) * DAY;
    assert t == (t / DAY) * DAY + t % DAY;
  }

  /** One round of the slicing loop: cut at the next midnight or at the end of the range. */
  function SliceStop(cursor: nat, end: int): int {
    var midnight := cursor - cursor % DAY + DAY;
    if midnight < end then midnight else end
  }

  lemma SliceStopIsNextCut(cursor: nat, end: int)
    requires cursor < end
    ensures cursor < SliceStop(cursor, end) <= end
    ensures SliceStop(cursor, end) < end ==> Midnight(SliceStop(cursor, end))
    ensures forall t :: cursor < t < SliceStop(cursor, end) ==> !Midnight(t)
  {
    var midnight := cursor - cursor % DAY + DAY;
    assert midnight == (cursor / DAY + 1) * DAY;
    forall t | cursor < t < midnight ensures !Midnight(t) { NextMidnight(cursor, t); }
  }

  lemma SliceAppended(out: seq<Interval>, start: int, cursor: int, stop: int)
    requires out == [] ==> start == cursor
    requires out != [] ==> DaySlices(out, start, cursor) && Midnight(cursor)
    requires cursor < stop && forall t :: cursor < t < stop ==> !Midnight(t)
    ensures DaySlices(out + [(cursor, stop)], start, stop)
  {
  }

  /** `utc_day_slices`; None stands for the range error. */
  method UtcDaySlices(start: int, end: int) returns (slices: Option<seq<Interval>>)
    ensures slices.Some? <==> ValidSyncRange(start, end)
    ensures slices.Some? ==> DaySlices(slices.value, start, end)
  {
    if !ValidSyncRange(start, end) { return None; }
    var out: seq<Interval> := [];
    var cursor := start;
    while cursor < end
      invariant start <= cursor <= end
      invariant out == [] ==> cursor == start
      invariant out != [] ==> DaySlices(out, start, cursor) && (cursor < end ==> Midnight(cursor))
      decreases end - cursor
    {
      var midnight := cursor - cursor % DAY + DAY;
      var stop := if midnight < end then midnight else end;
      SliceStopIsNextCut(cursor, end);
      SliceAppended(out, start, cursor, stop);
      out := out + [(cursor, stop)];
      cursor := stop;
    }
    slices := Some(out);
  }

  lemma {:induction false} SlicesAscend(slices: seq<Interval>, start: int, end: int, i: nat, j: nat)
    requires DaySlices(slices, start, end) && i < j < |slices|
    ensures slices[i].1 <= slices[j].0
    decreases j
  {
    if i + 1 < j { SlicesAscend(slices, start, end, i, j - 1); }
  }

  /** The cuts determine the slices: there is exactly one such tiling. */
  lemma {:induction false} DaySlicesUnique(a: seq<Interval>, b: seq<Interval>, start: int, end: int, n: nat)
    requires DaySlices(a, start, end) && DaySlices(b, start, end)
    requires n <= |a| && n <= |b|
    ensures a[..n] == b[..n]
    ensures n == |a| <==> n == |b|
    decreases n
  {
    if n > 0 {
      DaySlicesUnique(a, b, start, end, n - 1);
      var i := n - 1;
      assert a[i].0 == b[i].0 by { if i > 0 { assert a[i - 1] == a[..i][i - 1] == b[..i][i - 1] == b[i - 1]; } }
      SliceEnd(a, start, end, i);
      SliceEnd(b, start, end, i);
      assert a[i].1 == b[i].1;
      assert a[..n] == a[..i] + [a[i]] && b[..n] == b[..i] + [b[i]];
    }
  }

  lemma SliceEnd(a: seq<Interval>, start: int, end: int, i: nat)
    requires DaySlices(a, start, end) && i < |a|
    ensures a[i].1 == end <==> i == |a| - 1
    ensures a[i].1 <= end && (a[i].1 != end ==> Midnight(a[i].1))
  {
    if i < |a| - 1 {
      assert a[i + 1].0 == a[i].1;
      if i + 1 < |a| - 1 { SlicesAscend(a, start, end, i + 1, |a| - 1); }
    }
  }

  /** The slices of a range always cover it, so the completeness check accepts them. */
  lemma {:induction false} DaySlicesCoverUpTo(slices: seq<Interval>, start: int, end: int, t: int, n: nat)
    requires DaySlices(slices, start, end) && n < |slices| && start <= t < slices[n].1
    ensures CoversPoint(slices, t)
    decreases n
  {
    if t >= slices[n].0 {
      assert Contains(slices[n], t);
    } else {
      DaySlicesCoverUpTo(slices, start, end, t, n - 1);
    }
  }

  lemma DaySlicesCover(slices: seq<Interval>, start: int, end: int)
    requires DaySlices(slices, start, end)
    ensures Covers(slices, start, end)
  {
    forall t | start <= t < end ensures CoversPoint(slices, t) {
      DaySlicesCoverUpTo(slices, start, end, t, |slices| - 1);
    }
  }
}
