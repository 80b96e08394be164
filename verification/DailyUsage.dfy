/** Daily aggregation with a completeness state per day (`database.py`, `query_usage` and `daily_usage`). */
module DailyUsage {
  import opened Prelude
  import opened Coverage
  import opened UsageStore

  const MAX_QUERY_DAYS: nat := 366

  /** One row that the query returns. */
  datatype Item = Item(bucket: Bucket, counts: Counts)

  datatype Completeness = Complete | Partial | Missing

  datatype Totals = Totals(groups: map<string, int>, other: int, counts: Counts)

  datatype Day = Day(start: int, totals: Option<Totals>, completeness: Completeness)

  /** The model catalog: its groups, and the group that pays for a model on a service tier, if any. */
  datatype Catalog = Catalog(groups: set<string>, classify: (string, string) -> Option<string>)

  ghost predicate CatalogOk(c: Catalog) {
    forall m, t :: c.classify(m, t).Some? ==> c.classify(m, t).value in c.groups
  }

  // ---------------------------------------------------------------- what the totals mean

  function Tokens(i: Item): int { i.counts.input + i.counts.output }

  function GroupOf(c: Catalog, i: Item): Option<string> { c.classify(i.bucket.model, i.bucket.tier) }

  function DayOf(i: Item): int { i.bucket.start - i.bucket.start % DAY }

  function SumTokens(items: seq<Item>): int {
    if items == [] then 0 else SumTokens(items[..|items| - 1]) + Tokens(items[|items| - 1])
  }

  /** Tokens that this group pays for; None is everything else. */
  function GroupTokens(c: Catalog, items: seq<Item>, g: Option<string>): int {
    if items == [] then 0
    else GroupTokens(c, items[..|items| - 1], g) +
         if GroupOf(c, items[|items| - 1]) == g then Tokens(items[|items| - 1]) else 0
  }

  function SumCounts(items: seq<Item>): Counts {
    if items == [] then ZERO else Add(SumCounts(items[..|items| - 1]), items[|items| - 1].counts)
  }

  /** The rows whose bucket starts on this day, in query order. */
  function RowsOf(items: seq<Item>, day: int): seq<Item> {
    if items == [] then []
    else RowsOf(items[..|items| - 1], day) + if DayOf(items[|items| - 1]) == day then [items[|items| - 1]] else []
  }

  /** Group tokens and other tokens always add up to the day's total. */
  lemma {:induction false} GroupsAddUp(c: Catalog, items: seq<Item>)
    requires CatalogOk(c)
    ensures SumSet(c.groups, g => GroupTokens(c, items, Some(g))) + GroupTokens(c, items, None) == SumTokens(items)
    ensures SumTokens(items) == SumCounts(items).input + SumCounts(items).output
  {
    if items == [] {
      AllZero(c.groups, g => GroupTokens(c, items, Some(g)));
    } else {
      var init, last := items[..|items| - 1], items[|items| - 1];
      GroupsAddUp(c, init);
      var group := GroupOf(c, last);
      if group.Some? {
        SumSetUpdate(c.groups, g => GroupTokens(c, init, Some(g)), g => GroupTokens(c, items, Some(g)), group.value);
      } else {
        SumSetSame(c.groups, g => GroupTokens(c, init, Some(g)), g => GroupTokens(c, items, Some(g)));
      }
    }
  }

  lemma {:induction false} AllZero(s: set<string>, f: string -> int)
    requires forall x :: x in s ==> f(x) == 0
    ensures SumSet(s, f) == 0
  {
    if s != {} {
      var x :| x in s;
      SumSetRemove(s, f, x);
      AllZero(s - {x}, f);
    }
  }

  // ---------------------------------------------------------------- one day

  /** The loop that adds up one day's rows. */
  method AddUp(c: Catalog, rows: seq<Item>) returns (t: Totals)
    requires CatalogOk(c)
    ensures TotalsOk(c, rows, t)
  {
    var groups: map<string, int> := map g | g in c.groups :: 0;
    var other := 0;
    var counts := ZERO;
    var i := 0;
    while i < |rows|
      invariant 0 <= i <= |rows|
      invariant TotalsOk(c, rows[..i], Totals(groups, other, counts))
    {
      assert rows[..i + 1][..i] == rows[..i];
      var total := Tokens(rows[i]);
      var group := GroupOf(c, rows[i]);
      if group.Some? {
        groups := groups[group.value := groups[group.value] + total];
      } else {
        other := other + total;
      }
      counts := Add(counts, rows[i].counts);
      i := i + 1;
    }
    assert rows[..i] == rows;
    t := Totals(groups, other, counts);
  }

  ghost predicate TotalsOk(c: Catalog, rows: seq<Item>, t: Totals) {
    && t.groups.Keys == c.groups
    && (forall g :: g in c.groups ==> t.groups[g] == GroupTokens(c, rows, Some(g)))
    && t.other == GroupTokens(c, rows, None) && t.counts == SumCounts(rows)
  }

  /** `_interval_is_covered` on the completed slices, as the day query selects them. */
  ghost predicate FullyCollected(slices: map<SliceKey, SliceRow>, p: Profile, day: int) {
    forall t :: day <= t < day + DAY ==> Collected(slices, p, t)
  }

  /** This second lies in a completed slice of some run of the profile. */
  ghost predicate Collected(slices: map<SliceKey, SliceRow>, p: Profile, t: int) {
    exists k :: k in slices && k.profile == p && slices[k].status == CompletedSlice && k.start <= t < k.end
  }

  predicate Touches(k: SliceKey, p: Profile, start: int, end: int) { k.profile == p && k.end > start && k.start < end }

  /** Some slice of the profile, in any state, meets the day. */
  predicate Attempted(slices: map<SliceKey, SliceRow>, p: Profile, day: int) {
    exists k :: k in slices && Touches(k, p, day, day + DAY)
  }

  /** Everything one reported day says. */
  ghost predicate DayOk(c: Catalog, slices: map<SliceKey, SliceRow>, p: Profile, rows: seq<Item>, d: Day) {
    && (d.completeness == Complete <==> FullyCollected(slices, p, d.start))
    && (d.completeness == Missing <==>
          !FullyCollected(slices, p, d.start) && rows == [] && !Attempted(slices, p, d.start))
    && (d.totals.None? <==> rows == [] && !FullyCollected(slices, p, d.start))
    && (d.totals.Some? ==> TotalsOk(c, rows, d.totals.value))
  }

  method ReportDay(c: Catalog, slices: map<SliceKey, SliceRow>, p: Profile, selected: set<SliceKey>, rows: seq<Item>,
                   day: int, ghost start: int, ghost end: int) returns (d: Day)
    requires CatalogOk(c) && start <= day && day + DAY <= end
    requires selected == set k | k in slices && Touches(k, p, start, end)
    ensures d.start == day && DayOk(c, slices, p, rows, d)
  {
    var intervals := CompletedSelected(slices, selected);
    var complete := IntervalIsCovered(day, day + DAY, intervals);
    SelectionIsEnough(slices, p, selected, intervals, start, end, day);
    var overlaps := exists k :: k in selected && k.start < day + DAY && k.end > day;
    var completeness := if complete then Complete else if rows != [] || overlaps then Partial else Missing;
    var totals := None;
    if complete || rows != [] {
      var t := AddUp(c, rows);
      totals := Some(t);
    }
    d := Day(day, totals, completeness);
  }

  method CompletedSelected(slices: map<SliceKey, SliceRow>, selected: set<SliceKey>) returns (intervals: seq<Interval>)
    requires forall k :: k in selected ==> k in slices
    ensures forall iv ::
      iv in intervals <==> exists k :: k in selected && slices[k].status == CompletedSlice && iv == (k.start, k.end)
  {
    var rest := set k | k in selected && slices[k].status == CompletedSlice;
    ghost var all := rest;
    intervals := [];
    while rest != {}
      invariant rest <= all
      invariant forall iv :: iv in intervals <==> exists k :: k in all - rest && iv == (k.start, k.end)
      decreases |rest|
    {
      var k :| k in rest;
      ghost var before := intervals;
      intervals := intervals + [(k.start, k.end)];
      assert all - (rest - {k}) == (all - rest) + {k};
      rest := rest - {k};
    }
  }

  /** Looking only at slices that meet the queried range does not change whether a day in it is complete. */
  lemma SelectionIsEnough(slices: map<SliceKey, SliceRow>, p: Profile, selected: set<SliceKey>,
                          intervals: seq<Interval>, start: int, end: int, day: int)
    requires start <= day && day + DAY <= end
    requires selected == set k | k in slices && Touches(k, p, start, end)
    requires forall iv ::
      iv in intervals <==> exists k :: k in selected && slices[k].status == CompletedSlice && iv == (k.start, k.end)
    ensures Covers(intervals, day, day + DAY) <==> FullyCollected(slices, p, day)
  {
    forall t | day <= t < day + DAY ensures CoversPoint(intervals, t) <==> Collected(slices, p, t) {
      if CoversPoint(intervals, t) {
        var i :| 0 <= i < |intervals| && Contains(intervals[i], t);
        assert intervals[i] in intervals;
      }
      if Collected(slices, p, t) {
        var k :| k in slices && k.profile == p && slices[k].status == CompletedSlice && k.start <= t < k.end;
        assert k in selected && (k.start, k.end) in intervals;
        var i :| 0 <= i < |intervals| && intervals[i] == (k.start, k.end);
        assert Contains(intervals[i], t);
      }
    }
  }

  // ---------------------------------------------------------------- the whole query

  predicate ValidQuery(start: int, end: int, maxDays: int) {
    && 0 <= start < end && 1 <= maxDays <= MAX_QUERY_DAYS && end - start <= maxDays * DAY
    && Midnight(start) && Midnight(end)
  }

  predicate Matches(k: UsageKey, p: Profile, start: int, end: int, project: Option<string>) {
    k.profile == p && Within(k.bucket, start, end) && (project.None? || k.bucket.project == project.value)
  }

  function Codes(s: string): seq<int> { seq(|s|, i requires 0 <= i < |s| => s[i] as int) }

  predicate TextBefore(a: string, b: string) { LexLess(Codes(a), Codes(b)) }

  /** The order of the rows: by start, project, model and service tier. */
  predicate Before(a: Bucket, b: Bucket) {
    a.start < b.start || (a.start == b.start &&
    (TextBefore(a.project, b.project) || (a.project == b.project &&
    (TextBefore(a.model, b.model) || (a.model == b.model && TextBefore(a.tier, b.tier))))))
  }

  lemma BeforeIsOrder(a: Bucket, b: Bucket, c: Bucket)
    ensures !Before(a, a) && (Before(a, b) && Before(b, c) ==> Before(a, c))
  {
    TextBeforeIsOrder(a.project, b.project, c.project);
    TextBeforeIsOrder(a.model, b.model, c.model);
    TextBeforeIsOrder(a.tier, b.tier, c.tier);
  }

  lemma TextBeforeIsOrder(a: string, b: string, c: string)
    ensures !TextBefore(a, a) && (TextBefore(a, b) && TextBefore(b, c) ==> TextBefore(a, c))
  {
    LexTotal(Codes(a), Codes(a));
    if TextBefore(a, b) && TextBefore(b, c) { LexTransitive(Codes(a), Codes(b), Codes(c)); }
  }

  ghost predicate IsFirst(k: UsageKey, rest: set<UsageKey>) {
    k in rest && forall j :: j in rest ==> !Before(j.bucket, k.bucket)
  }

  lemma {:induction false} FirstExists(rest: set<UsageKey>)
    requires rest != {}
    ensures exists k :: IsFirst(k, rest)
    decreases |rest|
  {
    var x :| x in rest;
    BeforeIsOrder(x.bucket, x.bucket, x.bucket);
    if rest == {x} {
      assert IsFirst(x, rest);
    } else {
      FirstExists(rest - {x});
      var m :| IsFirst(m, rest - {x});
      forall j | j in rest ensures !Before(j.bucket, (if Before(x.bucket, m.bucket) then x else m).bucket) {
        BeforeIsOrder(j.bucket, x.bucket, m.bucket);
        assert j != x ==> j in rest - {x};
      }
      assert IsFirst(if Before(x.bucket, m.bucket) then x else m, rest);
    }
  }

  /** The query result: every matching row once, in order. */
  ghost predicate Selects(items: seq<Item>, usage: map<UsageKey, Row>, p: Profile, start: int, end: int,
                          project: Option<string>) {
    && (forall k :: k in usage && Matches(k, p, start, end, project) ==> Item(k.bucket, usage[k].counts) in items)
    && (forall i :: 0 <= i < |items| ==>
          UsageKey(p, items[i].bucket) in usage && Matches(UsageKey(p, items[i].bucket), p, start, end, project) &&
          usage[UsageKey(p, items[i].bucket)].counts == items[i].counts)
    && (forall i, j :: 0 <= i < j < |items| ==>
          items[i].bucket != items[j].bucket && !Before(items[j].bucket, items[i].bucket))
  }

  /** The rows outside `rest` are listed, in order, before all of `rest`. */
  ghost predicate Listed(items: seq<Item>, usage: map<UsageKey, Row>, p: Profile, all: set<UsageKey>,
                         rest: set<UsageKey>) {
    && (forall k :: k in all - rest ==> k in usage && Item(k.bucket, usage[k].counts) in items)
    && (forall i :: 0 <= i < |items| ==>
          UsageKey(p, items[i].bucket) in all - rest && UsageKey(p, items[i].bucket) in usage &&
          usage[UsageKey(p, items[i].bucket)].counts == items[i].counts)
    && (forall i, j :: 0 <= i < j < |items| ==>
          items[i].bucket != items[j].bucket && !Before(items[j].bucket, items[i].bucket))
    && (forall i, k :: 0 <= i < |items| && k in rest ==> !Before(k.bucket, items[i].bucket))
  }

  lemma ListsNext(items: seq<Item>, usage: map<UsageKey, Row>, p: Profile, all: set<UsageKey>, rest: set<UsageKey>,
                  k: UsageKey)
    requires Listed(items, usage, p, all, rest) && rest <= all && IsFirst(k, rest) && k in usage && k.profile == p
    ensures Listed(items + [Item(k.bucket, usage[k].counts)], usage, p, all, rest - {k})
  {
    var item := Item(k.bucket, usage[k].counts);
    var more := items + [item];
    assert more[|items|] == item && k == UsageKey(p, k.bucket);
    forall i | 0 <= i < |items| ensures items[i].bucket != item.bucket && !Before(item.bucket, items[i].bucket) {
      assert UsageKey(p, items[i].bucket) !in rest;
    }
    forall j | j in all - (rest - {k}) ensures j in usage && Item(j.bucket, usage[j].counts) in more {
      assert j == k || j in all - rest;
    }
  }

  /** `query_usage`. */
  method QueryUsage(usage: map<UsageKey, Row>, p: Profile, start: int, end: int, project: Option<string>)
    returns (items: seq<Item>)
    ensures Selects(items, usage, p, start, end, project)
  {
    var rest := set k | k in usage && Matches(k, p, start, end, project);
    ghost var all := rest;
    items := [];
    while rest != {}
      invariant rest <= all && Listed(items, usage, p, all, rest)
      decreases |rest|
    {
      FirstExists(rest);
      var k :| k in rest && forall j :: j in rest ==> !Before(j.bucket, k.bucket);
      ListsNext(items, usage, p, all, rest, k);
      items := items + [Item(k.bucket, usage[k].counts)];
      rest := rest - {k};
    }
  }

  /** The rows grouped by day. */
  method GroupByDay(items: seq<Item>) returns (byDay: map<int, seq<Item>>)
    ensures forall d :: RowsOf(items, d) == if d in byDay then byDay[d] else []
  {
    byDay := map[];
    var i := 0;
    while i < |items|
      invariant 0 <= i <= |items|
      invariant forall d :: RowsOf(items[..i], d) == if d in byDay then byDay[d] else []
    {
      assert items[..i + 1][..i] == items[..i];
      var day := DayOf(items[i]);
      byDay := byDay[day := (if day in byDay then byDay[day] else []) + [items[i]]];
      i := i + 1;
    }
    assert items[..i] == items;
  }

  function DayTotal(d: Day): int {
    if d.totals.None? then 0 else d.totals.value.counts.input + d.totals.value.counts.output
  }

  function ReportTotal(days: seq<Day>): int {
    if days == [] then 0 else ReportTotal(days[..|days| - 1]) + DayTotal(days[|days| - 1])
  }

  /** Tokens of the rows that start before `end`. */
  function TokensBefore(items: seq<Item>, end: int): int {
    if items == [] then 0
    else TokensBefore(items[..|items| - 1], end) +
         if items[|items| - 1].bucket.start < end then Tokens(items[|items| - 1]) else 0
  }

  /** One more day of rows. */
  lemma {:induction false} NextDay(items: seq<Item>, day: int)
    requires day % DAY == 0
    ensures TokensBefore(items, day + DAY) == TokensBefore(items, day) + SumTokens(RowsOf(items, day))
  {
    if items != [] {
      var init, last := items[..|items| - 1], items[|items| - 1];
      NextDay(init, day);
      DayBoundary(last.bucket.start, day);
      if DayOf(last) == day {
        var rows := RowsOf(items, day);
        assert rows == RowsOf(init, day) + [last] && rows[..|rows| - 1] == RowsOf(init, day) &&
               rows[|rows| - 1] == last;
      } else {
        assert RowsOf(items, day) == RowsOf(init, day);
      }
    }
  }

  lemma DayBoundary(t: int, day: int)
    requires day % DAY == 0
    ensures t - t % DAY == day <==> day <= t < day + DAY
  {
    assert t == (t / DAY) * DAY + t % DAY && day == (day / DAY) * DAY;
    if day <= t < day + DAY { assert t / DAY == day / DAY; }
  }

  lemma {:induction false} NothingBefore(items: seq<Item>, start: int)
    requires forall i :: 0 <= i < |items| ==> items[i].bucket.start >= start
    ensures TokensBefore(items, start) == 0
  {
    if items != [] { NothingBefore(items[..|items| - 1], start); }
  }

  lemma {:induction false} EverythingBefore(items: seq<Item>, end: int)
    requires forall i :: 0 <= i < |items| ==> items[i].bucket.start < end
    ensures TokensBefore(items, end) == SumTokens(items)
  {
    if items != [] { EverythingBefore(items[..|items| - 1], end); }
  }

  /** A day that has to be reported. */
  ghost predicate MustReport(slices: map<SliceKey, SliceRow>, p: Profile, items: seq<Item>, d: int,
                             includeMissing: bool) {
    includeMissing || RowsOf(items, d) != [] || Attempted(slices, p, d) || FullyCollected(slices, p, d)
  }

  ghost predicate Reports(days: seq<Day>, d: int) { exists i :: 0 <= i < |days| && days[i].start == d }

  /** Each reported day is right, days appear in order, and every day that must be reported is. */
  ghost predicate Reported(days: seq<Day>, start: int, end: int, right: Day -> bool, must: int -> bool) {
    && (forall i :: 0 <= i < |days| ==> Midnight(days[i].start) && start <= days[i].start < end && right(days[i]))
    && (forall i, j :: 0 <= i < j < |days| ==> days[i].start < days[j].start)
    && (forall d :: start <= d < end && Midnight(d) && must(d) ==> Reports(days, d))
  }

  lemma ReportedGrows(days: seq<Day>, start: int, day: int, d: Day, right: Day -> bool, must: int -> bool)
    requires start <= day && Midnight(day) && d.start == day && right(d)
    requires Reported(days, start, day, right, must)
    ensures Reported(days + [d], start, day + DAY, right, must)
    ensures !must(day) ==> Reported(days, start, day + DAY, right, must)
  {
    NoMidnightBetween(day);
    var more := days + [d];
    forall x | start <= x < day + DAY && Midnight(x) && must(x)
      ensures Reports(more, x)
      ensures x < day ==> Reports(days, x)
    {
      if x < day {
        var i :| 0 <= i < |days| && days[i].start == x;
        assert more[i].start == x;
      } else {
        assert more[|days|].start == x;
      }
    }
  }

  ghost predicate DaysOk(c: Catalog, slices: map<SliceKey, SliceRow>, p: Profile, items: seq<Item>, days: seq<Day>,
                         start: int, end: int, includeMissing: bool) {
    Reported(days, start, end, (d: Day) => DayOk(c, slices, p, RowsOf(items, d.start), d),
             (x: int) => MustReport(slices, p, items, x, includeMissing))
  }

  /** `daily_usage`; None stands for the range errors. The reported totals add up to exactly the tokens queried. */
  method Daily(db: Database, c: Catalog, p: Profile, start: int, end: int, maxDays: int, project: Option<string>,
               includeMissing: bool)
    returns (days: Option<seq<Day>>, ghost items: seq<Item>)
    requires db.Valid() && CatalogOk(c)
    ensures days.Some? <==> ValidQuery(start, end, maxDays)
    ensures days.Some? ==> Selects(items, db.usage, p, start, end, project)
    ensures days.Some? ==> DaysOk(c, db.slices, p, items, days.value, start, end, includeMissing)
    ensures days.Some? ==> ReportTotal(days.value) == SumTokens(items)
  {
    items := [];
    if !ValidQuery(start, end, maxDays) { return None, items; }
    var records := QueryUsage(db.usage, p, start, end, project);
    SelectedBounds(records, db.usage, p, start, end, project);
    var slices := db.slices;
    ghost var right := (d: Day) => DayOk(c, slices, p, RowsOf(records, d.start), d);
    ghost var must := (x: int) => MustReport(slices, p, records, x, includeMissing);
    assert Judges(c, slices, p, records, includeMissing, right, must);
    var out := ReportDays(c, slices, p, records, start, end, includeMissing, right, must);
    return Some(out), records;
  }

  lemma SelectedBounds(items: seq<Item>, usage: map<UsageKey, Row>, p: Profile, start: int, end: int,
                       project: Option<string>)
    requires Selects(items, usage, p, start, end, project) && UsageOk(usage)
    ensures forall i :: 0 <= i < |items| ==> start <= items[i].bucket.start < end
  {
    forall i | 0 <= i < |items| ensures start <= items[i].bucket.start < end {
      assert UsageKey(p, items[i].bucket) in usage;
    }
  }

  /** Facts about each day that a correct report of that day implies. */
  ghost predicate Judges(c: Catalog, slices: map<SliceKey, SliceRow>, p: Profile, records: seq<Item>,
                         includeMissing: bool, right: Day -> bool, must: int -> bool) {
    forall d: Day :: DayOk(c, slices, p, RowsOf(records, d.start), d) ==>
      right(d) && (d.completeness == Missing && !includeMissing ==> !must(d.start))
  }

  /** What the loop over days has done before `day`. */
  ghost predicate DoneBefore(records: seq<Item>, days: seq<Day>, start: int, day: int, right: Day -> bool,
                             must: int -> bool) {
    Reported(days, start, day, right, must) && ReportTotal(days) == TokensBefore(records, day)
  }

  /** The body of the loop over days. */
  method AddDay(c: Catalog, slices: map<SliceKey, SliceRow>, p: Profile, ghost records: seq<Item>,
                selected: set<SliceKey>, rows: seq<Item>, days: seq<Day>, start: int, day: int, end: int,
                includeMissing: bool, ghost right: Day -> bool, ghost must: int -> bool) returns (more: seq<Day>)
    requires CatalogOk(c) && start <= day && day + DAY <= end && Midnight(start) && Midnight(day)
    requires selected == set k | k in slices && Touches(k, p, start, end)
    requires rows == RowsOf(records, day) && Judges(c, slices, p, records, includeMissing, right, must)
    requires DoneBefore(records, days, start, day, right, must)
    ensures DoneBefore(records, more, start, day + DAY, right, must)
  {
    var d := ReportDay(c, slices, p, selected, rows, day, start, end);
    more := if d.completeness == Missing && !includeMissing then days else days + [d];
    DayStep(c, slices, p, records, includeMissing, days, start, day, rows, d, right, must, more);
  }

  /** The loop over days. */
  method ReportDays(c: Catalog, slices: map<SliceKey, SliceRow>, p: Profile, records: seq<Item>, start: int, end: int,
                    includeMissing: bool, ghost right: Day -> bool, ghost must: int -> bool) returns (days: seq<Day>)
    requires CatalogOk(c) && start < end && Midnight(start) && Midnight(end)
    requires forall i :: 0 <= i < |records| ==> start <= records[i].bucket.start < end
    requires Judges(c, slices, p, records, includeMissing, right, must)
    ensures Reported(days, start, end, right, must)
    ensures ReportTotal(days) == SumTokens(records)
  {
    var selected := set k | k in slices && Touches(k, p, start, end);
    var byDay := GroupByDay(records);
    days := [];
    var day := start;
    NothingBefore(records, start);
    while day < end
      invariant start <= day <= end && Midnight(day)
      invariant DoneBefore(records, days, start, day, right, must)
      decreases end - day
    {
      DayFits(day, end);
      var rows := if day in byDay then byDay[day] else [];
      days := AddDay(c, slices, p, records, selected, rows, days, start, day, end, includeMissing, right, must);
      day := day + DAY;
    }
    EverythingBefore(records, end);
  }

  /** One round of the loop over days. */
  lemma DayStep(c: Catalog, slices: map<SliceKey, SliceRow>, p: Profile, records: seq<Item>, includeMissing: bool,
                days: seq<Day>, start: int, day: int, rows: seq<Item>, d: Day, right: Day -> bool,
                must: int -> bool, more: seq<Day>)
    requires CatalogOk(c) && start <= day && Midnight(day) && d.start == day
    requires Judges(c, slices, p, records, includeMissing, right, must)
    requires rows == RowsOf(records, day) && DayOk(c, slices, p, rows, d)
    requires Reported(days, start, day, right, must) && ReportTotal(days) == TokensBefore(records, day)
    requires more == if d.completeness == Missing && !includeMissing then days else days + [d]
    ensures Reported(more, start, day + DAY, right, must) && ReportTotal(more) == TokensBefore(records, day + DAY)
  {
    ReportedGrows(days, start, day, d, right, must);
    TotalOfDay(c, slices, p, rows, d);
    ConservedStep(records, days, day, d);
  }

  lemma ConservedStep(records: seq<Item>, days: seq<Day>, day: int, d: Day)
    requires Midnight(day) && ReportTotal(days) == TokensBefore(records, day)
    requires DayTotal(d) == SumTokens(RowsOf(records, day))
    ensures ReportTotal(days + [d]) == TokensBefore(records, day + DAY)
    ensures DayTotal(d) == 0 ==> ReportTotal(days) == TokensBefore(records, day + DAY)
  {
    assert (days + [d])[..|days|] == days;
    NextDay(records, day);
  }

  /** A reported day's total is the total of its rows, a null total counting as zero; a missing day has no rows. */
  lemma TotalOfDay(c: Catalog, slices: map<SliceKey, SliceRow>, p: Profile, rows: seq<Item>, d: Day)
    requires CatalogOk(c) && DayOk(c, slices, p, rows, d)
    ensures DayTotal(d) == SumTokens(rows) && (d.completeness == Missing ==> SumTokens(rows) == 0)
  {
    GroupsAddUp(c, rows);
  }

  lemma DayFits(day: int, end: int)
    requires Midnight(day) && Midnight(end) && day < end
    ensures day + DAY <= end && Midnight(day + DAY)
  {
    assert day == (day / DAY) * DAY && end == (end / DAY) * DAY;
  }

  lemma NoMidnightBetween(day: int)
    requires Midnight(day)
    ensures forall d :: day < d < day + DAY ==> !Midnight(d)
  {
    forall d | day < d < day + DAY ensures !Midnight(d) { DayBoundary(d, day); }
  }
}
