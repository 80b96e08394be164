/** The usage tables and their transactions (`database.py`). A table is a map from its unique key to the rest of the
    row; a transaction is one method call that either happens completely or not at all. */
module UsageStore {
  import opened Prelude
  import opened Coverage

  type Profile = string
  type RunId = string

  // ---------------------------------------------------------------- rows

  /** The unique key of `usage_buckets` apart from the profile; text is already normalized. */
  datatype Bucket = Bucket(start: int, end: int, project: string, model: string, tier: string)

  datatype Counts = Counts(input: int, cached: int, output: int, requests: int)

  datatype Row = Row(counts: Counts, catalog: string, collectedAt: string)

  datatype Record = Record(bucket: Bucket, row: Row)

  datatype UsageKey = UsageKey(profile: Profile, bucket: Bucket)

  datatype SliceStatus = Pending | InProgress | CompletedSlice | FailedSlice

  datatype SliceKey = SliceKey(profile: Profile, run: RunId, start: int, end: int)

  datatype SliceRow = SliceRow(status: SliceStatus, pages: nat, checkpoint: Option<string>, error: Option<string>)

  datatype RunStatus = RunningRun | CompletedRun | PartialRun | FailedRun | CancelledRun

  datatype RunKey = RunKey(profile: Profile, run: RunId)

  datatype Run = Run(start: int, end: int, startedAt: int, rowid: nat,
                     status: RunStatus, pages: nat, error: Option<string>)

  datatype DbError = ValueError | KeyError | IntegrityError

  // ---------------------------------------------------------------- staging

  predicate Within(b: Bucket, start: int, end: int) { start <= b.start && b.end <= end }

  /** `_validate_bucket`, on the numeric fields and the two required texts. */
  predicate ValidRecord(r: Record, start: int, end: int) {
    && Within(r.bucket, start, end) && 0 <= r.bucket.start < r.bucket.end
    && ValidCounts(r.row.counts) && r.row.catalog != "" && r.row.collectedAt != ""
  }

  predicate ValidCounts(c: Counts) { 0 <= c.cached <= c.input && 0 <= c.output && 0 <= c.requests }

  predicate AllValid(records: seq<Record>, start: int, end: int) {
    forall i :: 0 <= i < |records| ==> ValidRecord(records[i], start, end)
  }

  predicate ValidRange(start: int, end: int) { 0 <= start < end }

  function Add(a: Counts, b: Counts): Counts {
    Counts(a.input + b.input, a.cached + b.cached, a.output + b.output, a.requests + b.requests)
  }

  const ZERO := Counts(0, 0, 0, 0)

  /** One staging insert: counts add up, catalog version and time are those of the later record. */
  function Merge(staged: map<Bucket, Row>, r: Record): map<Bucket, Row> {
    if r.bucket in staged then staged[r.bucket := r.row.(counts := Add(staged[r.bucket].counts, r.row.counts))]
    else staged[r.bucket := r.row]
  }

  function Staged(records: seq<Record>): map<Bucket, Row> {
    if records == [] then map[] else Merge(Staged(records[..|records| - 1]), records[|records| - 1])
  }

  /** Independent statement of what is stored: the sum over the records of one bucket. */
  function SumOf(records: seq<Record>, b: Bucket): Counts {
    if records == [] then ZERO
    else Add(SumOf(records[..|records| - 1], b),
             if records[|records| - 1].bucket == b then records[|records| - 1].row.counts else ZERO)
  }

  ghost predicate Mentions(records: seq<Record>, b: Bucket) {
    exists i :: 0 <= i < |records| && records[i].bucket == b
  }

  lemma MentionsLast(records: seq<Record>, b: Bucket)
    requires records != []
    ensures Mentions(records, b) <==> Mentions(records[..|records| - 1], b) || records[|records| - 1].bucket == b
  {
    var init := records[..|records| - 1];
    if Mentions(init, b) {
      var i :| 0 <= i < |init| && init[i].bucket == b;
      assert records[i].bucket == b;
    }
    if i :| 0 <= i < |records| && records[i].bucket == b {
      if i < |init| { assert init[i].bucket == b; }
    }
  }

  lemma MergeAt(staged: map<Bucket, Row>, r: Record, b: Bucket)
    ensures b in Merge(staged, r) <==> b in staged || r.bucket == b
    ensures CountsAt(Merge(staged, r), b) == Add(CountsAt(staged, b), if r.bucket == b then r.row.counts else ZERO)
  {
  }

  /** A missing row counts as zero. */
  function CountsAt(staged: map<Bucket, Row>, b: Bucket): Counts { if b in staged then staged[b].counts else ZERO }

  /** Staging keeps one row per bucket mentioned. */
  lemma {:induction false} StagedMentions(records: seq<Record>, b: Bucket)
    ensures b in Staged(records) <==> Mentions(records, b)
  {
    if records != [] {
      StagedMentions(records[..|records| - 1], b);
      MergeAt(Staged(records[..|records| - 1]), records[|records| - 1], b);
      MentionsLast(records, b);
    }
  }

  /** The staged row of a bucket holds the sums over its records. */
  lemma {:induction false} StagedIsSums(records: seq<Record>, b: Bucket)
    ensures CountsAt(Staged(records), b) == SumOf(records, b)
  {
    if records != [] {
      StagedIsSums(records[..|records| - 1], b);
      MergeAt(Staged(records[..|records| - 1]), records[|records| - 1], b);
    }
  }

  lemma {:induction false} StagedIsValid(records: seq<Record>, start: int, end: int)
    requires AllValid(records, start, end)
    ensures forall b :: b in Staged(records) ==>
      Within(b, start, end) && 0 <= b.start < b.end && ValidCounts(Staged(records)[b].counts)
  {
    if records != [] { StagedIsValid(records[..|records| - 1], start, end); }
  }

  // ---------------------------------------------------------------- reconciliation, specified

  function Tagged(p: Profile, staged: map<Bucket, Row>): map<UsageKey, Row> {
    map k: UsageKey | k in (set b | b in staged :: UsageKey(p, b)) :: staged[k.bucket]
  }

  /** A reconciled slice: rows inside it are replaced by the staged ones, everything else stays. */
  function Reconciled(usage: map<UsageKey, Row>, p: Profile, start: int, end: int,
                      staged: map<Bucket, Row>): map<UsageKey, Row> {
    (map k | k in usage && !(k.profile == p && Within(k.bucket, start, end)) :: usage[k]) + Tagged(p, staged)
  }

  /** The same, row by row. */
  lemma ReconciledAt(usage: map<UsageKey, Row>, p: Profile, start: int, end: int, staged: map<Bucket, Row>, k: UsageKey)
    requires forall b :: b in staged ==> Within(b, start, end)
    ensures var r := Reconciled(usage, p, start, end, staged);
      if k.profile == p && Within(k.bucket, start, end) then
        (k in r <==> k.bucket in staged) && (k in r ==> r[k] == staged[k.bucket])
      else (k in r <==> k in usage) && (k in r ==> r[k] == usage[k])
  {
  }

  /** Reconciling a slice again forgets what was there: repeating changes nothing, a correction wins. */
  lemma LastReconcileWins(usage: map<UsageKey, Row>, p: Profile, start: int, end: int,
                          first: map<Bucket, Row>, second: map<Bucket, Row>)
    requires forall b :: b in first ==> Within(b, start, end)
    requires forall b :: b in second ==> Within(b, start, end)
    ensures Reconciled(Reconciled(usage, p, start, end, first), p, start, end, second) ==
      Reconciled(usage, p, start, end, second)
  {
    var a := Reconciled(Reconciled(usage, p, start, end, first), p, start, end, second);
    var b := Reconciled(usage, p, start, end, second);
    forall k ensures (k in a <==> k in b) && (k in a ==> a[k] == b[k]) {
      ReconciledAt(usage, p, start, end, first, k);
      ReconciledAt(Reconciled(usage, p, start, end, first), p, start, end, second, k);
      ReconciledAt(usage, p, start, end, second, k);
    }
  }

  predicate SameAtKey(a: map<UsageKey, Row>, b: map<UsageKey, Row>, k: UsageKey) {
    (k in a <==> k in b) && (k in a ==> a[k] == b[k])
  }

  lemma EqualTables(a: map<UsageKey, Row>, b: map<UsageKey, Row>)
    requires forall k :: SameAtKey(a, b, k)
    ensures a == b
  {
    assert forall k :: k in a ==> SameAtKey(a, b, k);
    assert forall k :: k in b ==> SameAtKey(a, b, k);
  }

  lemma CommuteAt(usage: map<UsageKey, Row>, p: Profile, q: Profile, s1: int, e1: int, s2: int, e2: int,
                  x: map<Bucket, Row>, y: map<Bucket, Row>, k: UsageKey)
    requires p != q || e1 <= s2 || e2 <= s1
    requires forall b :: b in x ==> Within(b, s1, e1) && b.start < b.end
    requires forall b :: b in y ==> Within(b, s2, e2) && b.start < b.end
    requires k in usage ==> k.bucket.start < k.bucket.end
    ensures SameAtKey(Reconciled(Reconciled(usage, p, s1, e1, x), q, s2, e2, y),
                      Reconciled(Reconciled(usage, q, s2, e2, y), p, s1, e1, x), k)
  {
    ReconciledAt(usage, p, s1, e1, x, k);
    ReconciledAt(Reconciled(usage, p, s1, e1, x), q, s2, e2, y, k);
    ReconciledAt(usage, q, s2, e2, y, k);
    ReconciledAt(Reconciled(usage, q, s2, e2, y), p, s1, e1, x, k);
  }

  /** Slices that do not overlap, or belong to different profiles, can be reconciled in any order. */
  lemma DisjointReconcilesCommute(usage: map<UsageKey, Row>, p: Profile, q: Profile, s1: int, e1: int, s2: int, e2: int,
                                  x: map<Bucket, Row>, y: map<Bucket, Row>)
    requires p != q || e1 <= s2 || e2 <= s1
    requires forall b :: b in x ==> Within(b, s1, e1) && b.start < b.end
    requires forall b :: b in y ==> Within(b, s2, e2) && b.start < b.end
    requires forall k :: k in usage ==> k.bucket.start < k.bucket.end
    ensures Reconciled(Reconciled(usage, p, s1, e1, x), q, s2, e2, y) ==
      Reconciled(Reconciled(usage, q, s2, e2, y), p, s1, e1, x)
  {
    var a := Reconciled(Reconciled(usage, p, s1, e1, x), q, s2, e2, y);
    var b := Reconciled(Reconciled(usage, q, s2, e2, y), p, s1, e1, x);
    forall k ensures SameAtKey(a, b, k) {
      CommuteAt(usage, p, q, s1, e1, s2, e2, x, y, k);
    }
    EqualTables(a, b);
  }

  // ---------------------------------------------------------------- page counts

  function RunSlices(slices: map<SliceKey, SliceRow>, r: RunKey): map<SliceKey, SliceRow> {
    map k | k in slices && k.profile == r.profile && k.run == r.run :: slices[k]
  }

  /** `SUM(pages_fetched)` over some slice rows. */
  ghost function PageSum(m: map<SliceKey, SliceRow>): nat {
    if m == map[] then 0
    else
      var k :| k in m;
      m[k].pages + PageSum(m - {k})
  }

  lemma {:induction false} PageSumRemove(m: map<SliceKey, SliceRow>, k: SliceKey)
    requires k in m
    ensures PageSum(m) == m[k].pages + PageSum(m - {k})
    decreases |m|
  {
    var j :| j in m && PageSum(m) == m[j].pages + PageSum(m - {j});
    if j != k {
      PageSumRemove(m - {j}, k);
      PageSumRemove(m - {k}, j);
      assert m - {j} - {k} == m - {k} - {j};
    }
  }

  // ---------------------------------------------------------------- the tables

  /** What the tables hold. */
  datatype Tables = Tables(
    usage: map<UsageKey, Row>, slices: map<SliceKey, SliceRow>, runs: map<RunKey, Run>, nextRow: nat)

  /** Each run's page count is the sum over its slices. */
  ghost predicate PagesAddUp(t: Tables) {
    forall r :: r in t.runs ==> t.runs[r].pages == PageSum(RunSlices(t.slices, r))
  }

  /** The table's CHECK constraints: real time spans, and cached input within input. */
  ghost predicate UsageOk(usage: map<UsageKey, Row>) {
    forall k :: k in usage ==> 0 <= k.bucket.start < k.bucket.end && ValidCounts(usage[k].counts)
  }

  lemma ReconciledRowsOk(usage: map<UsageKey, Row>, p: Profile, start: int, end: int, staged: map<Bucket, Row>)
    requires UsageOk(usage)
    requires forall b :: b in staged ==> 0 <= b.start < b.end && ValidCounts(staged[b].counts)
    ensures UsageOk(Reconciled(usage, p, start, end, staged))
  {
  }

  ghost predicate RowsOk(t: Tables) {
    && UsageOk(t.usage)
    && (forall k :: k in t.slices ==> k.start < k.end && RunKey(k.profile, k.run) in t.runs)
    && (forall r :: r in t.runs ==> t.runs[r].start < t.runs[r].end && t.runs[r].rowid < t.nextRow)
  }

  ghost predicate TablesOk(t: Tables) { PagesAddUp(t) && RowsOk(t) }

  /** One slice row written, and the page count of its run refreshed. */
  function WithSlice(t: Tables, k: SliceKey, row: SliceRow, pages: nat): Tables
    requires RunKey(k.profile, k.run) in t.runs
  {
    var r := RunKey(k.profile, k.run);
    t.(slices := t.slices[k := row], runs := t.runs[r := t.runs[r].(pages := pages)])
  }

  lemma WithSliceKeepsTables(t: Tables, k: SliceKey, row: SliceRow, pages: nat)
    requires TablesOk(t) && k.start < k.end && RunKey(k.profile, k.run) in t.runs
    requires pages == PageSum(RunSlices(t.slices[k := row], RunKey(k.profile, k.run)))
    ensures TablesOk(WithSlice(t, k, row, pages))
  {
    var u := WithSlice(t, k, row, pages);
    forall r | r in u.runs ensures u.runs[r].pages == PageSum(RunSlices(u.slices, r)) {
      if r != RunKey(k.profile, k.run) {
        assert RunSlices(u.slices, r) == RunSlices(t.slices, r);
      }
    }
  }

  /** A run that accepts writes to this slice; the error otherwise (`_assert_slice_in_run`). */
  function SliceError(t: Tables, k: SliceKey): Option<DbError> {
    var r := RunKey(k.profile, k.run);
    if r !in t.runs then Some(KeyError)
    else if t.runs[r].status != RunningRun then Some(ValueError)
    else if k.start < t.runs[r].start || k.end > t.runs[r].end then Some(ValueError)
    else None
  }

  const MAX_CHECKPOINT := 2048

  /** Only `reconcile_slice` may complete a slice, and checkpoints are short. */
  predicate ValidCheckpoint(row: SliceRow) {
    row.status != CompletedSlice && (row.checkpoint.Some? ==> |row.checkpoint.value| <= MAX_CHECKPOINT)
  }

  /** A run that `find_resumable_collection_run` may return. */
  predicate Resumable(run: Run, start: int, end: int) {
    run.start == start && run.end == end && run.status in {RunningRun, PartialRun, FailedRun}
  }

  /** `ORDER BY started_at DESC, rowid DESC`. */
  predicate StartedAfter(a: Run, b: Run) {
    a.startedAt > b.startedAt || (a.startedAt == b.startedAt && a.rowid > b.rowid)
  }

  /** The completed slices of a run. */
  ghost predicate CompletedIn(t: Tables, r: RunKey, iv: Interval) {
    var k := SliceKey(r.profile, r.run, iv.0, iv.1);
    k in t.slices && t.slices[k].status == CompletedSlice
  }

  /** Every second of the run's range lies in one of its completed slices. */
  ghost predicate FullyCovered(t: Tables, r: RunKey)
    requires r in t.runs
  {
    forall x :: t.runs[r].start <= x < t.runs[r].end ==> CompletedAt(t, r, x)
  }

  ghost predicate CompletedAt(t: Tables, r: RunKey, x: int) {
    exists iv :: CompletedIn(t, r, iv) && Contains(iv, x)
  }

  class Database {
    var usage: map<UsageKey, Row>
    var slices: map<SliceKey, SliceRow>
    var runs: map<RunKey, Run>
    var nextRow: nat

    ghost function Now(): Tables
      reads this
    {
      Tables(usage, slices, runs, nextRow)
    }

    ghost predicate Valid()
      reads this
    {
      TablesOk(Now())
    }

    constructor ()
      ensures Valid() && Now() == Tables(map[], map[], map[], 0)
    {
      usage, slices, runs, nextRow := map[], map[], map[], 0;
    }

    /** `SELECT SUM(pages_fetched)`, in whatever order the rows come. */
    method SumPages(r: RunKey) returns (total: nat)
      ensures total == PageSum(RunSlices(slices, r))
    {
      var rest := RunSlices(slices, r);
      total := 0;
      while rest != map[]
        invariant total + PageSum(rest) == PageSum(RunSlices(slices, r))
        decreases |rest|
      {
        var k :| k in rest;
        PageSumRemove(rest, k);
        total := total + rest[k].pages;
        rest := rest - {k};
      }
    }

    /** The upsert of one slice row followed by the refresh of the run's page count. */
    method WriteSlice(k: SliceKey, row: SliceRow)
      requires Valid() && k.start < k.end && RunKey(k.profile, k.run) in runs
      modifies this`slices, this`runs
      ensures Valid() && Now() == WithSlice(old(Now()), k, row, PageSum(RunSlices(slices, RunKey(k.profile, k.run))))
    {
      ghost var t := Now();
      var r := RunKey(k.profile, k.run);
      slices := slices[k := row];
      var pages := SumPages(r);
      runs := runs[r := runs[r].(pages := pages)];
      WithSliceKeepsTables(t, k, row, pages);
    }

    /** `start_collection_run`; the identifier is chosen by the caller or at random. */
    method StartRun(p: Profile, run: RunId, start: int, end: int, startedAt: int) returns (error: Option<DbError>)
      requires Valid()
      modifies this`runs, this`nextRow
      ensures Valid()
      ensures error == if !ValidRange(start, end) then Some(ValueError)
                       else if RunKey(p, run) in old(runs) then Some(IntegrityError) else None
      ensures if error.Some? then Now() == old(Now())
              else runs == old(runs)[RunKey(p, run) := Run(start, end, startedAt, old(nextRow), RunningRun, 0, None)]
    {
      if !ValidRange(start, end) { return Some(ValueError); }
      if RunKey(p, run) in runs { return Some(IntegrityError); }
      assert RunSlices(slices, RunKey(p, run)) == map[];
      runs := runs[RunKey(p, run) := Run(start, end, startedAt, nextRow, RunningRun, 0, None)];
      nextRow := nextRow + 1;
      error := None;
    }

    /** `find_resumable_collection_run`: the newest unfinished run of exactly this range. */
    method FindResumable(p: Profile, start: int, end: int) returns (found: Option<RunKey>)
      ensures found.Some? ==>
        found.value in runs && found.value.profile == p && Resumable(runs[found.value], start, end)
      ensures forall r :: r in runs && r.profile == p && Resumable(runs[r], start, end) ==>
                found.Some? && !StartedAfter(runs[r], runs[found.value])
    {
      found := None;
      var rest := runs.Keys;
      while rest != {}
        invariant rest <= runs.Keys
        invariant found.Some? ==>
          found.value in runs && found.value.profile == p && Resumable(runs[found.value], start, end)
        invariant forall r :: r in runs.Keys - rest && r.profile == p && Resumable(runs[r], start, end) ==>
                    found.Some? && !StartedAfter(runs[r], runs[found.value])
        decreases |rest|
      {
        var r :| r in rest;
        rest := rest - {r};
        if r.profile == p && Resumable(runs[r], start, end) &&
           (found.None? || StartedAfter(runs[r], runs[found.value])) {
          found := Some(r);
        }
      }
    }

    /** `resume_collection_run`. */
    method ResumeRun(r: RunKey) returns (error: Option<DbError>)
      requires Valid()
      modifies this`runs
      ensures Valid()
      ensures error == if r !in old(runs) then Some(KeyError)
                       else if old(runs)[r].status in {CompletedRun, CancelledRun} then Some(ValueError) else None
      ensures runs == if error.Some? then old(runs)
                      else old(runs)[r := old(runs)[r].(status := RunningRun, error := None)]
    {
      if r !in runs { return Some(KeyError); }
      if runs[r].status in {CompletedRun, CancelledRun} { return Some(ValueError); }
      runs := runs[r := runs[r].(status := RunningRun, error := None)];
      error := None;
    }

    /** `record_slice_checkpoint`. It overwrites whatever status the slice row had. */
    method RecordCheckpoint(k: SliceKey, row: SliceRow) returns (error: Option<DbError>)
      requires Valid()
      modifies this`slices, this`runs
      ensures Valid()
      ensures error == if !ValidRange(k.start, k.end) || !ValidCheckpoint(row) then Some(ValueError)
                       else SliceError(old(Now()), k)
      ensures Now() == if error.Some? then old(Now())
                       else WithSlice(old(Now()), k, row, PageSum(RunSlices(slices, RunKey(k.profile, k.run))))
    {
      if !ValidRange(k.start, k.end) || !ValidCheckpoint(row) { return Some(ValueError); }
      if RunKey(k.profile, k.run) !in runs { return Some(KeyError); }
      var run := runs[RunKey(k.profile, k.run)];
      if run.status != RunningRun || k.start < run.start || k.end > run.end { return Some(ValueError); }
      WriteSlice(k, row);
      error := None;
    }

    /** `reconcile_slice`: stage the records, delete what the slice no longer has, upsert the staged rows,
        mark the slice completed; all in one transaction. */
    method ReconcileSlice(k: SliceKey, records: seq<Record>, pages: nat) returns (result: Result<nat, DbError>)
      requires Valid()
      modifies this`usage, this`slices, this`runs
      ensures Valid()
      ensures result == (if !ValidRange(k.start, k.end) || !AllValid(records, k.start, k.end)
                         then Err(ValueError)
                         else if SliceError(old(Now()), k).Some? then Err(SliceError(old(Now()), k).value)
                         else Ok(|Staged(records)|))
      ensures Now() == if result.Err? then old(Now())
        else WithSlice(old(Now()), k, SliceRow(CompletedSlice, pages, None, None),
                       PageSum(RunSlices(slices, RunKey(k.profile, k.run))))
             .(usage := Reconciled(old(usage), k.profile, k.start, k.end, Staged(records)))
    {
      if !ValidRange(k.start, k.end) { return Err(ValueError); }
      if !AllValid(records, k.start, k.end) { return Err(ValueError); }
      if RunKey(k.profile, k.run) !in runs { return Err(KeyError); }
      var run := runs[RunKey(k.profile, k.run)];
      if run.status != RunningRun || k.start < run.start || k.end > run.end { return Err(ValueError); }
      var staged := Stage(records);
      ReplaceRows(k.profile, k.start, k.end, records, staged);
      WriteSlice(k, SliceRow(CompletedSlice, pages, None, None));
      result := Ok(|staged|);
    }

    /** The loop that fills the temporary staging table. */
    method Stage(records: seq<Record>) returns (staged: map<Bucket, Row>)
      ensures staged == Staged(records)
    {
      staged := map[];
      var i := 0;
      while i < |records|
        invariant 0 <= i <= |records| && staged == Staged(records[..i])
      {
        assert records[..i + 1][..i] == records[..i];
        staged := Merge(staged, records[i]);
        i := i + 1;
      }
      assert records[..i] == records;
    }

    /** `DELETE ... WHERE NOT EXISTS staged`, then `INSERT ... ON CONFLICT DO UPDATE`. */
    method ReplaceRows(p: Profile, start: int, end: int, ghost records: seq<Record>, staged: map<Bucket, Row>)
      requires Valid() && staged == Staged(records)
      requires AllValid(records, start, end)
      modifies this`usage
      ensures Valid() && usage == Reconciled(old(usage), p, start, end, staged)
    {
      ghost var before := usage;
      usage := map k | k in usage && !Vanished(k, p, start, end, staged) :: usage[k];
      usage := usage + Tagged(p, staged);
      StagedIsValid(records, start, end);
      ReplacedIsReconciled(before, usage, p, start, end, staged);
      ReconciledRowsOk(before, p, start, end, staged);
    }

    /** `finish_collection_run`: completion is refused unless completed slices leave no gap. */
    method FinishRun(r: RunKey, status: RunStatus, code: Option<string>) returns (error: Option<DbError>)
      requires Valid()
      modifies this`runs
      ensures Valid()
      ensures error == if status == RunningRun then Some(ValueError)
                       else if r !in old(runs) then Some(KeyError)
                       else if status == CompletedRun && !FullyCovered(old(Now()), r) then Some(ValueError) else None
      ensures runs == if error.Some? then old(runs) else old(runs)[r := old(runs)[r].(status := status, error := code)]
    {
      if status == RunningRun { return Some(ValueError); }
      if r !in runs { return Some(KeyError); }
      if status == CompletedRun {
        var covered := HasCompleteCoverage(r);
        if !covered { return Some(ValueError); }
      }
      runs := runs[r := runs[r].(status := status, error := code)];
      error := None;
    }

    /** `_run_has_complete_coverage`. */
    method HasCompleteCoverage(r: RunKey) returns (covered: bool)
      requires Valid() && r in runs
      ensures covered <==> FullyCovered(Now(), r)
    {
      var intervals := CompletedIntervals(r);
      covered := IntervalIsCovered(runs[r].start, runs[r].end, intervals);
      CoversIsFullyCovered(Now(), r, intervals);
    }

    /** The selected slice rows, in any order. */
    method CompletedIntervals(r: RunKey) returns (intervals: seq<Interval>)
      ensures forall iv :: iv in intervals <==> CompletedIn(Now(), r, iv)
    {
      var rest := set k | k in slices && k.profile == r.profile && k.run == r.run && slices[k].status == CompletedSlice;
      ghost var all := rest;
      intervals := [];
      while rest != {}
        invariant rest <= all
        invariant forall iv: Interval :: iv in intervals <==> SliceKey(r.profile, r.run, iv.0, iv.1) in all - rest
        decreases |rest|
      {
        var k :| k in rest;
        intervals := intervals + [(k.start, k.end)];
        rest := rest - {k};
      }
    }
  }

  /** A row of the slice that was not collected again. */
  predicate Vanished(k: UsageKey, p: Profile, start: int, end: int, staged: map<Bucket, Row>) {
    k.profile == p && Within(k.bucket, start, end) && k.bucket !in staged
  }

  lemma ReplacedIsReconciled(before: map<UsageKey, Row>, after: map<UsageKey, Row>, p: Profile, start: int, end: int,
                             staged: map<Bucket, Row>)
    requires forall b :: b in staged ==> Within(b, start, end)
    requires after == (map k | k in before && !Vanished(k, p, start, end, staged) :: before[k]) + Tagged(p, staged)
    ensures after == Reconciled(before, p, start, end, staged)
  {
  }

  lemma CoversIsFullyCovered(t: Tables, r: RunKey, intervals: seq<Interval>)
    requires r in t.runs && forall iv :: iv in intervals <==> CompletedIn(t, r, iv)
    ensures Covers(intervals, t.runs[r].start, t.runs[r].end) <==> FullyCovered(t, r)
  {
    if Covers(intervals, t.runs[r].start, t.runs[r].end) {
      forall x | t.runs[r].start <= x < t.runs[r].end ensures CompletedAt(t, r, x) {
        assert CoversPoint(intervals, x);
        var i :| 0 <= i < |intervals| && Contains(intervals[i], x);
        assert intervals[i] in intervals;
      }
    }
    if FullyCovered(t, r) {
      forall x | t.runs[r].start <= x < t.runs[r].end ensures CoversPoint(intervals, x) {
        assert CompletedAt(t, r, x);
        var iv :| CompletedIn(t, r, iv) && Contains(iv, x);
        assert iv in intervals;
      }
    }
  }
}
