/** What a history synchronization is supposed to store, and why interruptions do not matter (`sync_service.py`). */
module SyncModel {
  import opened Prelude
  import opened Coverage
  import opened Pagination
  import opened UsageStore

  /** One upstream usage row; catalog version and collection time are stamped on by the sync. */
  datatype Sample = Sample(bucket: Bucket, counts: Counts)

  /** A deterministic upstream: the response for a slice and a cursor. */
  type Upstream = (Interval, Option<Cursor>) -> Payload<Sample>

  /** The slice's client as the page loop sees it. */
  function Client(u: Upstream, iv: Interval): Option<Cursor> -> Page<Sample> {
    (c: Option<Cursor>) => ReadPage(u(iv, c))
  }

  /** All cursors the upstream ever hands out. */
  ghost predicate FiniteCursors(u: Upstream, cursors: set<Cursor>) {
    forall iv, c :: Client(u, iv)(c).Page? && Client(u, iv)(c).next.Some? ==> Client(u, iv)(c).next.value in cursors
  }

  /** No cursor in any response is too long to be stored. */
  ghost predicate ShortCursors(u: Upstream) {
    forall iv, c :: u(iv, c).nextPage.Text? ==> |u(iv, c).nextPage.c| <= MAX_CHECKPOINT
  }

  /** Samples that `reconcile_slice` accepts. */
  predicate ValidSamples(samples: seq<Sample>, iv: Interval) {
    forall i :: 0 <= i < |samples| ==>
      Within(samples[i].bucket, iv.0, iv.1) && 0 <= samples[i].bucket.start < samples[i].bucket.end &&
      ValidCounts(samples[i].counts)
  }

  /** The page chain of the slice ends, and what it delivers is valid. */
  ghost predicate Behaves(u: Upstream, iv: Interval) {
    exists n: nat :: EndsAfter(Client(u, iv), n) && ValidSamples(Records(Client(u, iv), n), iv)
  }

  ghost predicate AllBehave(u: Upstream, slices: seq<Interval>) {
    forall i :: 0 <= i < |slices| ==> Behaves(u, slices[i])
  }

  /** In a chain that ends and is valid, the records are valid wherever it is found to end. */
  lemma BehavesThroughout(u: Upstream, iv: Interval, n: nat)
    requires Behaves(u, iv) && EndsAfter(Client(u, iv), n)
    ensures ValidSamples(Records(Client(u, iv), n), iv)
  {
    var m: nat :| EndsAfter(Client(u, iv), m) && ValidSamples(Records(Client(u, iv), m), iv);
    EndIsUnique(Client(u, iv), n, m, "");
  }

  lemma ValidSamplesStamped(samples: seq<Sample>, catalog: string, at: string, iv: Interval)
    requires ValidSamples(samples, iv) && catalog != "" && at != ""
    ensures AllValid(Stamped(samples, catalog, at), iv.0, iv.1)
  {
  }

  function Stamped(samples: seq<Sample>, catalog: string, at: string): (records: seq<Record>)
    ensures |records| == |samples|
  {
    seq(|samples|, i requires 0 <= i < |samples| => Record(samples[i].bucket, Row(samples[i].counts, catalog, at)))
  }

  /** The sum of the samples of one bucket. */
  function SampleSum(samples: seq<Sample>, b: Bucket): Counts {
    if samples == [] then ZERO
    else Add(SampleSum(samples[..|samples| - 1], b),
             if samples[|samples| - 1].bucket == b then samples[|samples| - 1].counts else ZERO)
  }

  ghost predicate HasSample(samples: seq<Sample>, b: Bucket) {
    exists i :: 0 <= i < |samples| && samples[i].bucket == b
  }

  /** What is stored does not depend on when it was collected. */
  lemma {:induction false} StampsDoNotCount(samples: seq<Sample>, catalog: string, at: string, b: Bucket)
    ensures SumOf(Stamped(samples, catalog, at), b) == SampleSum(samples, b)
  {
    var records := Stamped(samples, catalog, at);
    if samples != [] {
      StampsDoNotCount(samples[..|samples| - 1], catalog, at, b);
      assert records[..|records| - 1] == Stamped(samples[..|samples| - 1], catalog, at);
    }
  }

  lemma StampsKeepBuckets(samples: seq<Sample>, catalog: string, at: string, b: Bucket)
    ensures Mentions(Stamped(samples, catalog, at), b) <==> HasSample(samples, b)
  {
    var records := Stamped(samples, catalog, at);
    if HasSample(samples, b) {
      var i :| 0 <= i < |samples| && samples[i].bucket == b;
      assert records[i].bucket == b;
    }
    if Mentions(records, b) {
      var i :| 0 <= i < |records| && records[i].bucket == b;
      assert samples[i].bucket == b;
    }
  }

  // ---------------------------------------------------------------- what a completed slice means

  /** Inside the slice, exactly these samples are stored for the profile. */
  ghost predicate StoresSamples(usage: map<UsageKey, Row>, p: Profile, iv: Interval, samples: seq<Sample>) {
    forall b {:trigger UsageKey(p, b)} :: Within(b, iv.0, iv.1) ==>
      && (UsageKey(p, b) in usage <==> HasSample(samples, b))
      && (UsageKey(p, b) in usage ==> usage[UsageKey(p, b)].counts == SampleSum(samples, b))
  }

  /** The slice holds what the upstream's whole page chain delivers. */
  ghost predicate SliceMatches(u: Upstream, usage: map<UsageKey, Row>, p: Profile, iv: Interval) {
    exists n: nat :: EndsAfter(Client(u, iv), n) && StoresSamples(usage, p, iv, Records(Client(u, iv), n))
  }

  /** In the unfinished runs of the range, every slice row is one of its day slices, and every completed one matches the
      upstream. */
  ghost predicate Agrees(u: Upstream, t: Tables, p: Profile, slices: seq<Interval>, start: int, end: int) {
    forall k :: k in t.slices && OfRange(t, k, p, start, end) ==>
      && (k.start, k.end) in slices
      && (t.slices[k].status == CompletedSlice ==> SliceMatches(u, t.usage, p, (k.start, k.end)))
  }

  /** The slice belongs to a run of the range that a later call may resume. */
  predicate OfRange(t: Tables, k: SliceKey, p: Profile, start: int, end: int) {
    k.profile == p && RunKey(p, k.run) in t.runs && Resumable(t.runs[RunKey(p, k.run)], start, end)
  }

  /** Rows a sync of these slices never touches. */
  predicate Outside(k: UsageKey, p: Profile, slices: seq<Interval>) {
    !(k.profile == p && exists i :: 0 <= i < |slices| && Within(k.bucket, slices[i].0, slices[i].1))
  }

  ghost predicate SameOutside(a: map<UsageKey, Row>, b: map<UsageKey, Row>, p: Profile, slices: seq<Interval>) {
    forall k :: Outside(k, p, slices) ==> (k in a <==> k in b) && (k in a ==> a[k] == b[k])
  }

  /** Finished runs never lose a completed slice. */
  ghost predicate KeepsCompleted(t: Tables, v: Tables) {
    forall k :: k in t.slices && t.slices[k].status == CompletedSlice ==> k in v.slices && v.slices[k] == t.slices[k]
  }

  // ---------------------------------------------------------------- effect of the single transactions

  /** Only this slice row, and the page count of its run, may differ; the row is not completed on either side. */
  ghost predicate Progressed(t: Tables, v: Tables, k: SliceKey) {
    var r := RunKey(k.profile, k.run);
    && r in t.runs && r in v.runs && k in v.slices
    && v == t.(slices := t.slices[k := v.slices[k]], runs := t.runs[r := t.runs[r].(pages := v.runs[r].pages)])
    && v.slices[k].status != CompletedSlice
    && (k in t.slices ==> t.slices[k].status != CompletedSlice)
  }

  lemma ProgressAddsUp(t: Tables, v: Tables, w: Tables, k: SliceKey)
    requires Progressed(t, v, k) && Progressed(v, w, k)
    ensures Progressed(t, w, k)
  {
  }

  /** Writing an unfinished slice row to an unfinished slice is progress. */
  lemma CheckpointIsProgress(t: Tables, k: SliceKey, row: SliceRow, pages: nat)
    requires RunKey(k.profile, k.run) in t.runs && row.status != CompletedSlice
    requires k in t.slices ==> t.slices[k].status != CompletedSlice
    ensures Progressed(t, WithSlice(t, k, row, pages), k)
    ensures SliceError(WithSlice(t, k, row, pages), k) == SliceError(t, k)
  {
  }

  lemma ProgressKeepsAgreement(u: Upstream, t: Tables, v: Tables, k: SliceKey, slices: seq<Interval>, start: int,
                               end: int)
    requires Agrees(u, t, k.profile, slices, start, end) && Progressed(t, v, k)
    requires OfRange(t, k, k.profile, start, end) ==> (k.start, k.end) in slices
    ensures Agrees(u, v, k.profile, slices, start, end) && KeepsCompleted(t, v)
  {
    forall j | j in v.slices && OfRange(v, j, k.profile, start, end)
      ensures (j.start, j.end) in slices
      ensures v.slices[j].status == CompletedSlice ==> SliceMatches(u, v.usage, k.profile, (j.start, j.end))
    {
      assert OfRange(t, j, k.profile, start, end);
    }
  }

  /** A reconciled slice matches the upstream. */
  lemma ReconciledSliceMatches(u: Upstream, usage: map<UsageKey, Row>, p: Profile, iv: Interval, n: nat,
                               catalog: string, at: string)
    requires EndsAfter(Client(u, iv), n)
    requires AllValid(Stamped(Records(Client(u, iv), n), catalog, at), iv.0, iv.1)
    ensures var records := Stamped(Records(Client(u, iv), n), catalog, at);
            SliceMatches(u, Reconciled(usage, p, iv.0, iv.1, Staged(records)), p, iv)
  {
    var samples := Records(Client(u, iv), n);
    var records := Stamped(samples, catalog, at);
    StagedIsValid(records, iv.0, iv.1);
    var after := Reconciled(usage, p, iv.0, iv.1, Staged(records));
    forall b {:trigger UsageKey(p, b)} | Within(b, iv.0, iv.1)
      ensures (UsageKey(p, b) in after <==> HasSample(samples, b)) &&
              (UsageKey(p, b) in after ==> after[UsageKey(p, b)].counts == SampleSum(samples, b))
    {
      ReconciledAt(usage, p, iv.0, iv.1, Staged(records), UsageKey(p, b));
      StagedMentions(records, b);
      StagedIsSums(records, b);
      StampsKeepBuckets(samples, catalog, at, b);
      StampsDoNotCount(samples, catalog, at, b);
    }
    assert StoresSamples(after, p, iv, samples);
  }

  /** Reconciling one day slice leaves every other day slice as it was. */
  lemma OtherSliceUntouched(u: Upstream, usage: map<UsageKey, Row>, p: Profile, iv: Interval, other: Interval,
                            staged: map<Bucket, Row>)
    requires iv.1 <= other.0 || other.1 <= iv.0
    requires forall b :: b in staged ==> Within(b, iv.0, iv.1) && b.start < b.end
    requires UsageOk(usage) && SliceMatches(u, usage, p, other)
    ensures SliceMatches(u, Reconciled(usage, p, iv.0, iv.1, staged), p, other)
  {
    var n :| EndsAfter(Client(u, other), n) && StoresSamples(usage, p, other, Records(Client(u, other), n));
    var after := Reconciled(usage, p, iv.0, iv.1, staged);
    var samples := Records(Client(u, other), n);
    forall b {:trigger UsageKey(p, b)} | Within(b, other.0, other.1)
      ensures (UsageKey(p, b) in after <==> HasSample(samples, b)) &&
              (UsageKey(p, b) in after ==> after[UsageKey(p, b)].counts == SampleSum(samples, b))
    {
      ReconciledAt(usage, p, iv.0, iv.1, staged, UsageKey(p, b));
    }
    assert StoresSamples(after, p, other, samples);
  }

  /** The range being synchronized and its day slices. */
  datatype Job = Job(profile: Profile, start: int, end: int, slices: seq<Interval>)

  ghost predicate JobOk(job: Job) { DaySlices(job.slices, job.start, job.end) && 0 <= job.start }

  ghost predicate AgreesOn(u: Upstream, t: Tables, job: Job) {
    Agrees(u, t, job.profile, job.slices, job.start, job.end)
  }

  /** Work on one slice of the job: the rest of the tables is as it was, and nothing completed was lost. */
  ghost predicate Advanced(u: Upstream, t: Tables, v: Tables, job: Job, k: SliceKey) {
    var r := RunKey(k.profile, k.run);
    && AgreesOn(u, v, job) && KeepsCompleted(t, v) && SameOutside(t.usage, v.usage, job.profile, job.slices)
    && k in v.slices && v.slices == t.slices[k := v.slices[k]] && v.nextRow == t.nextRow
    && r in t.runs && r in v.runs && v.runs == t.runs[r := t.runs[r].(pages := v.runs[r].pages)]
  }

  lemma AdvancesAddUp(u: Upstream, t: Tables, v: Tables, w: Tables, job: Job, k: SliceKey)
    requires Advanced(u, t, v, job, k) && Advanced(u, v, w, job, k)
    ensures Advanced(u, t, w, job, k)
  {
  }

  lemma ProgressAdvances(u: Upstream, t: Tables, v: Tables, job: Job, k: SliceKey)
    requires AgreesOn(u, t, job) && Progressed(t, v, k) && k.profile == job.profile && (k.start, k.end) in job.slices
    ensures Advanced(u, t, v, job, k)
  {
    ProgressKeepsAgreement(u, t, v, k, job.slices, job.start, job.end);
  }

  /** The reconcile transaction of a fetched slice. */
  lemma ReconcileAdvances(u: Upstream, t: Tables, v: Tables, job: Job, k: SliceKey, n: nat, catalog: string, at: string,
                          pages: nat)
    requires AgreesOn(u, t, job) && JobOk(job) && TablesOk(t)
    requires k.profile == job.profile && (k.start, k.end) in job.slices
    requires RunKey(k.profile, k.run) in t.runs && !(k in t.slices && t.slices[k].status == CompletedSlice)
    requires EndsAfter(Client(u, (k.start, k.end)), n)
    requires var records := Stamped(Records(Client(u, (k.start, k.end)), n), catalog, at);
      AllValid(records, k.start, k.end) &&
      v == WithSlice(t, k, SliceRow(CompletedSlice, n, None, None), pages)
             .(usage := Reconciled(t.usage, k.profile, k.start, k.end, Staged(records)))
    ensures Advanced(u, t, v, job, k) && v.slices[k].status == CompletedSlice
  {
    var iv := (k.start, k.end);
    var staged := Staged(Stamped(Records(Client(u, iv), n), catalog, at));
    StagedIsValid(Stamped(Records(Client(u, iv), n), catalog, at), k.start, k.end);
    ReconciledSliceMatches(u, t.usage, k.profile, iv, n, catalog, at);
    forall j | j in v.slices && OfRange(v, j, job.profile, job.start, job.end)
      ensures (j.start, j.end) in job.slices
      ensures v.slices[j].status == CompletedSlice ==> SliceMatches(u, v.usage, job.profile, (j.start, j.end))
    {
      if (j.start, j.end) != iv && v.slices[j].status == CompletedSlice {
        assert OfRange(t, j, job.profile, job.start, job.end);
        DifferentSlicesAreDisjoint(job, iv, (j.start, j.end));
        OtherSliceUntouched(u, t.usage, job.profile, iv, (j.start, j.end), staged);
      }
    }
    ReconciledSameOutside(t.usage, job, iv, staged);
  }

  lemma ReconciledSameOutside(usage: map<UsageKey, Row>, job: Job, iv: Interval, staged: map<Bucket, Row>)
    requires iv in job.slices && forall b :: b in staged ==> Within(b, iv.0, iv.1)
    ensures SameOutside(usage, Reconciled(usage, job.profile, iv.0, iv.1, staged), job.profile, job.slices)
  {
    var after := Reconciled(usage, job.profile, iv.0, iv.1, staged);
    forall x | Outside(x, job.profile, job.slices)
      ensures (x in usage <==> x in after) && (x in usage ==> usage[x] == after[x])
    {
      var i :| 0 <= i < |job.slices| && job.slices[i] == iv;
      ReconciledAt(usage, job.profile, iv.0, iv.1, staged, x);
    }
  }

  lemma DifferentSlicesAreDisjoint(job: Job, a: Interval, b: Interval)
    requires JobOk(job) && a in job.slices && b in job.slices && a != b
    ensures a.1 <= b.0 || b.1 <= a.0
  {
    var i :| 0 <= i < |job.slices| && job.slices[i] == a;
    var j :| 0 <= j < |job.slices| && job.slices[j] == b;
    if i < j { SlicesAscend(job.slices, job.start, job.end, i, j); }
    if j < i { SlicesAscend(job.slices, job.start, job.end, j, i); }
  }

  // ---------------------------------------------------------------- the loop over slices

  function KeyOf(r: RunKey, iv: Interval): SliceKey { SliceKey(r.profile, r.run, iv.0, iv.1) }

  predicate IsCompleted(t: Tables, k: SliceKey) { k in t.slices && t.slices[k].status == CompletedSlice }

  /** The run is open for exactly this range. */
  ghost predicate Open(t: Tables, r: RunKey, start: int, end: int) {
    r in t.runs && t.runs[r].status == RunningRun && t.runs[r].start == start && t.runs[r].end == end
  }

  function CompletedKeys(slices: map<SliceKey, SliceRow>, r: RunKey): set<SliceKey> {
    set k | k in slices && k.profile == r.profile && k.run == r.run && slices[k].status == CompletedSlice
  }

  /** The first `i` slices are completed, the others are as they were listed when the loop began. */
  ghost predicate LoopState(u: Upstream, t0: Tables, t: Tables, job: Job, r: RunKey, i: nat, completed: nat) {
    && AgreesOn(u, t, job) && Open(t, r, job.start, job.end)
    && KeepsCompleted(t0, t) && SameOutside(t0.usage, t.usage, job.profile, job.slices)
    && (forall j :: 0 <= j < i && j < |job.slices| ==> IsCompleted(t, KeyOf(r, job.slices[j])))
    && (forall j :: i <= j < |job.slices| ==>
          IsCompleted(t, KeyOf(r, job.slices[j])) == IsCompleted(t0, KeyOf(r, job.slices[j])))
    && completed == |CompletedKeys(t.slices, r)|
  }

  /** Other slices of the run keep their status when one is worked on. */
  lemma OthersKeepStatus(u: Upstream, t: Tables, v: Tables, job: Job, r: RunKey, i: nat, j: nat)
    requires JobOk(job) && i < |job.slices| && j < |job.slices| && i != j
    requires Advanced(u, t, v, job, KeyOf(r, job.slices[i]))
    ensures IsCompleted(v, KeyOf(r, job.slices[j])) == IsCompleted(t, KeyOf(r, job.slices[j]))
  {
    if i < j {
      SlicesAscend(job.slices, job.start, job.end, i, j);
    } else {
      SlicesAscend(job.slices, job.start, job.end, j, i);
    }
  }

  lemma LoopStep(u: Upstream, t0: Tables, t: Tables, v: Tables, job: Job, r: RunKey, i: nat, completed: nat)
    requires JobOk(job) && i < |job.slices| && LoopState(u, t0, t, job, r, i, completed)
    requires Advanced(u, t, v, job, KeyOf(r, job.slices[i])) && !IsCompleted(t, KeyOf(r, job.slices[i]))
    ensures if IsCompleted(v, KeyOf(r, job.slices[i])) then LoopState(u, t0, v, job, r, i + 1, completed + 1)
            else LoopState(u, t0, v, job, r, i, completed)
  {
    var k := KeyOf(r, job.slices[i]);
    forall j | 0 <= j < |job.slices| && j != i
      ensures IsCompleted(v, KeyOf(r, job.slices[j])) == IsCompleted(t, KeyOf(r, job.slices[j]))
    {
      OthersKeepStatus(u, t, v, job, r, i, j);
    }
    CountStep(t, v, r, k);
  }

  /** One round of the loop, whether its slice was reached, worked on or completed. */
  lemma LoopRound(u: Upstream, t0: Tables, t: Tables, v: Tables, job: Job, r: RunKey, i: nat, completed: nat,
                  stored: bool)
    requires JobOk(job) && i < |job.slices| && LoopState(u, t0, t, job, r, i, completed)
    requires !IsCompleted(t0, KeyOf(r, job.slices[i])) && (stored <==> IsCompleted(v, KeyOf(r, job.slices[i])))
    requires v == t || Advanced(u, t, v, job, KeyOf(r, job.slices[i]))
    ensures LoopState(u, t0, v, job, r, if stored then i + 1 else i, if stored then completed + 1 else completed)
    ensures v.runs.Keys == t.runs.Keys
  {
    if v != t { LoopStep(u, t0, t, v, job, r, i, completed); }
  }

  lemma LoopStart(u: Upstream, t: Tables, job: Job, r: RunKey)
    requires AgreesOn(u, t, job) && Open(t, r, job.start, job.end)
    ensures LoopState(u, t, t, job, r, 0, |CompletedKeys(t.slices, r)|)
  {
  }

  /** Skipping a slice that was already listed as completed. */
  lemma LoopSkip(u: Upstream, t0: Tables, t: Tables, job: Job, r: RunKey, i: nat, completed: nat)
    requires i < |job.slices| && LoopState(u, t0, t, job, r, i, completed) && IsCompleted(t0, KeyOf(r, job.slices[i]))
    ensures LoopState(u, t0, t, job, r, i + 1, completed)
  {
  }

  /** Closing a run changes none of its slices. */
  lemma ClosingKeepsAgreement(u: Upstream, t: Tables, job: Job, r: RunKey, status: RunStatus, code: Option<string>)
    requires AgreesOn(u, t, job) && r in t.runs && t.runs[r].status == RunningRun
    ensures AgreesOn(u, t.(runs := t.runs[r := t.runs[r].(status := status, error := code)]), job)
  {
    var v := t.(runs := t.runs[r := t.runs[r].(status := status, error := code)]);
    forall k | k in v.slices && OfRange(v, k, job.profile, job.start, job.end)
      ensures (k.start, k.end) in job.slices
      ensures v.slices[k].status == CompletedSlice ==> SliceMatches(u, v.usage, job.profile, (k.start, k.end))
    {
      assert OfRange(t, k, job.profile, job.start, job.end);
    }
  }

  lemma CountStep(t: Tables, v: Tables, r: RunKey, k: SliceKey)
    requires k in v.slices && v.slices == t.slices[k := v.slices[k]] && !IsCompleted(t, k)
    requires k.profile == r.profile && k.run == r.run
    ensures |CompletedKeys(v.slices, r)| == |CompletedKeys(t.slices, r)| + if IsCompleted(v, k) then 1 else 0
  {
    if IsCompleted(v, k) {
      assert CompletedKeys(v.slices, r) == CompletedKeys(t.slices, r) + {k};
    } else {
      assert CompletedKeys(v.slices, r) == CompletedKeys(t.slices, r);
    }
  }

  function SliceKeys(r: RunKey, slices: seq<Interval>, n: nat): set<SliceKey>
    requires n <= |slices|
  {
    if n == 0 then {} else SliceKeys(r, slices, n - 1) + {KeyOf(r, slices[n - 1])}
  }

  lemma {:induction false} SliceKeysAre(r: RunKey, slices: seq<Interval>, n: nat, k: SliceKey)
    requires n <= |slices|
    ensures k in SliceKeys(r, slices, n) <==> exists i :: 0 <= i < n && k == KeyOf(r, slices[i])
  {
    if n > 0 { SliceKeysAre(r, slices, n - 1, k); }
  }

  lemma {:induction false} AsManyKeysAsSlices(job: Job, r: RunKey, n: nat)
    requires JobOk(job) && n <= |job.slices|
    ensures |SliceKeys(r, job.slices, n)| == n
  {
    if n > 0 {
      AsManyKeysAsSlices(job, r, n - 1);
      var last := KeyOf(r, job.slices[n - 1]);
      SliceKeysAre(r, job.slices, n - 1, last);
      forall i | 0 <= i < n - 1 ensures KeyOf(r, job.slices[i]) != last {
        SlicesAscend(job.slices, job.start, job.end, i, n - 1);
      }
      assert last !in SliceKeys(r, job.slices, n - 1);
    }
  }

  /** After the last slice: all of them match the upstream, the run is covered without a gap,
      and exactly as many slices as the range has days are counted. */
  lemma LoopDone(u: Upstream, t0: Tables, t: Tables, job: Job, r: RunKey, completed: nat)
    requires JobOk(job) && r.profile == job.profile && LoopState(u, t0, t, job, r, |job.slices|, completed)
    ensures FullyCovered(t, r) && completed == |job.slices|
    ensures forall i :: 0 <= i < |job.slices| ==> SliceMatches(u, t.usage, job.profile, job.slices[i])
  {
    DaySlicesCover(job.slices, job.start, job.end);
    forall x | job.start <= x < job.end ensures CompletedAt(t, r, x) {
      assert CoversPoint(job.slices, x);
      var i :| 0 <= i < |job.slices| && Contains(job.slices[i], x);
      assert IsCompleted(t, KeyOf(r, job.slices[i]));
      assert CompletedIn(t, r, job.slices[i]);
    }
    forall i | 0 <= i < |job.slices| ensures SliceMatches(u, t.usage, job.profile, job.slices[i]) {
      var k := KeyOf(r, job.slices[i]);
      assert IsCompleted(t, k) && OfRange(t, k, job.profile, job.start, job.end);
    }
    AsManyKeysAsSlices(job, r, |job.slices|);
    AllKeysCompleted(u, t, job, r);
  }

  lemma AllKeysCompleted(u: Upstream, t: Tables, job: Job, r: RunKey)
    requires AgreesOn(u, t, job) && Open(t, r, job.start, job.end) && r.profile == job.profile
    requires forall j :: 0 <= j < |job.slices| ==> IsCompleted(t, KeyOf(r, job.slices[j]))
    ensures CompletedKeys(t.slices, r) == SliceKeys(r, job.slices, |job.slices|)
  {
    forall k | k in CompletedKeys(t.slices, r) ensures k in SliceKeys(r, job.slices, |job.slices|) {
      SliceKeysAre(r, job.slices, |job.slices|, k);
      assert OfRange(t, k, job.profile, job.start, job.end);
      var i :| 0 <= i < |job.slices| && job.slices[i] == (k.start, k.end);
      assert k == KeyOf(r, job.slices[i]);
    }
    forall k | k in SliceKeys(r, job.slices, |job.slices|) ensures k in CompletedKeys(t.slices, r) {
      SliceKeysAre(r, job.slices, |job.slices|, k);
      var i :| 0 <= i < |job.slices| && k == KeyOf(r, job.slices[i]);
    }
  }

  // ---------------------------------------------------------------- the end result

  ghost predicate SameCountsAt(a: map<UsageKey, Row>, b: map<UsageKey, Row>, k: UsageKey) {
    (k in a <==> k in b) && (k in a ==> a[k].counts == b[k].counts)
  }

  /** Two tables that grew out of the same one and match the upstream on every slice hold the same token counts:
      however a completed sync was interrupted, it stored what an uninterrupted one would have. */
  lemma CompletedSyncsAgree(u: Upstream, before: map<UsageKey, Row>, a: map<UsageKey, Row>, b: map<UsageKey, Row>,
                            p: Profile, slices: seq<Interval>, k: UsageKey)
    requires SameOutside(before, a, p, slices) && SameOutside(before, b, p, slices)
    requires forall i :: 0 <= i < |slices| ==> SliceMatches(u, a, p, slices[i]) && SliceMatches(u, b, p, slices[i])
    ensures SameCountsAt(a, b, k)
  {
    if !Outside(k, p, slices) {
      var i :| 0 <= i < |slices| && Within(k.bucket, slices[i].0, slices[i].1);
      var client := Client(u, slices[i]);
      var n :| EndsAfter(client, n) && StoresSamples(a, p, slices[i], Records(client, n));
      var m :| EndsAfter(client, m) && StoresSamples(b, p, slices[i], Records(client, m));
      EndIsUnique(client, n, m, "");
      assert k == UsageKey(p, k.bucket);
    }
  }
}
