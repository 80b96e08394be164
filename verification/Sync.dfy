/** Resumable synchronization of one range, against an upstream that may fail and a process that may die at any step
    (`sync_service.py`, `upstream_adapter.py`). */
module Sync {
  import opened Prelude
  import opened Coverage
  import opened Pagination
  import opened UsageStore
  import opened SyncModel

  /** How a client call or a transaction can be disturbed. `Dies` covers a dead process and a database error,
      which both leave `sync` without another write. */
  datatype Strike = Proceeds | Raises(code: string) | Dies

  /** Why a slice was given up. */
  datatype Cause = ClientRaised(code: string) | BrokenContract(code: string) | CursorRepeated | NotStorable

  datatype Fetch =
    | Fetched(samples: seq<Sample>, pages: nat)
    | FetchFailed(cause: Cause, checkpoint: Option<Cursor>, pages: nat)
    | FetchLost

  /** The variables of the page loop. */
  datatype Loop = Loop(cursor: Option<Cursor>, seen: set<Cursor>, samples: seq<Sample>, pages: nat)

  datatype PageStep =
    | GotPage(page: Page<Sample>, checkpoint: Option<Cursor>)
    | PageFailed(cause: Cause, checkpoint: Option<Cursor>, pages: nat)
    | PageLost

  datatype SliceOutcome = SliceStored(pages: nat) | SliceFailed(cause: Cause) | SliceLost

  datatype SyncResult =
    | RangeRejected
    | Finished(run: RunKey, status: RunStatus, completed: nat, total: nat, pages: nat, cause: Option<Cause>)
    | Interrupted

  function ErrorCode(c: Cause): string {
    match c
    case ClientRaised(code) => code
    case BrokenContract(code) => code
    case CursorRepeated => "usage_cursor_repeated"
    case NotStorable => "sync_failed"
  }

  /** The cursor that `_CheckpointingClient` stores after a response. */
  function CheckpointOf(p: Payload<Sample>): Option<Cursor> {
    if p.nextPage.Text? && p.nextPage.c != "" then Some(p.nextPage.c) else None
  }

  predicate Storable(checkpoint: Option<Cursor>) { checkpoint.Some? ==> |checkpoint.value| <= MAX_CHECKPOINT }

  /** What one request may end in. */
  predicate PageResult(p: Payload<Sample>, step: PageStep, pages: nat) {
    match step
    case GotPage(page, checkpoint) => page == ReadPage(p) && checkpoint == CheckpointOf(p) && Storable(checkpoint)
    case PageFailed(ClientRaised(_), checkpoint, n) => checkpoint.None? && n == pages
    case PageFailed(NotStorable, checkpoint, n) =>
      checkpoint == CheckpointOf(p) && !Storable(checkpoint) && n == pages + 1
    case PageFailed(_, _, _) => false
    case PageLost => true
  }

  /** A success is the whole chain; a repeated cursor means the chain never ends, and a contract error is one of its
      pages. However a fetch ends, it made at most one request more than there are cursors. */
  ghost predicate FetchResult(client: Option<Cursor> -> Page<Sample>, bound: nat, f: Fetch) {
    match f
    case Fetched(samples, pages) => EndsAfter(client, pages) && samples == Records(client, pages) && pages <= bound + 1
    case FetchFailed(cause, checkpoint, pages) =>
      && pages <= bound + 1 && (Storable(checkpoint) || cause.NotStorable?)
      && (match cause
          case CursorRepeated => NeverEnds(client)
          case BrokenContract(code) => pages > 0 && BreaksWith(client, pages - 1, code)
          case NotStorable => !Storable(checkpoint)
          case ClientRaised(_) => true)
    case FetchLost => true
  }

  /** Neither a strike nor an unstorable cursor ended the fetch. */
  predicate ByTheChain(f: Fetch) {
    f.Fetched? || (f.FetchFailed? && (f.cause.CursorRepeated? || f.cause.BrokenContract?))
  }

  predicate DecidedByChain(f: Fetch) { ByTheChain(f) || (f.FetchFailed? && f.cause.NotStorable?) }

  predicate RepeatsCursor(f: Fetch) { f.FetchFailed? && f.cause.CursorRepeated? }

  predicate BreaksContract(f: Fetch) { f.FetchFailed? && f.cause.BrokenContract? }

  /** The outcome says exactly how the chain goes on: it ends, it never ends, or one of its pages breaks the
      contract. */
  ghost predicate Verdict(client: Option<Cursor> -> Page<Sample>, f: Fetch) {
    && (f.Fetched? <==> exists n: nat :: EndsAfter(client, n))
    && (RepeatsCursor(f) <==> NeverEnds(client))
    && (BreaksContract(f) <==> exists n: nat, code :: BreaksWith(client, n, code))
  }

  lemma ChainDecides(client: Option<Cursor> -> Page<Sample>, bound: nat, f: Fetch)
    requires FetchResult(client, bound, f)
    ensures ByTheChain(f) ==> Verdict(client, f)
  {
    if f.Fetched? {
      EndDecides(client, f.pages);
    } else if RepeatsCursor(f) {
      EndlessDecides(client);
    } else if BreaksContract(f) {
      BreakDecides(client, f.pages - 1, f.cause.code);
    }
  }

  lemma EndDecides(client: Option<Cursor> -> Page<Sample>, n: nat)
    requires EndsAfter(client, n)
    ensures !NeverEnds(client) && forall m: nat, code :: !BreaksWith(client, m, code)
  {
    EndIsUnique(client, n, n, "");
    forall m: nat, code ensures !BreaksWith(client, m, code) { EndIsUnique(client, n, m, code); }
  }

  lemma EndlessDecides(client: Option<Cursor> -> Page<Sample>)
    requires NeverEnds(client)
    ensures forall m: nat :: !EndsAfter(client, m)
    ensures forall m: nat, code :: !BreaksWith(client, m, code)
  {
    forall m: nat ensures !EndsAfter(client, m) { if EndsAfter(client, m) { EndIsUnique(client, m, m, ""); } }
    forall m: nat, code ensures !BreaksWith(client, m, code) { assert CursorAt(client, m + 1).Some?; }
  }

  lemma BreakDecides(client: Option<Cursor> -> Page<Sample>, n: nat, code: string)
    requires BreaksWith(client, n, code)
    ensures !NeverEnds(client) && forall m: nat :: !EndsAfter(client, m)
  {
    assert CursorAt(client, n + 1).None?;
    forall m: nat ensures !EndsAfter(client, m) { if EndsAfter(client, m) { EndIsUnique(client, m, n, code); } }
  }

  /** The slice is being fetched: its run is open for it and it is not completed. */
  ghost predicate Fetching(t: Tables, k: SliceKey) {
    SliceError(t, k).None? && k in t.slices && t.slices[k].status != CompletedSlice
  }

  /** What a finished call says about its run. */
  ghost predicate Reported(u: Upstream, t: Tables, job: Job, out: SyncResult)
  {
    && out.Finished? && out.run in t.runs && out.run.profile == job.profile
    && t.runs[out.run].status == out.status && t.runs[out.run].pages == out.pages
    && out.total == |job.slices| && out.completed == |CompletedKeys(t.slices, out.run)|
    && (match out.status
        case CompletedRun =>
          out.cause.None? && out.completed == out.total &&
          forall i :: 0 <= i < |job.slices| ==> SliceMatches(u, t.usage, job.profile, job.slices[i])
        case PartialRun => out.cause.Some? && out.completed > 0
        case FailedRun => out.cause.Some? && out.completed == 0
        case _ => false)
  }

  /** The reason why the loop stopped. */
  function CauseOf(stopped: SliceOutcome): Option<Cause> { if stopped.SliceFailed? then Some(stopped.cause) else None }

  function EndStatus(stopped: SliceOutcome, completed: nat): RunStatus {
    if CauseOf(stopped).None? then CompletedRun else if completed > 0 then PartialRun else FailedRun
  }

  /** The tables after the run was ended with the status that fits its loop. */
  function EndedRun(t: Tables, r: RunKey, stopped: SliceOutcome, completed: nat): Tables
    requires r in t.runs
  {
    var cause := CauseOf(stopped);
    var code := if cause.Some? then Some(ErrorCode(cause.value)) else None;
    t.(runs := t.runs[r := t.runs[r].(status := EndStatus(stopped, completed), error := code)])
  }

  /** How a call ends after its loop: with the run ended accordingly, or interrupted before it. */
  predicate Closes(t: Tables, v: Tables, r: RunKey, stopped: SliceOutcome, completed: nat, total: nat, out: SyncResult)
    requires r in t.runs
  {
    if out.Interrupted? then v == t
    else
      && v == EndedRun(t, r, stopped, completed)
      && out == Finished(r, EndStatus(stopped, completed), completed, total, v.runs[r].pages, CauseOf(stopped))
  }

  /** Closing the run after the loop makes the report true. */
  lemma CloseMakesReport(u: Upstream, t0: Tables, t: Tables, v: Tables, job: Job, r: RunKey, i: nat, completed: nat,
                         stopped: SliceOutcome, out: SyncResult)
    requires JobOk(job) && r.profile == job.profile && i <= |job.slices| && !stopped.SliceLost?
    requires LoopState(u, t0, t, job, r, i, completed) && (stopped.SliceStored? ==> i == |job.slices|)
    requires Closes(t, v, r, stopped, completed, |job.slices|, out)
    ensures AgreesOn(u, v, job) && v.usage == t.usage && v.slices == t.slices && v.runs.Keys == t.runs.Keys
    ensures out.Finished? <==> Reported(u, v, job, out)
    ensures out.Finished? && stopped.SliceStored? ==> Completed(out)
  {
    if out.Finished? {
      ClosingKeepsAgreement(u, t, job, r, v.runs[r].status, v.runs[r].error);
      if stopped.SliceStored? { LoopDone(u, t0, t, job, r, completed); }
    }
  }

  ghost predicate HasResumable(t: Tables, p: Profile, start: int, end: int) {
    exists r :: r in t.runs && r.profile == p && Resumable(t.runs[r], start, end)
  }

  /** The newest run of the range that was not completed. */
  ghost predicate Newest(t: Tables, p: Profile, start: int, end: int, r: RunKey) {
    && r in t.runs && r.profile == p && Resumable(t.runs[r], start, end)
    && forall q :: q in t.runs && q.profile == p && Resumable(t.runs[q], start, end) ==>
         !StartedAfter(t.runs[q], t.runs[r])
  }

  /** Which run a call works on: the newest unfinished one of the range, reopened, or else a new one. */
  ghost predicate Opened(t: Tables, v: Tables, p: Profile, start: int, end: int, resume: bool, newId: RunId, now: int,
                         r: RunKey) {
    && r.profile == p && Open(v, r, start, end) && v.usage == t.usage && v.slices == t.slices
    && if resume && HasResumable(t, p, start, end)
       then Newest(t, p, start, end, r) && v.runs == t.runs[r := t.runs[r].(status := RunningRun, error := None)]
       else r == RunKey(p, newId) && r !in t.runs &&
            v.runs == t.runs[r := Run(start, end, now, t.nextRow, RunningRun, 0, None)]
  }

  /** No run but this one was added. */
  ghost predicate OnlyRun(t: Tables, v: Tables, r: RunKey) { v.runs.Keys <= t.runs.Keys + {r} }

  class UsageSyncService {
    const db: Database
    const upstream: Upstream
    const profile: Profile
    const catalog: string
    /** How the environment disturbs the successive steps of this service; any script at all. */
    const strikes: nat -> Strike
    ghost const cursors: set<Cursor>
    /** How many steps there were. */
    var turn: nat

    ghost predicate Valid()
      reads db
    {
      db.Valid() && FiniteCursors(upstream, cursors)
    }

    constructor (db: Database, upstream: Upstream, profile: Profile, catalog: string, strikes: nat -> Strike,
                 ghost cursors: set<Cursor>)
      ensures this.db == db && this.upstream == upstream && this.profile == profile && this.catalog == catalog
      ensures this.strikes == strikes && this.cursors == cursors && turn == 0
    {
      this.db, this.upstream, this.profile, this.catalog, this.cursors := db, upstream, profile, catalog, cursors;
      this.strikes, turn := strikes, 0;
    }

    /** From this step on nothing disturbs the service. */
    ghost predicate Calm(from: nat) { forall i: nat :: i >= from ==> strikes(i).Proceeds? }

    method Disturb() returns (s: Strike)
      modifies this`turn
      ensures s == strikes(old(turn)) && turn == old(turn) + 1
    {
      s := strikes(turn);
      turn := turn + 1;
    }

    /** `_CheckpointingClient.get` and `_page`: one request, its checkpoint transaction, and the parsed page. Exactly
        the two strikes and a checkpoint that is too long can get in the way. */
    method FetchPage(k: SliceKey, cursor: Option<Cursor>, pages: nat) returns (step: PageStep)
      requires Valid() && ValidRange(k.start, k.end) && Fetching(db.Now(), k)
      modifies db`slices, db`runs, this`turn
      ensures Valid() && Progressed(old(db.Now()), db.Now(), k) && Fetching(db.Now(), k) && turn >= old(turn)
      ensures PageResult(upstream((k.start, k.end), cursor), step, pages)
      ensures step.GotPage? ==> db.slices[k] == SliceRow(InProgress, pages + 1, step.checkpoint, None)
      ensures !step.GotPage? ==> db.Now() == old(db.Now())
      ensures Calm(old(turn)) ==> step.GotPage? || (step.PageFailed? && step.cause.NotStorable?)
    {
      var strike := Disturb();
      if strike.Proceeds? {
        var payload := upstream((k.start, k.end), cursor);
        var checkpoint := CheckpointOf(payload);
        strike := Disturb();
        if strike.Dies? {
          step := PageLost;
        } else {
          ghost var t := db.Now();
          var row := SliceRow(InProgress, pages + 1, checkpoint, None);
          var error := db.RecordCheckpoint(k, row);
          if error.Some? {
            step := PageFailed(NotStorable, checkpoint, pages + 1);
          } else {
            CheckpointIsProgress(t, k, row, PageSum(RunSlices(db.slices, RunKey(k.profile, k.run))));
            step := GotPage(ReadPage(payload), checkpoint);
          }
        }
      } else {
        step := if strike.Dies? then PageLost else PageFailed(ClientRaised(strike.code), None, pages);
      }
    }

    /** `fetch_usage_slice` through `_CheckpointingClient`: exactly the upstream's page chain, or the reason why not,
        after at most one request more than there are cursors. Undisturbed and with cursors that can be stored, the
        chain alone decides. */
    method FetchSlice(k: SliceKey) returns (f: Fetch)
      requires Valid() && ValidRange(k.start, k.end) && Fetching(db.Now(), k)
      modifies db`slices, db`runs, this`turn
      ensures Valid() && Progressed(old(db.Now()), db.Now(), k) && Fetching(db.Now(), k) && turn >= old(turn)
      ensures FetchResult(Client(upstream, (k.start, k.end)), |cursors|, f)
      ensures Calm(old(turn)) ==> DecidedByChain(f)
      ensures Calm(old(turn)) && ShortCursors(upstream) ==> Verdict(Client(upstream, (k.start, k.end)), f)
    {
      ghost var client := Client(upstream, (k.start, k.end));
      ghost var t, began := db.Now(), turn;
      var loop := Loop(None, {}, [], 0);
      var checkpoint: Option<Cursor> := None;
      var result: Option<Fetch> := None;
      while result.None?
        invariant Valid() && Progressed(t, db.Now(), k) && Fetching(db.Now(), k) && turn >= began
        invariant Storable(checkpoint)
        invariant if result.None? then OnChain(client, loop) else FetchEnd(client, began, result.value)
        decreases result.None?, |cursors - loop.seen|
      {
        ghost var v, now := db.Now(), turn;
        loop, checkpoint, result := FetchNext(k, client, loop, checkpoint);
        ProgressAddsUp(t, v, db.Now(), k);
        if result.Some? { CalmLater(client, began, now, result.value); }
      }
      f := result.value;
    }

    ghost predicate FetchEnd(client: Option<Cursor> -> Page<Sample>, began: nat, f: Fetch) {
      && FetchResult(client, |cursors|, f)
      && (Calm(began) ==> DecidedByChain(f))
      && (Calm(began) && ShortCursors(upstream) ==> Verdict(client, f))
    }

    lemma CalmLater(client: Option<Cursor> -> Page<Sample>, began: nat, now: nat, f: Fetch)
      requires began <= now && FetchEnd(client, now, f)
      ensures FetchEnd(client, began, f)
    {
      if Calm(began) { assert Calm(now); }
    }

    /** One round of the page loop. */
    method FetchNext(k: SliceKey, ghost client: Option<Cursor> -> Page<Sample>, loop: Loop, before: Option<Cursor>)
      returns (after: Loop, checkpoint: Option<Cursor>, result: Option<Fetch>)
      requires Valid() && ValidRange(k.start, k.end) && Fetching(db.Now(), k)
      requires client == Client(upstream, (k.start, k.end)) && OnChain(client, loop) && Storable(before)
      modifies db`slices, db`runs, this`turn
      ensures Valid() && Progressed(old(db.Now()), db.Now(), k) && Fetching(db.Now(), k) && turn >= old(turn)
      ensures Storable(checkpoint)
      ensures if result.None? then OnChain(client, after) && |cursors - after.seen| < |cursors - loop.seen|
              else FetchEnd(client, old(turn), result.value)
    {
      after, checkpoint := loop, before;
      var step := FetchPage(k, loop.cursor, loop.pages);
      if step.GotPage? {
        checkpoint := step.checkpoint;
        after, result := Advance(client, loop, step.page, checkpoint);
      } else {
        PagesBounded(client, loop);
        result := Some(if step.PageLost? then FetchLost
                       else FetchFailed(step.cause, if step.cause.NotStorable? then step.checkpoint else before,
                                        step.pages));
      }
      if result.Some? { ChainDecides(client, |cursors|, result.value); }
    }

    /** The rest of one round of the page loop: collect the records, then stop or move to the next cursor. */
    method Advance(ghost client: Option<Cursor> -> Page<Sample>, loop: Loop, page: Page<Sample>,
                   checkpoint: Option<Cursor>)
      returns (after: Loop, result: Option<Fetch>)
      requires OnChain(client, loop) && page == client(loop.cursor) && Storable(checkpoint)
      requires page.Page? && page.next.Some? ==> page.next.value in cursors
      ensures if result.None? then OnChain(client, after) && |cursors - after.seen| < |cursors - loop.seen|
              else FetchResult(client, |cursors|, result.value) && ByTheChain(result.value)
    {
      after, result := loop, None;
      var pages := loop.pages + 1;
      if page.Invalid? {
        result := Some(FetchFailed(BrokenContract(page.code), checkpoint, pages));
        BrokenPage(client, loop, page, checkpoint);
      } else {
        var samples := loop.samples + page.records;
        if page.next.None? {
          result := Some(Fetched(samples, pages));
          LastPage(client, loop, page);
        } else if page.next.value in loop.seen {
          result := Some(FetchFailed(CursorRepeated, checkpoint, pages));
          RepeatedCursor(client, loop, page, checkpoint);
        } else {
          var next := page.next.value;
          after := Loop(Some(next), loop.seen + {next}, samples, pages);
          NextOnChain(client, loop, page, next);
        }
      }
    }

    lemma BrokenPage(client: Option<Cursor> -> Page<Sample>, loop: Loop, page: Page<Sample>, checkpoint: Option<Cursor>)
      requires OnChain(client, loop) && page == client(loop.cursor) && page.Invalid? && Storable(checkpoint)
      ensures FetchResult(client, |cursors|, FetchFailed(BrokenContract(page.code), checkpoint, loop.pages + 1))
    {
      PagesBounded(client, loop);
    }

    lemma LastPage(client: Option<Cursor> -> Page<Sample>, loop: Loop, page: Page<Sample>)
      requires OnChain(client, loop) && page == client(loop.cursor) && page.Page? && page.next.None?
      ensures FetchResult(client, |cursors|, Fetched(loop.samples + page.records, loop.pages + 1))
    {
      PagesBounded(client, loop);
      ChainStep(client, loop.pages, loop.cursor);
    }

    lemma RepeatedCursor(client: Option<Cursor> -> Page<Sample>, loop: Loop, page: Page<Sample>,
                         checkpoint: Option<Cursor>)
      requires OnChain(client, loop) && page == client(loop.cursor) && page.Page? && Storable(checkpoint)
      requires page.next.Some? && page.next.value in loop.seen
      ensures FetchResult(client, |cursors|, FetchFailed(CursorRepeated, checkpoint, loop.pages + 1))
    {
      PagesBounded(client, loop);
      ChainStep(client, loop.pages, loop.cursor);
      RepeatFound(client, loop.seen, loop.pages + 1, page.next.value);
    }

    /** The loop's variables after some pages of the chain. */
    ghost predicate OnChain(client: Option<Cursor> -> Page<Sample>, loop: Loop) {
      && loop.pages == |loop.seen| && loop.seen <= cursors
      && CursorAt(client, loop.pages) == Some(loop.cursor) && loop.samples == Records(client, loop.pages)
      && SeenAreCursors(client, loop.seen, loop.pages)
    }

    lemma NextOnChain(client: Option<Cursor> -> Page<Sample>, loop: Loop, page: Page<Sample>, next: Cursor)
      requires OnChain(client, loop) && page == client(loop.cursor) && page.Page? && page.next == Some(next)
      requires next in cursors && next !in loop.seen
      ensures OnChain(client, Loop(Some(next), loop.seen + {next}, loop.samples + page.records, loop.pages + 1))
      ensures |cursors - (loop.seen + {next})| < |cursors - loop.seen|
    {
      ChainStep(client, loop.pages, loop.cursor);
      SeenGrows(client, loop.seen, loop.pages + 1, next);
      OneFewer(cursors, loop.seen, next);
    }

    lemma PagesBounded(client: Option<Cursor> -> Page<Sample>, loop: Loop)
      requires OnChain(client, loop)
      ensures loop.pages <= |cursors|
    {
      ChainBound(loop.seen);
    }

    /** Everything that the completion of a call depends on besides the disturbances. */
    ghost predicate Promising(t: Tables, job: Job, resume: bool, newId: RunId, at: string) {
      && CanStore(job.slices) && at != ""
      && (RunKey(profile, newId) !in t.runs || (resume && HasResumable(t, profile, job.start, job.end)))
    }

    /** `sync` for one range. A call may end anywhere; whatever it leaves behind agrees with the upstream, and a call
        that reports completion has stored every day slice. An undisturbed call on a range whose page chains end reports
        it. */
    method Sync(start: int, end: int, resume: bool, newId: RunId, now: int, at: string, ghost job: Job)
      returns (out: SyncResult)
      requires Valid()
      requires ValidSyncRange(start, end) ==>
        JobOk(job) && job == Job(profile, start, end, job.slices) && AgreesOn(upstream, db.Now(), job)
      modifies db, this`turn
      ensures Valid() && KeepsCompleted(old(db.Now()), db.Now())
      ensures OnlyRun(old(db.Now()), db.Now(), RunKey(profile, newId))
      ensures out.RangeRejected? <==> !ValidSyncRange(start, end)
      ensures out.RangeRejected? ==> db.Now() == old(db.Now())
      ensures if out.RangeRejected? then turn == old(turn) else turn > old(turn)
      ensures !out.RangeRejected? ==>
        AgreesOn(upstream, db.Now(), job) && SameOutside(old(db.Now()).usage, db.Now().usage, profile, job.slices)
      ensures out.Finished? <==> Reported(upstream, db.Now(), job, out)
      ensures !out.RangeRejected? && Calm(old(turn)) && Promising(old(db.Now()), job, resume, newId, at) ==>
        Completed(out)
    {
      var slices := UtcDaySlices(start, end);
      if slices.None? {
        out := RangeRejected;
      } else {
        SlicesAreTheJobs(slices.value, job);
        var r := OpenRun(start, end, resume, newId, now, job);
        if r.None? {
          out := Interrupted;
        } else {
          ghost var t0 := db.Now();
          out := SyncOpened(r.value, slices.value, at, job);
          AgreementSpreads(old(db.Now()), t0, db.Now(), job);
        }
      }
    }

    /** The slices of an open run, and its end. */
    method SyncOpened(r: RunKey, slices: seq<Interval>, at: string, ghost job: Job) returns (out: SyncResult)
      requires Valid() && JobOk(job) && slices == job.slices && r.profile == job.profile
      requires AgreesOn(upstream, db.Now(), job) && Open(db.Now(), r, job.start, job.end)
      modifies db, this`turn
      ensures Valid() && AgreesOn(upstream, db.Now(), job) && KeepsCompleted(old(db.Now()), db.Now())
      ensures SameOutside(old(db.Now()).usage, db.Now().usage, job.profile, job.slices)
      ensures turn >= old(turn) && db.runs.Keys == old(db.runs).Keys
      ensures out.Interrupted? <==> !Reported(upstream, db.Now(), job, out)
      ensures Calm(old(turn)) && CanStore(slices) && at != "" ==> Completed(out)
    {
      var stopped, completed;
      ghost var i, t0 := 0, db.Now();
      stopped, completed, i := SyncSlices(r, slices, at, job);
      if stopped.SliceLost? {
        out := Interrupted;
      } else {
        ghost var t := db.Now();
        if stopped.SliceStored? { LoopDone(upstream, t0, t, job, r, completed); }
        out := CloseRun(r, stopped, completed, |slices|);
        CloseMakesReport(upstream, t0, t, db.Now(), job, r, i, completed, stopped, out);
      }
    }

    lemma SlicesAreTheJobs(slices: seq<Interval>, job: Job)
      requires JobOk(job) && DaySlices(slices, job.start, job.end)
      ensures slices == job.slices
    {
      var n := if |slices| < |job.slices| then |slices| else |job.slices|;
      DaySlicesUnique(slices, job.slices, job.start, job.end, n);
      assert slices[..n] == slices && job.slices[..n] == job.slices;
    }

    lemma AgreementSpreads(t: Tables, t0: Tables, v: Tables, job: Job)
      requires t0.usage == t.usage && t0.slices == t.slices
      requires KeepsCompleted(t0, v) && SameOutside(t0.usage, v.usage, job.profile, job.slices)
      ensures KeepsCompleted(t, v) && SameOutside(t.usage, v.usage, job.profile, job.slices)
    {
    }

    ghost predicate Unopenable(t: Tables, start: int, end: int, resume: bool, newId: RunId) {
      RunKey(profile, newId) in t.runs && !(resume && HasResumable(t, profile, start, end))
    }

    /** Resume the newest unfinished run of the range, or start one. */
    method OpenRun(start: int, end: int, resume: bool, newId: RunId, now: int, ghost job: Job)
      returns (r: Option<RunKey>)
      requires Valid() && ValidSyncRange(start, end) && JobOk(job) && job == Job(profile, start, end, job.slices)
      requires AgreesOn(upstream, db.Now(), job)
      modifies db`runs, db`nextRow, this`turn
      ensures Valid() && AgreesOn(upstream, db.Now(), job) && turn == old(turn) + 1
      ensures if r.Some? then Opened(old(db.Now()), db.Now(), profile, start, end, resume, newId, now, r.value)
              else db.Now() == old(db.Now())
      ensures r.None? <==> !strikes(old(turn)).Proceeds? || Unopenable(old(db.Now()), start, end, resume, newId)
    {
      var strike := Disturb();
      if !strike.Proceeds? { return None; }
      if resume {
        var found := db.FindResumable(profile, start, end);
        if found.Some? {
          assert Newest(db.Now(), profile, start, end, found.value);
          var refused := db.ResumeRun(found.value);
          assert refused.None?;
          return found;
        }
      }
      var error := db.StartRun(profile, newId, start, end, now);
      if error.Some? { return None; }
      r := Some(RunKey(profile, newId));
    }

    /** The loop over the day slices. Slices completed by an earlier call are skipped. */
    method SyncSlices(r: RunKey, slices: seq<Interval>, at: string, ghost job: Job)
      returns (stopped: SliceOutcome, completed: nat, ghost i: nat)
      requires Valid() && JobOk(job) && slices == job.slices && r.profile == job.profile
      requires AgreesOn(upstream, db.Now(), job) && Open(db.Now(), r, job.start, job.end)
      modifies db, this`turn
      ensures Valid() && i <= |slices| && LoopState(upstream, old(db.Now()), db.Now(), job, r, i, completed)
      ensures turn >= old(turn) && db.runs.Keys == old(db.runs).Keys
      ensures stopped.SliceStored? ==> i == |slices|
      ensures Calm(old(turn)) && CanStore(slices) && at != "" ==> stopped.SliceStored?
    {
      ghost var t0, began := db.Now(), turn;
      var prior := db.slices;
      completed := |CompletedKeys(prior, r)|;
      LoopStart(upstream, t0, job, r);
      stopped := SliceStored(0);
      var next := 0;
      while next < |slices| && stopped.SliceStored?
        invariant 0 <= next <= |slices| && Valid() && turn >= began && db.runs.Keys == t0.runs.Keys
        invariant LoopState(upstream, t0, db.Now(), job, r, next, completed)
        invariant Calm(began) && CanStore(slices) && at != "" ==> stopped.SliceStored?
        decreases |slices| - next, stopped.SliceStored?
      {
        var k := KeyOf(r, slices[next]);
        if k in prior && prior[k].status == CompletedSlice {
          LoopSkip(upstream, t0, db.Now(), job, r, next, completed);
          next := next + 1;
        } else {
          if CanStore(slices) { EachCanBeStored(slices, next); }
          stopped := SyncNext(r, slices[next], at, job, t0, next, completed);
          if stopped.SliceStored? { next, completed := next + 1, completed + 1; }
        }
      }
      i := next;
    }

    lemma EachCanBeStored(slices: seq<Interval>, i: nat)
      requires CanStore(slices) && i < |slices|
      ensures CanStore([slices[i]])
    {
    }

    /** The next slice of the loop, if it was not completed before. */
    method SyncNext(r: RunKey, iv: Interval, at: string, ghost job: Job, ghost t0: Tables, ghost next: nat,
                    ghost completed: nat)
      returns (stopped: SliceOutcome)
      requires Valid() && JobOk(job) && next < |job.slices| && iv == job.slices[next] && r.profile == job.profile
      requires LoopState(upstream, t0, db.Now(), job, r, next, completed) && !IsCompleted(t0, KeyOf(r, iv))
      modifies db, this`turn
      ensures Valid() && turn >= old(turn) && db.runs.Keys == old(db.runs).Keys
      ensures LoopState(upstream, t0, db.Now(), job, r, if stopped.SliceStored? then next + 1 else next,
                        if stopped.SliceStored? then completed + 1 else completed)
      ensures Calm(old(turn)) && CanStore([iv]) && at != "" ==> stopped.SliceStored?
    {
      ghost var t := db.Now();
      stopped := SyncSlice(r, iv, at, job);
      LoopRound(upstream, t0, t, db.Now(), job, r, next, completed, stopped.SliceStored?);
    }

    /** The slices can all be fetched and stored. */
    ghost predicate CanStore(slices: seq<Interval>) {
      AllBehave(upstream, slices) && ShortCursors(upstream) && catalog != ""
    }

    /** Ending an open run is never refused once its slices leave no gap. */
    method WriteEnd(r: RunKey, status: RunStatus, code: Option<string>)
      requires Valid() && r in db.runs && status != RunningRun && (status == CompletedRun ==> FullyCovered(db.Now(), r))
      modifies db`runs
      ensures Valid()
      ensures db.Now() == old(db.Now()).(runs := old(db.runs)[r := old(db.runs)[r].(status := status, error := code)])
    {
      var error := db.FinishRun(r, status, code);
      assert error.None?;
    }

    /** `finish_collection_run` and the result. */
    method CloseRun(r: RunKey, stopped: SliceOutcome, completed: nat, total: nat) returns (out: SyncResult)
      requires Valid() && r in db.runs && (stopped.SliceStored? ==> FullyCovered(db.Now(), r)) && !stopped.SliceLost?
      modifies db`runs, this`turn
      ensures Valid() && turn == old(turn) + 1
      ensures Closes(old(db.Now()), db.Now(), r, stopped, completed, total, out)
      ensures if strikes(old(turn)).Proceeds? then out.Finished? else out.Interrupted?
    {
      out := Interrupted;
      var strike := Disturb();
      if strike.Proceeds? {
        var cause := CauseOf(stopped);
        var status := EndStatus(stopped, completed);
        WriteEnd(r, status, if cause.Some? then Some(ErrorCode(cause.value)) else None);
        out := Finished(r, status, completed, total, db.runs[r].pages, cause);
      }
    }

    /** One slice of the loop in `sync`, up to but not including the end of the run. */
    method SyncSlice(r: RunKey, iv: Interval, at: string, ghost job: Job) returns (out: SliceOutcome)
      requires Valid() && JobOk(job) && r.profile == job.profile && iv in job.slices
      requires AgreesOn(upstream, db.Now(), job) && Open(db.Now(), r, job.start, job.end)
      requires !IsCompleted(db.Now(), KeyOf(r, iv))
      modifies db, this`turn
      ensures Valid() && AgreesOn(upstream, db.Now(), job) && turn >= old(turn)
      ensures db.Now() == old(db.Now()) || Advanced(upstream, old(db.Now()), db.Now(), job, KeyOf(r, iv))
      ensures out.SliceStored? <==> IsCompleted(db.Now(), KeyOf(r, iv))
      ensures Calm(old(turn)) && CanStore([iv]) && at != "" ==> out.SliceStored?
    {
      ghost var t := db.Now();
      var k := KeyOf(r, iv);
      SliceBounds(job, iv);
      var strike := Disturb();
      if !strike.Proceeds? { return SliceLost; }
      var error := db.RecordCheckpoint(k, SliceRow(InProgress, 0, None, None));
      CheckpointIsProgress(t, k, SliceRow(InProgress, 0, None, None), PageSum(RunSlices(db.slices, r)));
      ProgressAdvances(upstream, t, db.Now(), job, k);
      out := FillSlice(k, at, t, job);
    }

    /** Fetch and reconcile, or mark the slice failed. */
    method FillSlice(k: SliceKey, at: string, ghost t: Tables, ghost job: Job) returns (out: SliceOutcome)
      requires Valid() && JobOk(job) && k.profile == job.profile && (k.start, k.end) in job.slices
      requires ValidRange(k.start, k.end)
      requires Fetching(db.Now(), k) && Advanced(upstream, t, db.Now(), job, k)
      modifies db, this`turn
      ensures Valid() && Advanced(upstream, t, db.Now(), job, k) && turn >= old(turn)
      ensures out.SliceStored? <==> IsCompleted(db.Now(), k)
      ensures Calm(old(turn)) && CanStore([(k.start, k.end)]) && at != "" ==> out.SliceStored?
    {
      ghost var v := db.Now();
      var f := FetchSlice(k);
      ProgressAdvances(upstream, v, db.Now(), job, k);
      AdvancesAddUp(upstream, t, v, db.Now(), job, k);
      if f.Fetched? {
        out := KeepFetched(k, f.samples, f.pages, at, t, job);
      } else if f.FetchLost? {
        out := SliceLost;
      } else {
        out := MarkFailed(k, f.cause, f.checkpoint, f.pages, t, job);
      }
      if CanStore([(k.start, k.end)]) && at != "" { BehavesIsFetched([(k.start, k.end)], f); }
    }

    /** In a behaving slice the undisturbed fetch succeeds. */
    lemma BehavesIsFetched(slices: seq<Interval>, f: Fetch)
      requires |slices| == 1 && AllBehave(upstream, slices)
      ensures Verdict(Client(upstream, slices[0]), f) ==> f.Fetched?
    {
      assert Behaves(upstream, slices[0]);
    }

    /** A complete fetch: reconcile it, or mark the slice failed if its records are refused. */
    method KeepFetched(k: SliceKey, samples: seq<Sample>, pages: nat, at: string, ghost t: Tables, ghost job: Job)
      returns (out: SliceOutcome)
      requires Valid() && JobOk(job) && k.profile == job.profile && (k.start, k.end) in job.slices
      requires ValidRange(k.start, k.end)
      requires Fetching(db.Now(), k) && Advanced(upstream, t, db.Now(), job, k)
      requires EndsAfter(Client(upstream, (k.start, k.end)), pages)
      requires samples == Records(Client(upstream, (k.start, k.end)), pages)
      modifies db, this`turn
      ensures Valid() && Advanced(upstream, t, db.Now(), job, k) && turn >= old(turn)
      ensures out.SliceStored? <==> IsCompleted(db.Now(), k)
      ensures Calm(old(turn)) && CanStore([(k.start, k.end)]) && at != "" ==> out.SliceStored?
    {
      if CanStore([(k.start, k.end)]) && at != "" { AcceptedIfBehaving([(k.start, k.end)], pages, at); }
      var strike := Disturb();
      if strike.Dies? {
        out := SliceLost;
      } else {
        var stored := StoreSlice(k, samples, pages, at, t, job);
        if stored { out := SliceStored(pages); } else { out := MarkFailed(k, NotStorable, None, pages, t, job); }
      }
    }

    lemma AcceptedIfBehaving(slices: seq<Interval>, pages: nat, at: string)
      requires |slices| == 1 && CanStore(slices) && at != "" && EndsAfter(Client(upstream, slices[0]), pages)
      ensures AllValid(Stamped(Records(Client(upstream, slices[0]), pages), catalog, at), slices[0].0, slices[0].1)
    {
      BehavesThroughout(upstream, slices[0], pages);
      ValidSamplesStamped(Records(Client(upstream, slices[0]), pages), catalog, at, slices[0]);
    }

    method StoreSlice(k: SliceKey, samples: seq<Sample>, pages: nat, at: string, ghost t: Tables, ghost job: Job)
      returns (stored: bool)
      requires Valid() && JobOk(job) && k.profile == job.profile && (k.start, k.end) in job.slices
      requires ValidRange(k.start, k.end)
      requires Fetching(db.Now(), k) && Advanced(upstream, t, db.Now(), job, k)
      requires EndsAfter(Client(upstream, (k.start, k.end)), pages)
      requires samples == Records(Client(upstream, (k.start, k.end)), pages)
      modifies db
      ensures Valid() && Advanced(upstream, t, db.Now(), job, k)
      ensures stored <==> AllValid(Stamped(samples, catalog, at), k.start, k.end)
      ensures if stored then db.slices[k] == SliceRow(CompletedSlice, pages, None, None) else db.Now() == old(db.Now())
    {
      ghost var v := db.Now();
      var records := Stamped(samples, catalog, at);
      var result := db.ReconcileSlice(k, records, pages);
      stored := result.Ok?;
      if stored {
        ReconcileAdvances(upstream, v, db.Now(), job, k, pages, catalog, at,
                          PageSum(RunSlices(db.slices, RunKey(k.profile, k.run))));
        AdvancesAddUp(upstream, t, v, db.Now(), job, k);
      }
    }

    /** The failure path: record what was reached. A checkpoint too long to store makes this fail as well. */
    method MarkFailed(k: SliceKey, cause: Cause, checkpoint: Option<Cursor>, pages: nat, ghost t: Tables,
                      ghost job: Job)
      returns (out: SliceOutcome)
      requires Valid() && k.profile == job.profile && (k.start, k.end) in job.slices && ValidRange(k.start, k.end)
      requires Fetching(db.Now(), k) && Advanced(upstream, t, db.Now(), job, k)
      modifies db`slices, db`runs, this`turn
      ensures Valid() && Advanced(upstream, t, db.Now(), job, k) && !IsCompleted(db.Now(), k) && turn >= old(turn)
      ensures if strikes(old(turn)).Dies? || !Storable(checkpoint)
              then out.SliceLost? && db.Now() == old(db.Now())
              else out == SliceFailed(cause) &&
                   db.slices[k] == SliceRow(FailedSlice, pages, checkpoint, Some(ErrorCode(cause)))
    {
      var strike := Disturb();
      if strike.Dies? { return SliceLost; }
      ghost var v := db.Now();
      var row := SliceRow(FailedSlice, pages, checkpoint, Some(ErrorCode(cause)));
      var error := db.RecordCheckpoint(k, row);
      if error.Some? { return SliceLost; }
      CheckpointIsProgress(v, k, row, PageSum(RunSlices(db.slices, RunKey(k.profile, k.run))));
      ProgressAdvances(upstream, v, db.Now(), job, k);
      AdvancesAddUp(upstream, t, v, db.Now(), job, k);
      out := SliceFailed(cause);
    }

    lemma ChainBound(seen: set<Cursor>)
      requires seen <= cursors
      ensures |seen| <= |cursors|
    {
      assert |cursors| == |seen| + |cursors - seen| by { assert cursors == seen + (cursors - seen); }
    }
  }

  /** Every cursor seen so far was handed out by one of the pages so far. */
  ghost predicate SeenAreCursors(client: Option<Cursor> -> Page<Sample>, seen: set<Cursor>, pages: nat) {
    forall c :: c in seen ==> exists i: nat :: i <= pages && CursorAt(client, i) == Some(Some(c))
  }

  lemma ChainStep(client: Option<Cursor> -> Page<Sample>, n: nat, cursor: Option<Cursor>)
    requires CursorAt(client, n) == Some(cursor) && client(cursor).Page?
    ensures Records(client, n + 1) == Records(client, n) + client(cursor).records
    ensures client(cursor).next.Some? ==> CursorAt(client, n + 1) == Some(client(cursor).next)
    ensures client(cursor).next.None? ==> EndsAfter(client, n + 1)
  {
  }

  lemma OneFewer(all: set<Cursor>, seen: set<Cursor>, c: Cursor)
    requires c in all && c !in seen
    ensures |all - (seen + {c})| < |all - seen| && |seen + {c}| == |seen| + 1
  {
    assert all - seen == (all - (seen + {c})) + {c};
  }

  lemma SeenGrows(client: Option<Cursor> -> Page<Sample>, seen: set<Cursor>, pages: nat, c: Cursor)
    requires pages > 0 && SeenAreCursors(client, seen, pages - 1) && CursorAt(client, pages) == Some(Some(c))
    ensures SeenAreCursors(client, seen + {c}, pages)
  {
    forall d | d in seen + {c} ensures exists i: nat :: i <= pages && CursorAt(client, i) == Some(Some(d)) {
      if d in seen {
        var i: nat :| i <= pages - 1 && CursorAt(client, i) == Some(Some(d));
      }
    }
  }

  lemma RepeatFound(client: Option<Cursor> -> Page<Sample>, seen: set<Cursor>, pages: nat, c: Cursor)
    requires pages > 0 && SeenAreCursors(client, seen, pages - 1) && CursorAt(client, pages) == Some(Some(c))
    requires c in seen
    ensures Pagination.NeverEnds(client)
  {
    var i: nat :| i <= pages - 1 && CursorAt(client, i) == Some(Some(c));
    forall k: nat ensures CursorAt(client, k).Some? { RepeatMeansNeverEnds(client, i, pages, k); }
  }

  /** One call of `sync`: whether to resume, and the identifier, clock and time text it would use. */
  datatype Attempt = Attempt(resume: bool, newId: RunId, now: int, at: string)

  predicate Completed(out: SyncResult) { out.Finished? && out.status == CompletedRun }

  /** Nothing disturbs the service any more after `quiet` further steps, the page chains of the range end, and every
      attempt has an identifier of its own. */
  ghost predicate Settles(s: UsageSyncService, job: Job, t: Tables, attempts: seq<Attempt>, from: nat, quiet: nat) {
    s.Calm(from + quiet) && s.CanStore(job.slices) && OwnIds(t, s.profile, attempts)
  }

  /** Every attempt would start its run under an identifier of its own. */
  ghost predicate OwnIds(t: Tables, p: Profile, attempts: seq<Attempt>) {
    && (forall i :: 0 <= i < |attempts| ==> RunKey(p, attempts[i].newId) !in t.runs && attempts[i].at != "")
    && (forall i, j :: 0 <= i < j < |attempts| ==> attempts[i].newId != attempts[j].newId)
  }

  /** Any number of calls on one range, each interrupted anywhere, resumed or not: once the last one reports completion,
      the tables are the initial ones with exactly the upstream's rows in every day slice. And if the disturbances stop
      after `quiet` steps and the page chains end, the last of more than `quiet` calls does report it. */
  method SyncRepeatedly(s: UsageSyncService, start: int, end: int, attempts: seq<Attempt>, ghost job: Job,
                        ghost quiet: nat)
    returns (last: SyncResult)
    requires s.Valid() && ValidSyncRange(start, end)
    requires JobOk(job) && job == Job(s.profile, start, end, job.slices) && AgreesOn(s.upstream, s.db.Now(), job)
    modifies s.db, s`turn
    ensures s.Valid() && AgreesOn(s.upstream, s.db.Now(), job) && KeepsCompleted(old(s.db.Now()), s.db.Now())
    ensures SameOutside(old(s.db.Now()).usage, s.db.Now().usage, s.profile, job.slices)
    ensures Completed(last) ==> Stored(s, job)
    ensures Settles(s, job, old(s.db.Now()), attempts, old(s.turn), quiet) && |attempts| > quiet ==> Completed(last)
  {
    last := Interrupted;
    ghost var t, began := s.db.Now(), s.turn;
    var i := 0;
    while i < |attempts|
      invariant 0 <= i <= |attempts|
      invariant s.Valid() && AgreesOn(s.upstream, s.db.Now(), job) && KeepsCompleted(t, s.db.Now())
      invariant SameOutside(t.usage, s.db.Now().usage, s.profile, job.slices)
      invariant Completed(last) ==> Stored(s, job)
      invariant s.turn >= began + i
      invariant Settles(s, job, t, attempts, began, quiet) && i > quiet ==> Completed(last)
      invariant forall r ::
        r in s.db.runs ==> r in t.runs || exists j :: 0 <= j < i && r == RunKey(s.profile, attempts[j].newId)
    {
      var a := attempts[i];
      last := s.Sync(start, end, a.resume, a.newId, a.now, a.at, job);
      i := i + 1;
    }
  }

  ghost predicate Stored(s: UsageSyncService, job: Job)
    reads s.db
  {
    forall i :: 0 <= i < |job.slices| ==> SliceMatches(s.upstream, s.db.Now().usage, s.profile, job.slices[i])
  }

  lemma SliceBounds(job: Job, iv: Interval)
    requires JobOk(job) && iv in job.slices
    ensures job.start <= iv.0 < iv.1 <= job.end && ValidRange(iv.0, iv.1)
  {
    var i :| 0 <= i < |job.slices| && job.slices[i] == iv;
    if i > 0 { SlicesAscend(job.slices, job.start, job.end, 0, i); }
    SliceEnd(job.slices, job.start, job.end, i);
  }
}
