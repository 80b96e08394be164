/** The product-facing update service with its background operation (`update_runtime.py`), as a state machine
    whose steps are lock sections and single file writes. Any number of threads call in at any time. */
module UpdateRuntime {
  import opened Prelude
  import opened UpdateModel
  import SemVer

  /** What one `check` call is doing; `Applying` and later phases hold the service lock. */
  datatype Caller =
    | Fetching                   // idle seen, asking the source, no lock
    | Fetched(m: Manifest)       // source answered, waiting for the lock

  /** Who holds the lock across several steps. */
  datatype Section =
    | Free
    | Persisting(m: Manifest)                  // check: journal was finished, about to replace the cached manifest
    | Preparing(m: Manifest)                   // check: manifest cached, about to run engine.prepare
    | Consenting(op: Op, local: Journal)       // consent: journal loaded, about to write it back

  /** The background thread; it writes journals without holding the lock. */
  datatype Worker =
    | NoWorker
    | Starting(op: Op, m: Manifest)            // engine call begun, journal not loaded yet
    | Running(op: Op, local: Journal)          // journal loaded and matched; further writes start from `local`
    | Finished                                 // about to take the lock and clear the active operation

  datatype Service = Service(
    journal: Option<Journal>,
    cached: Option<Manifest>,
    log: History,
    active: Option<Op>,
    worker: Worker,
    section: Section,
    callers: map<nat, Caller>)

  /** The fingerprint function and the version of the running program. */
  datatype Env = Env(fingerprint: Manifest -> Hash, current: SemVer.Parsed)

  predicate FinishedJournal(j: Option<Journal>) { j.None? || Terminal(j.value.state) }

  predicate Idle(s: Service) { s.active.None? }

  function Logged(env: Env, s: Service, op: Op, j: Journal): Service {
    s.(journal := Some(j), log := Then(s.log, Entry(op, j, env.current)))
  }

  // ---------------------------------------------------------------- steps

  /** `check`, first lock section. */
  ghost predicate CheckBegins(s: Service, t: Service, id: nat) {
    s.section.Free? && Idle(s) && id !in s.callers && t == s.(callers := s.callers[id := Fetching])
  }

  /** The source answers with any authenticated manifest. */
  ghost predicate SourceAnswers(s: Service, t: Service, id: nat, m: Manifest) {
    id in s.callers && s.callers[id].Fetching? && t == s.(callers := s.callers[id := Fetched(m)])
  }

  /** `check`, second lock section: an unfinished journal ends the call, otherwise the manifest gets cached.
      The section does not look at the active operation again. */
  ghost predicate CheckApplies(s: Service, t: Service, id: nat) {
    s.section.Free? && id in s.callers && s.callers[id].Fetched? &&
    var rest := s.(callers := s.callers - {id});
    t == if FinishedJournal(s.journal) then rest.(section := Persisting(s.callers[id].m)) else rest
  }

  ghost predicate ManifestCached(s: Service, t: Service) {
    s.section.Persisting? && t == s.(cached := Some(s.section.m), section := Preparing(s.section.m))
  }

  /** `engine.prepare`; it loads the journal itself. */
  ghost predicate Prepared(env: Env, s: Service, t: Service, j: Journal) {
    && s.section.Preparing? && FinishedJournal(s.journal)
    && j.state == Available && j.plan.fingerprint == env.fingerprint(s.section.m)
    && t == Logged(env, s, DoPrepare, j).(section := Free)
  }

  /** Caching, preparing or consenting raises, or a call simply ends. */
  ghost predicate SectionFails(s: Service, t: Service) {
    !s.section.Free? && t == s.(section := Free)
  }

  ghost predicate CallerLeaves(s: Service, t: Service, id: nat) {
    id in s.callers && t == s.(callers := s.callers - {id})
  }

  /** `consent_download` and `consent_install`: idle check and journal load under the lock. */
  ghost predicate ConsentBegins(s: Service, t: Service, op: Op) {
    && s.section.Free? && Idle(s) && s.journal.Some? && (op == DoConsentDownload || op == DoConsentInstall)
    && t == s.(section := Consenting(op, s.journal.value))
  }

  ghost predicate ConsentWritten(env: Env, s: Service, t: Service, to: State) {
    && s.section.Consenting? && Allowed(s.section.op, s.section.local.state, to)
    && t == Logged(env, s, s.section.op, s.section.local.(state := to)).(section := Free)
  }

  /** `start_download`, `start_install`, `resume`: one lock section up to starting the thread. */
  ghost predicate Begins(env: Env, s: Service, t: Service, op: Op) {
    && s.section.Free? && Idle(s) && s.journal.Some? && s.cached.Some?
    && (|| (op == DoDownload && s.journal.value.state == DownloadConsented)
        || (op == DoInstall && s.journal.value.state == InstallConsented)
        || op == DoResume)
    && env.fingerprint(s.cached.value) == s.journal.value.plan.fingerprint
    && t == s.(active := Some(op), worker := Starting(op, s.cached.value))
  }

  /** The engine call loads the journal, checks its state and matches the manifest. */
  ghost predicate WorkerLoads(env: Env, s: Service, t: Service) {
    && s.worker.Starting? && s.journal.Some?
    && env.fingerprint(s.worker.m) == s.journal.value.plan.fingerprint
    && (s.worker.op == DoDownload ==> s.journal.value.state == DownloadConsented)
    && (s.worker.op == DoInstall ==> s.journal.value.state == InstallConsented)
    && t == s.(worker := Running(s.worker.op, s.journal.value))
  }

  /** The engine replaces the journal file from its own copy, whatever the file now holds. */
  ghost predicate WorkerWrites(env: Env, s: Service, t: Service, to: State) {
    && s.worker.Running? && Allowed(s.worker.op, s.worker.local.state, to)
    && var j := s.worker.local.(state := to);
       t == Logged(env, s, s.worker.op, j)
         .(worker := if s.worker.op == DoResume then Finished else Running(s.worker.op, j))
  }

  /** The engine call returns or raises at any point. */
  ghost predicate WorkerStops(s: Service, t: Service) {
    (s.worker.Starting? || s.worker.Running?) && t == s.(worker := Finished)
  }

  /** A failed download is followed by `engine.resume` with the cached manifest on the same thread. */
  ghost predicate DownloadRecovers(s: Service, t: Service) {
    && (s.worker.Starting? || s.worker.Running?) && s.worker.op == DoDownload && s.cached.Some?
    && t == s.(worker := Starting(DoResume, s.cached.value))
  }

  /** The thread takes the lock and clears the active operation. */
  ghost predicate WorkerEnds(s: Service, t: Service) {
    s.section.Free? && s.worker.Finished? && t == s.(active := None, worker := NoWorker)
  }

  /** The process dies and is started again: only the files survive. */
  ghost predicate Restarts(s: Service, t: Service) {
    t == s.(active := None, worker := NoWorker, section := Free, callers := map[])
  }

  /** Steps of `check` callers. */
  ghost predicate CheckStep(env: Env, s: Service, t: Service) {
    || (exists id :: CheckBegins(s, t, id))
    || (exists id, m :: SourceAnswers(s, t, id, m))
    || (exists id :: CheckApplies(s, t, id))
    || (exists id :: CallerLeaves(s, t, id))
    || ManifestCached(s, t)
    || (exists j :: Prepared(env, s, t, j))
    || SectionFails(s, t)
  }

  /** Steps of consents and of starting an operation, and the death of the process. */
  ghost predicate CommandStep(env: Env, s: Service, t: Service) {
    || (exists op :: ConsentBegins(s, t, op))
    || (exists to :: ConsentWritten(env, s, t, to))
    || (exists op :: Begins(env, s, t, op))
    || Restarts(s, t)
  }

  /** Steps of the background thread. */
  ghost predicate WorkerStep(env: Env, s: Service, t: Service) {
    || WorkerLoads(env, s, t)
    || (exists to :: WorkerWrites(env, s, t, to))
    || WorkerStops(s, t)
    || DownloadRecovers(s, t)
    || WorkerEnds(s, t)
  }

  ghost predicate Next(env: Env, s: Service, t: Service) {
    CheckStep(env, s, t) || CommandStep(env, s, t) || WorkerStep(env, s, t)
  }

  ghost predicate Initial(s: Service) {
    s == Service(None, s.cached, Empty, None, NoWorker, Free, map[])
  }

  // ---------------------------------------------------------------- the invariant

  /** No further write can come from this engine call. */
  predicate Spent(op: Op, state: State) {
    || Terminal(state) || state == ManualRecovery || state == Available
    || (op == DoResume && state == DownloadConsented)
    || (op == DoDownload && state == Staged)
  }

  lemma SpentMeansNoWrite(op: Op, state: State, to: State)
    requires Spent(op, state) && op in {DoDownload, DoInstall, DoResume}
    ensures !Allowed(op, state, to)
  {
  }

  /** The cached manifest belongs to the unfinished journal. */
  ghost predicate CacheAgrees(env: Env, s: Service) {
    FinishedJournal(s.journal) ||
    (s.cached.Some? && env.fingerprint(s.cached.value) == s.journal.value.plan.fingerprint)
  }

  /** The background thread's copy is the journal file, unless it will not write again. */
  ghost predicate WorkerOwns(s: Service) {
    && (s.worker.Running? || s.worker.Starting? ==>
          s.journal.Some? && (s.worker.op in {DoDownload, DoInstall, DoResume}))
    && (s.worker.Running? ==> s.journal == Some(s.worker.local) || Spent(s.worker.op, s.worker.local.state))
    && (!s.worker.NoWorker? ==> s.active.Some?)
  }

  ghost predicate SectionOk(s: Service) {
    match s.section
    case Free => true
    case Persisting(_) => FinishedJournal(s.journal)
    case Preparing(m) => FinishedJournal(s.journal) && s.cached == Some(m)
    case Consenting(op, local) =>
      Idle(s) && s.journal == Some(local) && (op == DoConsentDownload || op == DoConsentInstall)
  }

  ghost predicate Inv(env: Env, s: Service) {
    && CacheAgrees(env, s) && WorkerOwns(s) && SectionOk(s)
    && FollowsTable(s.log) && s.journal == LastJournal(s.log)
  }

  /** A write by `op` obeys the transition table with respect to the journal file itself. */
  ghost predicate Orderly(s: Service, t: Service) {
    t.log == s.log || (t.log.Then? && t.log.past == s.log && Edge(t.log.last.op, s.journal, t.log.last.journal))
  }

  lemma CheckKeepsInv(env: Env, s: Service, t: Service)
    requires Inv(env, s) && CheckStep(env, s, t)
    ensures Inv(env, t) && Orderly(s, t)
  {
  }

  lemma CommandKeepsInv(env: Env, s: Service, t: Service)
    requires Inv(env, s) && CommandStep(env, s, t)
    ensures Inv(env, t) && Orderly(s, t)
  {
  }

  lemma WorkerKeepsInv(env: Env, s: Service, t: Service)
    requires Inv(env, s) && WorkerStep(env, s, t)
    ensures Inv(env, t) && Orderly(s, t)
  {
    if to :| WorkerWrites(env, s, t, to) {
      if Spent(s.worker.op, s.worker.local.state) { SpentMeansNoWrite(s.worker.op, s.worker.local.state, to); }
    }
  }

  /** Every step of every thread keeps the invariant, and no step overwrites another thread's journal. */
  lemma StepKeepsInv(env: Env, s: Service, t: Service)
    requires Inv(env, s) && Next(env, s, t)
    ensures Inv(env, t) && Orderly(s, t)
  {
    if CheckStep(env, s, t) {
      CheckKeepsInv(env, s, t);
    } else if CommandStep(env, s, t) {
      CommandKeepsInv(env, s, t);
    } else {
      WorkerKeepsInv(env, s, t);
    }
  }

  ghost predicate IsRun(env: Env, run: seq<Service>) {
    run != [] && Initial(run[0]) && forall i :: 0 <= i < |run| - 1 ==> Next(env, run[i], run[i + 1])
  }

  lemma {:induction false} RunKeepsInv(env: Env, run: seq<Service>, n: nat)
    requires IsRun(env, run) && n < |run|
    ensures Inv(env, run[n])
  {
    if n > 0 {
      RunKeepsInv(env, run, n - 1);
      StepKeepsInv(env, run[n - 1], run[n]);
    }
  }

  /** In every interleaving: an unfinished journal and the cached manifest carry the same fingerprint, the journal
      file's history follows the transition table, and each write builds on the journal file it replaces. */
  lemma CacheMatchesJournal(env: Env, run: seq<Service>, n: nat)
    requires IsRun(env, run) && n < |run|
    ensures CacheAgrees(env, run[n]) && FollowsTable(run[n].log) && run[n].journal == LastJournal(run[n].log)
    ensures n + 1 < |run| ==> Orderly(run[n], run[n + 1])
  {
    RunKeepsInv(env, run, n);
    if n + 1 < |run| { StepKeepsInv(env, run[n], run[n + 1]); }
  }

  // ---------------------------------------------------------------- preparing beside a registered operation

  /** A fresh attempt lies in the journal and the registered operation has nothing left to write. */
  ghost predicate Quiet(s: Service) {
    && s.active.Some? && s.journal.Some? && s.journal.value.state == Available && s.section.Free?
    && (s.worker.Starting? || s.worker.Running? ==> s.worker.op in {DoDownload, DoInstall, DoResume})
    && (s.worker.Running? ==> Spent(s.worker.op, s.worker.local.state))
  }

  lemma PreparedIsQuiet(env: Env, s: Service, t: Service, j: Journal)
    requires Inv(env, s) && Prepared(env, s, t, j) && s.active.Some?
    ensures Quiet(t)
  {
  }

  /** Only the end of the operation, or of the process, ends the quiet. */
  lemma QuietStays(env: Env, s: Service, t: Service)
    requires Quiet(s) && Next(env, s, t)
    ensures t.active.Some? ==> Quiet(t) && t.journal == s.journal && t.log == s.log
  {
    if to :| WorkerWrites(env, s, t, to) { SpentMeansNoWrite(s.worker.op, s.worker.local.state, to); }
  }

  /** The operation stays registered from state `i` through state `j`. */
  ghost predicate Registered(run: seq<Service>, i: nat, j: nat) {
    forall k :: i <= k <= j && k < |run| ==> run[k].active.Some?
  }

  /** If `check` prepares a new attempt while a background operation is still registered, the fresh journal is what
      every later state of the run holds until that operation ends, and no step from any of them is a write of it. */
  lemma {:induction false} PrepareNeverInterleaves(env: Env, run: seq<Service>, i: nat, n: nat, j: Journal)
    requires IsRun(env, run) && i < n < |run| && Prepared(env, run[i], run[i + 1], j) && Registered(run, i, n)
    ensures Quiet(run[n]) && run[n].journal == Some(j) && run[n].log == run[i + 1].log
    ensures forall u, to :: !WorkerWrites(env, run[n], u, to)
  {
    assert run[i].active.Some? && run[n].active.Some?;
    if n == i + 1 {
      RunKeepsInv(env, run, i);
      PreparedIsQuiet(env, run[i], run[i + 1], j);
    } else {
      PrepareNeverInterleaves(env, run, i, n - 1, j);
      QuietStays(env, run[n - 1], run[n]);
    }
    forall u, to ensures !WorkerWrites(env, run[n], u, to) {
      if run[n].worker.Running? { SpentMeansNoWrite(run[n].worker.op, run[n].worker.local.state, to); }
    }
  }
}
