/** The state an update leaves behind between two disk steps, and its safety invariant. */
module UpdateWorld {
  import opened Prelude
  import opened UpdateModel
  import SemVer

  datatype Installer = AtomicFile | FailClosed

  /** What the cache files of one download are rewritten to. */
  datatype Corruption = Corruption(token: nat, partial: Option<Bytes>, staged: Option<Bytes>)

  /** What the environment does at one step of the engine, and how the step ends. */
  datatype Move = Move(corruption: Option<Corruption>, fate: Fate)

  predicate Struck(m: Move) { m.corruption.Some? || !m.fate.Done? }

  /** What stays the same over a run: SHA-256 as any function on bytes, the fingerprint as any function on manifests,
      and what the environment will do, as any script: its move at every step, what the downloader leaves each time it
      is asked, and the verdict of each health check. */
  datatype Setting = Setting(
    platform: Platform, installer: Installer, digest: Bytes -> Hash, fingerprint: Manifest -> Hash,
    moves: nat -> Move, downloads: nat -> Option<Bytes>, verdicts: nat -> bool)

  /** How an attempt began: the counters, what the installed file held, and the manifest it was prepared from. */
  datatype Start = Start(
    turn: nat, fetches: nat, faults: nat, before: Option<Bytes>, prepared: Option<Manifest>)

  /** Disk contents, and the history that the theorems speak about. */
  datatype World = World(
    journal: Option<Journal>,
    files: map<Path, Bytes>,
    nextToken: nat,               // the next random token; a counter stands for uuid4
    log: History,                 // every journal ever written
    mark: History,                // some earlier point of it
    turn: nat,                    // steps, downloads and health checks so far
    fetches: nat,
    checks: nat,
    faults: nat,                  // crashes, failing steps, bad downloads and cache corruption so far
    start: Start,                 // when the current attempt was prepared
    passed: set<(nat, SemVer.Parsed, Bytes)>)  // passed health checks: attempt, expected version, installed bytes

  function Read(files: map<Path, Bytes>, p: Path): Option<Bytes> {
    if p in files then Some(files[p]) else None
  }

  function Put(files: map<Path, Bytes>, p: Path, content: Option<Bytes>): (r: map<Path, Bytes>)
    ensures Read(r, p) == content
    ensures forall q :: q != p ==> Read(r, q) == Read(files, q)
  {
    if content.Some? then files[p := content.value] else files - {p}
  }

  /** Only downloaded files in the cache directory may differ. */
  ghost predicate SameOutsideCache(a: map<Path, Bytes>, b: map<Path, Bytes>) {
    forall p: Path :: p.Target? || p.Backup? ==> Read(a, p) == Read(b, p)
  }

  /** Bytes with the size and digest that the manifest signed. */
  predicate Good(s: Setting, content: Option<Bytes>, plan: Plan) {
    content.Some? && |content.value| == plan.size && s.digest(content.value) == plan.sha256
  }

  ghost predicate CollisionFree(s: Setting) {
    forall a, b :: s.fingerprint(a) == s.fingerprint(b) ==> a == b
  }

  /** The installed file is either untouched or exactly the signed artifact. */
  ghost predicate TargetSafe(s: Setting, w: World, plan: Plan) {
    Read(w.files, Target) == w.start.before || Good(s, Read(w.files, Target), plan)
  }

  /** What each journal state says about the installed file and its backup. */
  ghost predicate DiskOk(s: Setting, w: World, j: Journal) {
    var target, backup := Read(w.files, Target), Read(w.files, Backup(j.plan.token));
    match j.state
    case Available | DownloadConsented | Downloading | Verified | Staged | InstallConsented =>
      target == w.start.before && backup.None?
    case Installing | HealthCheck =>
      && TargetSafe(s, w, j.plan)
      && (backup.None? ==> target == w.start.before) && (backup.Some? ==> backup == w.start.before)
    case Committed =>
      Good(s, target, j.plan) && (j.plan.token, j.plan.version, target.value) in w.passed
    case RolledBack => target == w.start.before
    case ManualRecovery => TargetSafe(s, w, j.plan)
  }

  ghost predicate HistoryOk(s: Setting, w: World) {
    && w.journal == LastJournal(w.log)
    && FollowsTable(w.log)
    && Continues(w.mark, w.log)
    && PreparesNewer(w.log)
    && (CollisionFree(s) ==> Newer(w.log))
  }

  /** The plan describes the artifact that this manifest offers this platform. */
  ghost predicate PreparedFrom(s: Setting, m: Manifest, plan: Plan) {
    m.channel == s.platform.channel &&
    var a := PlatformArtifact(m, s.platform); a.Some? && Describes(plan, a.value)
  }

  ghost predicate JournalOk(s: Setting, w: World, j: Journal) {
    && j.plan.token < w.nextToken
    && w.start.prepared.Some?
    && j.plan.fingerprint == s.fingerprint(w.start.prepared.value)
    && j.plan.version == w.start.prepared.value.version
    && PreparedFrom(s, w.start.prepared.value, j.plan)
    && DiskOk(s, w, j)
    && (s.installer.FailClosed? ==> Read(w.files, Target) == w.start.before)
  }

  /** Holds after every single disk step, so also wherever the process may die. */
  ghost predicate Safe(s: Setting, w: World) {
    && HistoryOk(s, w)
    && (forall t: nat :: t >= w.nextToken ==> Read(w.files, Backup(t)).None?)
    && (w.journal.Some? ==> JournalOk(s, w, w.journal.value))
    && Explained(s, w)
  }

  /** The steps from `i` up to `j` at which the environment struck. */
  function Strikes(s: Setting, i: nat, j: nat): nat {
    if j <= i then 0 else Strikes(s, i, j - 1) + if Struck(s.moves(j - 1)) then 1 else 0
  }

  /** The downloads from `i` up to `j` that leave anything but the signed artifact. */
  function BadDownloads(s: Setting, plan: Plan, i: nat, j: nat): nat {
    if j <= i then 0 else BadDownloads(s, plan, i, j - 1) + if Good(s, s.downloads(j - 1), plan) then 0 else 1
  }

  /** The faults of the current attempt are exactly what the environment's script says. */
  ghost predicate Explained(s: Setting, w: World) {
    && w.start.turn <= w.turn && w.start.fetches <= w.fetches
    && w.faults == w.start.faults + Strikes(s, w.start.turn, w.turn) + BadSoFar(s, w)
  }

  function BadSoFar(s: Setting, w: World): nat {
    if w.journal.Some? then BadDownloads(s, w.journal.value.plan, w.start.fetches, w.fetches) else 0
  }

  /** A state that only a fault explains between two engine calls. */
  ghost predicate Owed(s: Setting, w: World) {
    w.journal.Some? &&
    var j := w.journal.value;
    || j.state == Downloading || j.state == Verified
    || ((j.state == Staged || j.state == InstallConsented) && !Good(s, Read(w.files, StagedFile(j.plan.token)), j.plan))
  }

  /** Every setback of the current attempt has been paid for by a fault. */
  ghost predicate Accounted(s: Setting, w: World) {
    w.faults >= w.start.faults + Setbacks(w.log) + (if Owed(s, w) then 1 else 0)
  }

  // ---------------------------------------------------------------- single steps

  ghost predicate Onward(w: World, v: World) { w.faults <= v.faults && w.turn <= v.turn }

  /** Only downloaded files and the counters of steps, downloads and faults may differ. */
  ghost predicate CacheStep(w: World, v: World) {
    && SameOutsideCache(w.files, v.files)
    && v == w.(files := v.files, turn := v.turn, fetches := v.fetches, faults := v.faults)
    && Onward(w, v) && w.fetches <= v.fetches
  }

  lemma CacheStepKeepsSafe(s: Setting, w: World, v: World)
    requires Safe(s, w) && CacheStep(w, v) && Explained(s, v)
    ensures Safe(s, v)
  {
    forall t: nat | t >= v.nextToken ensures Read(v.files, Backup(t)).None? {
      assert Read(w.files, Backup(t)).None?;
    }
    if w.journal.Some? { DiskOkAfterCacheStep(s, w, v, w.journal.value); }
  }

  lemma DiskOkAfterCacheStep(s: Setting, w: World, v: World, j: Journal)
    requires CacheStep(w, v)
    ensures DiskOk(s, w, j) == DiskOk(s, v, j)
    ensures Read(w.files, Target) == Read(v.files, Target)
  {
    assert Read(w.files, Target) == Read(v.files, Target);
    assert Read(w.files, Backup(j.plan.token)) == Read(v.files, Backup(j.plan.token));
  }

  /** One step of the environment is explained by its move, and by its download if there was one. */
  lemma StepIsExplained(s: Setting, w: World, v: World, fetched: bool)
    requires Explained(s, w) && v.turn == w.turn + 1 && v.fetches == w.fetches + (if fetched then 1 else 0)
    requires v.journal == w.journal && v.start == w.start
    requires fetched ==> w.journal.Some?
    requires v.faults == w.faults + (if Struck(s.moves(w.turn)) then 1 else 0) +
                         if fetched && !Good(s, s.downloads(w.fetches), w.journal.value.plan) then 1 else 0
    ensures Explained(s, v)
  {
  }

  /** From `w` to `v` exactly the faults were counted that the script has for an attempt with this plan. */
  ghost predicate Accountable(s: Setting, plan: Plan, w: World, v: World) {
    && w.turn <= v.turn && w.fetches <= v.fetches
    && v.faults == w.faults + Strikes(s, w.turn, v.turn) + BadDownloads(s, plan, w.fetches, v.fetches)
  }

  /** Within one attempt this is so between any two states. */
  lemma SafeIsAccountable(s: Setting, plan: Plan, w: World, v: World)
    requires Explained(s, w) && Explained(s, v) && w.turn <= v.turn && w.fetches <= v.fetches
    requires w.journal.Some? && v.journal.Some? && w.journal.value.plan == v.journal.value.plan == plan
    requires v.start == w.start
    ensures Accountable(s, plan, w, v)
  {
    StrikesAdd(s, w.start.turn, w.turn, v.turn);
    BadDownloadsAdd(s, plan, w.start.fetches, w.fetches, v.fetches);
  }

  lemma {:induction false} StrikesAdd(s: Setting, i: nat, j: nat, k: nat)
    requires i <= j <= k
    ensures Strikes(s, i, k) == Strikes(s, i, j) + Strikes(s, j, k)
    decreases k
  {
    if k > j { StrikesAdd(s, i, j, k - 1); }
  }

  lemma {:induction false} BadDownloadsAdd(s: Setting, plan: Plan, i: nat, j: nat, k: nat)
    requires i <= j <= k
    ensures BadDownloads(s, plan, i, k) == BadDownloads(s, plan, i, j) + BadDownloads(s, plan, j, k)
    decreases k
  {
    if k > j { BadDownloadsAdd(s, plan, i, j, k - 1); }
  }

  lemma AccountableAddsUp(s: Setting, plan: Plan, u: World, w: World, v: World)
    requires Accountable(s, plan, u, w) && Accountable(s, plan, w, v)
    ensures Accountable(s, plan, u, v)
  {
    StrikesAdd(s, u.turn, w.turn, v.turn);
    BadDownloadsAdd(s, plan, u.fetches, w.fetches, v.fetches);
  }

  /** From this step on the environment leaves the engine alone. */
  ghost predicate Undisturbed(s: Setting, from: nat) { forall k: nat :: k >= from ==> !Struck(s.moves(k)) }

  lemma {:induction false} NoStrikes(s: Setting, i: nat, j: nat)
    requires Undisturbed(s, i)
    ensures Strikes(s, i, j) == 0
    decreases j
  {
    if j > i { NoStrikes(s, i, j - 1); }
  }

  /** `v` is `w` after the journal was rewritten by `op`. */
  ghost predicate Wrote(w: World, v: World, op: Op, j: Journal, current: SemVer.Parsed) {
    v == w.(journal := Some(j), log := Then(w.log, Entry(op, j, current)))
  }

  lemma WroteKeepsSafe(s: Setting, w: World, v: World, op: Op, j: Journal, current: SemVer.Parsed)
    requires Safe(s, w) && Wrote(w, v, op, j, current)
    requires op != DoPrepare && Edge(op, w.journal, j)
    requires op != DoConsentDownload && CollisionFree(s) ==> IsNewer(j.plan.version, current)
    requires DiskOk(s, w, j)
    ensures Safe(s, v)
    ensures Setbacks(v.log) == Setbacks(w.log) + if op == DoResume && j.state == DownloadConsented then 1 else 0
  {
  }

  /** A fault since `w` pays for whatever state the attempt is left in. */
  lemma FaultPays(s: Setting, w: World, v: World)
    requires Accounted(s, w) && v.faults >= w.faults
    requires v.faults > w.faults || (Owed(s, v) ==> Owed(s, w))
    requires v.start == w.start && Setbacks(v.log) == Setbacks(w.log)
    ensures Accounted(s, v)
  {
  }

  /** Throwing an attempt back to downloading is paid for by what went wrong before. */
  lemma SetbackIsPaid(s: Setting, w: World, v: World)
    requires Accounted(s, w) && v.faults >= w.faults && v.start == w.start
    requires v.faults > w.faults || Owed(s, w)
    requires v.journal.Some? && v.journal.value.state == DownloadConsented && Setbacks(v.log) == Setbacks(w.log) + 1
    ensures Accounted(s, v)
  {
  }

  /** A fresh attempt over a finished one satisfies the invariant. */
  lemma PreparedIsValid(s: Setting, w: World, v: World, j: Journal, current: SemVer.Parsed, m: Manifest)
    requires Safe(s, w) && (w.journal.None? || Terminal(w.journal.value.state))
    requires j.state == Available && j.plan.token == w.nextToken && j.plan.fingerprint == s.fingerprint(m)
    requires j.plan.version == m.version
    requires IsNewer(m.version, current) && PreparedFrom(s, m, j.plan)
    requires v == w.(nextToken := w.nextToken + 1, journal := Some(j), log := Then(w.log, Entry(DoPrepare, j, current)),
                     start := Start(w.turn, w.fetches, w.faults, Read(w.files, Target), Some(m)))
    ensures Safe(s, v) && Accounted(s, v)
  {
    assert Read(w.files, Backup(w.nextToken)).None?;
  }

  // ---------------------------------------------------------------- installer steps

  /** `v` is `w` after `data` atomically replaced the file at `p`. */
  ghost predicate Copied(w: World, v: World, p: Path, data: Bytes) {
    && v == w.(files := v.files, turn := v.turn, faults := v.faults)
    && Onward(w, v)
    && SameOutsideCache(Put(w.files, p, Some(data)), v.files)
  }

  lemma CopiedReads(w: World, v: World, p: Path, data: Bytes, q: Path)
    requires Copied(w, v, p, data) && (q.Target? || q.Backup?)
    ensures Read(v.files, q) == if q == p then Some(data) else Read(w.files, q)
  {
    assert Read(Put(w.files, p, Some(data)), q) == Read(v.files, q);
  }

  /** An installed file or current backup may be replaced as long as its journal state allows the result. */
  lemma CopiedKeepsSafe(s: Setting, w: World, v: World, j: Journal, p: Path, data: Bytes)
    requires Safe(s, w) && s.installer.AtomicFile? && w.journal == Some(j)
    requires p == Target || p == Backup(j.plan.token)
    requires Copied(w, v, p, data) && DiskOk(s, v, j) && Explained(s, v)
    ensures Safe(s, v)
  {
    forall t: nat | t >= v.nextToken ensures Read(v.files, Backup(t)).None? {
      CopiedReads(w, v, p, data, Backup(t));
    }
  }

  /** Step one of the installer: keep a copy of the installed file. */
  lemma BackedUp(s: Setting, w: World, v: World, j: Journal, data: Bytes)
    requires Safe(s, w) && s.installer.AtomicFile? && w.journal == Some(j) && j.state == Installing
    requires Read(w.files, Backup(j.plan.token)).None? && Read(w.files, Target) == Some(data)
    requires Copied(w, v, Backup(j.plan.token), data) && Explained(s, v)
    ensures Safe(s, v) && Read(v.files, Backup(j.plan.token)) == v.start.before
  {
    CopiedReads(w, v, Backup(j.plan.token), data, Backup(j.plan.token));
    CopiedReads(w, v, Backup(j.plan.token), data, Target);
    CopiedKeepsSafe(s, w, v, j, Backup(j.plan.token), data);
  }

  /** Step two: put the verified artifact in place. */
  lemma Replaced(s: Setting, w: World, v: World, j: Journal, data: Bytes)
    requires Safe(s, w) && s.installer.AtomicFile? && w.journal == Some(j) && j.state == Installing
    requires Read(w.files, Backup(j.plan.token)).Some? && Good(s, Some(data), j.plan)
    requires Copied(w, v, Target, data) && Explained(s, v)
    ensures Safe(s, v) && Good(s, Read(v.files, Target), j.plan)
    ensures Read(v.files, Backup(j.plan.token)) == Read(w.files, Backup(j.plan.token))
  {
    CopiedReads(w, v, Target, data, Backup(j.plan.token));
    CopiedReads(w, v, Target, data, Target);
    CopiedKeepsSafe(s, w, v, j, Target, data);
  }

  /** Rolling back: put the kept copy in place again. */
  lemma Restored(s: Setting, w: World, v: World, j: Journal, data: Bytes)
    requires Safe(s, w) && s.installer.AtomicFile? && w.journal == Some(j)
    requires j.state == Installing || j.state == HealthCheck
    requires Read(w.files, Backup(j.plan.token)) == Some(data) && Copied(w, v, Target, data) && Explained(s, v)
    ensures Safe(s, v) && Read(v.files, Target) == v.start.before
    ensures Read(v.files, Backup(j.plan.token)) == Read(w.files, Backup(j.plan.token))
  {
    CopiedReads(w, v, Target, data, Backup(j.plan.token));
    CopiedReads(w, v, Target, data, Target);
    CopiedKeepsSafe(s, w, v, j, Target, data);
  }

  lemma PassedKeepsSafe(s: Setting, w: World, v: World)
    requires Safe(s, w) && w.passed <= v.passed && v == w.(checks := v.checks, passed := v.passed)
    ensures Safe(s, v)
  {
  }
}
