/** Values, policy checks and the transition table of the self-updater (`update_engine.py`). */
module UpdateModel {
  import opened Prelude
  import SemVer

  type Bytes = seq<int>
  type Hash = string

  datatype Artifact = Artifact(
    url: string, size: nat, sha256: Hash, os: Option<string>, arch: Option<string>, format: Option<string>)

  /** An authenticated manifest, reduced to what the engine looks at. */
  datatype Manifest = Manifest(
    channel: string, version: SemVer.Parsed, artifacts: seq<Artifact>, expiresAt: Option<int>, critical: bool,
    signedContent: Bytes)

  datatype Platform = Platform(channel: string, os: string, arch: string, format: Option<string>)

  datatype State =
    | Available | DownloadConsented | Downloading | Verified | Staged | InstallConsented
    | Installing | HealthCheck | Committed | RolledBack | ManualRecovery

  /** What stays the same over one attempt. Its three file names all carry the attempt's random token. */
  datatype Plan = Plan(
    version: SemVer.Parsed, channel: string, critical: bool, fingerprint: Hash,
    size: nat, sha256: Hash, os: Option<string>, arch: Option<string>, format: Option<string>, token: nat)

  /** The journal file. */
  datatype Journal = Journal(state: State, plan: Plan)

  datatype Path = Target | Partial(token: nat) | StagedFile(token: nat) | Backup(token: nat)

  datatype Error = StateError | PolicyError | OperationError

  /** How one disk step or external call ends. `Crashed` is the death of the process. */
  datatype Fate = Done | Failed | Crashed {
    predicate IsFailure() { !Done? }

    function PropagateFailure(): Outcome
      requires IsFailure()
    {
      if Failed? then Raised(OperationError) else Died
    }
  }

  /** How one engine call ends. */
  datatype Outcome = Returned(state: State) | Raised(error: Error) | Died

  /** Which engine call wrote a journal. */
  datatype Op = DoPrepare | DoConsentDownload | DoDownload | DoConsentInstall | DoInstall | DoResume

  // ---------------------------------------------------------------- manifest policy

  /** `UpdateManifest.artifacts_for` followed by the engine's own format filter. */
  function Matches(artifacts: seq<Artifact>, p: Platform): (r: seq<Artifact>)
    ensures forall a :: a in r <==> a in artifacts && Fits(a, p)
  {
    if artifacts == [] then []
    else (if Fits(artifacts[0], p) then [artifacts[0]] else []) + Matches(artifacts[1..], p)
  }

  predicate Fits(a: Artifact, p: Platform) {
    && (a.os.None? || a.os.value == p.os)
    && (a.arch.None? || a.arch.value == p.arch)
    && (p.format.None? || a.format.None? || a.format == p.format)
  }

  /** `_validate_manifest_policy`. */
  predicate PolicyAccepts(m: Manifest, p: Platform, current: SemVer.Parsed, now: int) {
    && m.channel == p.channel
    && IsNewer(m.version, current)
    && (m.expiresAt.Some? ==> m.expiresAt.value > now)
  }

  /** The part of `_select_artifact` that depends on the manifest and the platform alone. */
  function PlatformArtifact(m: Manifest, p: Platform): Option<Artifact> {
    var matches := Matches(m.artifacts, p);
    if |matches| != 1 then None
    else if matches[0].os.None? && p.os != "windows" then None
    else Some(matches[0])
  }

  /** `_select_artifact`; None stands for `UpdatePolicyError`. */
  function SelectArtifact(m: Manifest, p: Platform, current: SemVer.Parsed, now: int): Option<Artifact> {
    if PolicyAccepts(m, p, current, now) then PlatformArtifact(m, p) else None
  }

  predicate Describes(plan: Plan, a: Artifact) {
    (a.size, a.sha256, a.os, a.arch, a.format) == (plan.size, plan.sha256, plan.os, plan.arch, plan.format)
  }

  /** `_match_manifest`. */
  function MatchManifest(plan: Plan, m: Manifest, fingerprint: Hash, p: Platform, current: SemVer.Parsed, now: int)
    : Option<Artifact>
  {
    var a := SelectArtifact(m, p, current, now);
    if a.None? || fingerprint != plan.fingerprint then None
    else if !Describes(plan, a.value) then None
    else a
  }

  /** What `prepare` writes down about an update. */
  function NewPlan(m: Manifest, a: Artifact, fingerprint: Hash, token: nat): Plan {
    Plan(m.version, m.channel, m.critical, fingerprint, a.size, a.sha256, a.os, a.arch, a.format, token)
  }

  /** A manifest always matches the plan it was prepared for. */
  lemma NewPlanMatches(m: Manifest, fingerprint: Hash, p: Platform, current: SemVer.Parsed, now: int, token: nat)
    requires SelectArtifact(m, p, current, now).Some?
    ensures var a := SelectArtifact(m, p, current, now);
      && a == PlatformArtifact(m, p) && Describes(NewPlan(m, a.value, fingerprint, token), a.value)
      && MatchManifest(NewPlan(m, a.value, fingerprint, token), m, fingerprint, p, current, now) == a
      && IsNewer(m.version, current)
  {
  }

  // ---------------------------------------------------------------- the transition table

  predicate Terminal(s: State) { s == Committed || s == RolledBack }

  /** All journal rewrites that any engine call makes. */
  predicate Allowed(op: Op, s: State, t: State) {
    match op
    case DoPrepare => false
    case DoConsentDownload => s == Available && t == DownloadConsented
    case DoDownload =>
      (s == DownloadConsented && t == Downloading) ||
      (s == Downloading && t == Verified) || (s == Verified && t == Staged)
    case DoConsentInstall => s == Staged && t == InstallConsented
    case DoInstall =>
      || (s == InstallConsented && t == Installing)
      || (s == Installing && (t == HealthCheck || t == RolledBack || t == ManualRecovery))
      || (s == HealthCheck && (t == Committed || t == RolledBack || t == ManualRecovery))
    case DoResume =>
      || ((s == Downloading || s == Verified || s == Staged || s == InstallConsented) && t == DownloadConsented)
      || (s == Verified && t == Staged)
      || ((s == Installing || s == HealthCheck) && (t == RolledBack || t == ManualRecovery))
  }

  /** One journal write: `prepare` starts a new attempt over a finished one, everything else changes only the state. */
  predicate Edge(op: Op, from: Option<Journal>, to: Journal) {
    if op == DoPrepare then to.state == Available && (from.None? || Terminal(from.value.state))
    else from.Some? && Allowed(op, from.value.state, to.state) && to.plan == from.value.plan
  }

  /** One journal write in the history, with the version of the program that made it. */
  datatype Entry = Entry(op: Op, journal: Journal, current: SemVer.Parsed)

  /** Every journal write so far, latest outermost. */
  datatype History = Empty | Then(past: History, last: Entry)

  function LastJournal(h: History): Option<Journal> {
    if h.Empty? then None else Some(h.last.journal)
  }

  /** `h` is `g` with further writes. */
  ghost predicate Continues(g: History, h: History) { g == h || (h.Then? && Continues(g, h.past)) }

  /** Every write follows the table. */
  ghost predicate FollowsTable(h: History) {
    h.Then? ==> FollowsTable(h.past) && Edge(h.last.op, LastJournal(h.past), h.last.journal)
  }

  predicate IsNewer(version: SemVer.Parsed, current: SemVer.Parsed) {
    !(SemVer.Less(version, current) || SemVer.Same(version, current))
  }

  /** Every write except a bare download consent was made by a program older than the update. */
  ghost predicate Newer(h: History) {
    h.Then? ==>
      && Newer(h.past)
      && (h.last.op != DoConsentDownload ==> IsNewer(h.last.journal.plan.version, h.last.current))
  }

  /** Every attempt was prepared by a program older than its update. */
  ghost predicate PreparesNewer(h: History) {
    h.Then? ==>
      && PreparesNewer(h.past)
      && (h.last.op == DoPrepare ==> IsNewer(h.last.journal.plan.version, h.last.current))
  }

  /** Writes since the current attempt was prepared. */
  function AttemptWrites(h: History): nat {
    if h.Empty? || h.last.op == DoPrepare then 0 else AttemptWrites(h.past) + 1
  }

  /** How often the current attempt was thrown back to downloading. */
  function Setbacks(h: History): nat {
    if h.Empty? || h.last.op == DoPrepare then 0
    else Setbacks(h.past) + (if h.last.op == DoResume && h.last.journal.state == DownloadConsented then 1 else 0)
  }
}
