/** What holds over whole update histories and whole runs of the engine. */
module UpdateTheorems {
  import opened Prelude
  import opened UpdateModel
  import opened UpdateWorld
  import opened UpdateEngine
  import SemVer

  // ---------------------------------------------------------------- the installed file

  /** At every point where a run can stop, the installed file is untouched or exactly the signed artifact;
      on an unsupported package it is always untouched. */
  lemma TargetNeverMixed(s: Setting, w: World)
    requires Safe(s, w) && w.journal.Some?
    ensures Read(w.files, Target) == w.start.before || Good(s, Read(w.files, Target), w.journal.value.plan)
    ensures s.installer.FailClosed? ==> Read(w.files, Target) == w.start.before
  {
  }

  /** What the terminal states mean, and that before the installer runs nothing was touched. */
  lemma TerminalMeaning(s: Setting, w: World)
    requires Safe(s, w) && w.journal.Some?
    ensures var j, target := w.journal.value, Read(w.files, Target);
      && (j.state == Committed ==>
            Good(s, target, j.plan) && (j.plan.token, j.plan.version, target.value) in w.passed &&
            FollowsTable(w.log) && w.log.Then? &&
            w.log.last.op == DoInstall)
      && (j.state == RolledBack ==> target == w.start.before)
      && (j.state !in {Installing, HealthCheck, Committed, ManualRecovery} ==> target == w.start.before)
  {
  }

  /** The two statements above as one, for whole runs. */
  ghost predicate Sound(s: Setting, w: World) {
    w.journal.Some? ==>
      var j, target := w.journal.value, Read(w.files, Target);
      && (target == w.start.before || (Good(s, target, j.plan) && s.installer.AtomicFile?))
      && (j.state == Committed ==> Good(s, target, j.plan) && (j.plan.token, j.plan.version, target.value) in w.passed)
      && (j.state == RolledBack ==> target == w.start.before)
      && (j.state !in {Installing, HealthCheck, Committed, ManualRecovery} ==> target == w.start.before)
  }

  // ---------------------------------------------------------------- consent

  /** The current attempt contains a write by this call. */
  ghost predicate AttemptHas(h: History, op: Op) {
    h.Then? && (h.last.op == op || (h.last.op != DoPrepare && AttemptHas(h.past, op)))
  }

  /** All writes of the current attempt describe the same update. */
  ghost predicate AttemptDescribes(h: History, plan: Plan) {
    h.Then? && h.last.journal.plan == plan && (h.last.op != DoPrepare ==> AttemptDescribes(h.past, plan))
  }

  lemma {:induction false} AttemptIsOneUpdate(h: History)
    requires FollowsTable(h) && h.Then?
    ensures AttemptDescribes(h, h.last.journal.plan) && AttemptHas(h, DoPrepare)
    ensures h.last.journal.state != Available ==> AttemptHas(h, DoConsentDownload)
  {
    if h.last.op != DoPrepare {
      AttemptIsOneUpdate(h.past);
    }
  }

  /** Every write of `INSTALLING` directly follows an install consent given after the last `STAGED`;
      the attempt contains a download consent; and all of it is about one manifest. */
  lemma InstallingNeedsBothConsents(h: History)
    requires FollowsTable(h) && h.Then? && h.last.journal.state == Installing
    ensures h.last.op == DoInstall
    ensures h.past.Then? && h.past.last.op == DoConsentInstall && h.past.last.journal.state == InstallConsented
    ensures h.past.past.Then? && h.past.past.last.journal.state == Staged
    ensures AttemptHas(h, DoConsentDownload) && AttemptDescribes(h, h.last.journal.plan)
  {
    AttemptIsOneUpdate(h);
  }

  /** The current attempt of `h` has a write by `op` after `g`. */
  ghost predicate Since(g: History, h: History,
                        op: Op) { h != g && h.Then? && (h.last.op == op || Since(g, h.past, op)) }

  /** After recovery threw a bad download away, nothing is installed without a new download and a new install
      consent. */
  lemma {:induction false} DiscardForcesConsent(g: History, h: History)
    requires FollowsTable(h) && Continues(g, h) && g.Then?
    requires g.last.op == DoResume && g.last.journal.state == DownloadConsented
    ensures h == g || Since(g, h, DoPrepare) ||
      var s := h.last.journal.state;
      && (s in {Downloading, Verified, Staged, InstallConsented, Installing, HealthCheck, Committed} ==>
            Since(g, h, DoDownload))
      && (s in {InstallConsented, Installing, HealthCheck, Committed} ==> Since(g, h, DoConsentInstall))
      && s != Available
  {
    if h != g {
      DiscardForcesConsent(g, h.past);
    }
  }

  // ---------------------------------------------------------------- finality and termination

  /** `MANUAL_RECOVERY` is never left, and a finished attempt only by preparing a new one. */
  lemma FinalStates(h: History)
    requires FollowsTable(h) && h.Then? && h.past.Then?
    ensures h.past.last.journal.state != ManualRecovery
    ensures Terminal(h.past.last.journal.state) ==> h.last.op == DoPrepare
  {
  }

  function Rank(s: State): nat {
    match s
    case Available => 0
    case DownloadConsented => 1
    case Downloading => 2
    case Verified => 3
    case Staged => 4
    case InstallConsented => 5
    case Installing => 6
    case HealthCheck => 7
    case Committed | RolledBack | ManualRecovery => 8
  }

  /** Every write climbs in rank, except a setback, which loses at most four. */
  lemma {:induction false} WritesAreBoundedBySetbacks(h: History)
    requires FollowsTable(h) && h.Then?
    ensures AttemptWrites(h) <= Rank(h.last.journal.state) + 5 * Setbacks(h)
  {
    if h.last.op != DoPrepare {
      WritesAreBoundedBySetbacks(h.past);
    }
  }

  /** The bad moves of the environment since the current attempt was prepared. */
  function BadMoves(s: Setting, w: World): nat { Strikes(s, w.start.turn, w.turn) + BadSoFar(s, w) }

  /** An attempt makes at most eight journal writes, and five more for every bad move of the environment during it. */
  lemma AttemptEnds(s: Setting, w: World)
    requires Safe(s, w) && Accounted(s, w) && w.journal.Some?
    ensures AttemptWrites(w.log) <= 8 + 5 * BadMoves(s, w)
  {
    WritesAreBoundedBySetbacks(w.log);
  }

  // ---------------------------------------------------------------- versions

  ghost predicate CommittedIn(h: History, v: SemVer.Parsed) {
    h.Then? && ((h.last.journal.state == Committed && h.last.journal.plan.version == v) || CommittedIn(h.past, v))
  }

  /** Each committed version is above all that were committed before it. */
  ghost predicate Increasing(h: History) {
    h.Then? ==>
      && Increasing(h.past)
      && (h.last.journal.state == Committed ==> AboveCommits(h.past, h.last.journal.plan.version))
  }

  ghost predicate AboveCommits(h: History, next: SemVer.Parsed) {
    forall v: SemVer.Parsed :: CommittedIn(h, v) ==> SemVer.Less(v, next)
  }

  /** What a caller can check before `prepare`: the running program is not older than anything committed so far. */
  ghost predicate UpToDate(h: History, current: SemVer.Parsed) {
    forall v: SemVer.Parsed :: CommittedIn(h, v) ==> !SemVer.Less(current, v)
  }

  /** A program accepts only versions above `v` if and only if it is not itself older than `v`. */
  lemma AcceptsOnlyAbove(current: SemVer.Parsed, v: SemVer.Parsed)
    ensures (forall next: SemVer.Parsed :: IsNewer(next, current) ==> SemVer.Less(v, next)) <==>
      !SemVer.Less(current, v)
  {
    SemVer.PrecedenceTotal(v, v);
    SemVer.PrecedenceTotal(v, current);
    if SemVer.Less(current, v) { assert IsNewer(v, current) && !SemVer.Less(v, v); }
    forall next: SemVer.Parsed | IsNewer(next, current) && !SemVer.Less(current, v)
      ensures SemVer.Less(v, next)
    {
      AboveCurrent(v, current, next);
    }
  }

  lemma AboveCurrent(v: SemVer.Parsed, current: SemVer.Parsed, next: SemVer.Parsed)
    requires !SemVer.Less(current, v) && IsNewer(next, current)
    ensures SemVer.Less(v, next)
  {
    SemVer.PrecedenceTotal(current, next);
    SemVer.PrecedenceTotal(v, current);
    if SemVer.Less(v, current) {
      SemVer.PrecedenceTransitive(v, current, next);
    } else {
      SemVer.SameRespectsLess(v, current, next);
    }
  }

  /** Every attempt was prepared by a program that was up to date then. */
  ghost predicate PreparedUpToDate(h: History) {
    h.Then? ==> PreparedUpToDate(h.past) && (h.last.op == DoPrepare ==> UpToDate(h.past, h.last.current))
  }

  lemma {:induction false} AttemptIsAbove(h: History)
    requires FollowsTable(h) && PreparesNewer(h) && PreparedUpToDate(h)
    requires h.Then? && h.last.journal.state != Committed
    ensures AboveCommits(h, h.last.journal.plan.version)
  {
    forall v: SemVer.Parsed | CommittedIn(h, v) ensures SemVer.Less(v, h.last.journal.plan.version) {
      assert CommittedIn(h.past, v);
      if h.last.op == DoPrepare {
        AboveCurrent(v, h.last.current, h.last.journal.plan.version);
      } else {
        AttemptIsAbove(h.past);
      }
    }
  }

  /** If every attempt is prepared by an up-to-date program, committed versions strictly increase. */
  lemma {:induction false} CommitsIncrease(h: History)
    requires FollowsTable(h) && PreparesNewer(h) && PreparedUpToDate(h)
    ensures Increasing(h)
  {
    if h.Then? {
      CommitsIncrease(h.past);
      if h.last.journal.state == Committed { AttemptIsAbove(h.past); }
    }
  }

  /** The writes of an attempt that goes straight from `prepare` to its commit. */
  const STRAIGHT: seq<(Op, State)> := [
    (DoPrepare, Available), (DoConsentDownload, DownloadConsented), (DoDownload, Downloading), (DoDownload, Verified),
    (DoDownload, Staged), (DoConsentInstall, InstallConsented), (DoInstall, Installing), (DoInstall, HealthCheck),
    (DoInstall, Committed)]

  /** The first `n` of these writes after `h`, made by the program `current`. */
  function Attempting(h: History, plan: Plan, current: SemVer.Parsed, n: nat): History
    requires n <= |STRAIGHT|
  {
    if n == 0 then h
    else Then(Attempting(h, plan, current, n - 1), Entry(STRAIGHT[n - 1].0, Journal(STRAIGHT[n - 1].1, plan), current))
  }

  function Committing(h: History, plan: Plan, current: SemVer.Parsed): History {
    Attempting(h, plan, current, |STRAIGHT|)
  }

  predicate MayCommit(plan: Plan, current: SemVer.Parsed) {
    IsNewer(plan.version, current)
  }

  ghost predicate Legal(h: History) { FollowsTable(h) && Newer(h) }

  ghost predicate AtRest(h: History) { h.Empty? || Terminal(h.last.journal.state) }

  lemma {:induction false} AttemptingIsLegal(h: History, plan: Plan, current: SemVer.Parsed, n: nat)
    requires Legal(h) && AtRest(h) && MayCommit(plan, current) && n <= |STRAIGHT|
    ensures Legal(Attempting(h, plan, current, n))
  {
    if n > 0 {
      AttemptingIsLegal(h, plan, current, n - 1);
      StraightFollowsTable(n - 1);
    }
  }

  lemma StraightFollowsTable(k: nat)
    requires k < |STRAIGHT|
    ensures k == 0 <==> STRAIGHT[k].0 == DoPrepare
    ensures k == 0 ==> STRAIGHT[k].1 == Available
    ensures k > 0 ==> Allowed(STRAIGHT[k].0, STRAIGHT[k - 1].1, STRAIGHT[k].1)
  {
  }

  lemma {:induction false} AttemptingCommits(h: History, plan: Plan, current: SemVer.Parsed, n: nat, v: SemVer.Parsed)
    requires n <= |STRAIGHT|
    ensures CommittedIn(Attempting(h, plan, current, n), v) <==>
      CommittedIn(h, v) || (n == |STRAIGHT| && v == plan.version)
  {
    if n > 0 { AttemptingCommits(h, plan, current, n - 1, v); }
  }

  lemma {:induction false} AttemptingIncreases(h: History, plan: Plan, current: SemVer.Parsed, n: nat)
    requires n <= |STRAIGHT|
    ensures Increasing(Attempting(h, plan, current, n)) <==>
      Increasing(h) && (n == |STRAIGHT| ==> AboveCommits(h, plan.version))
  {
    if n > 0 {
      AttemptingIncreases(h, plan, current, n - 1);
      forall v: SemVer.Parsed ensures CommittedIn(Attempting(h, plan, current, n - 1), v) <==> CommittedIn(h, v) {
        AttemptingCommits(h, plan, current, n - 1, v);
      }
      assert AboveCommits(Attempting(h, plan, current, n - 1), plan.version) <==> AboveCommits(h, plan.version);
    }
  }

  /** A program may prepare and commit whatever it accepts. After any finished history the commits go on increasing for
      every version it accepts if and only if they increased so far and it is up to date. */
  lemma NextCommitIncreasesExactly(h: History, current: SemVer.Parsed, plan: Plan)
    requires Legal(h) && AtRest(h)
    ensures (forall p :: MayCommit(p, current) ==> Increasing(Committing(h, p, current))) <==>
      Increasing(h) && UpToDate(h, current)
  {
    if forall p :: MayCommit(p, current) ==> Increasing(Committing(h, p, current)) {
      var next := plan.(version := SemVer.Version(current.major + 1, 0, 0, [], []));
      assert MayCommit(next, current);
      AttemptingIncreases(h, next, current, |STRAIGHT|);
      forall v: SemVer.Parsed | CommittedIn(h, v) ensures !SemVer.Less(current, v) {
        CommitsAgain(h, current, plan, v);
      }
    }
    if Increasing(h) && UpToDate(h, current) {
      forall p | MayCommit(p, current) ensures Increasing(Committing(h, p, current)) {
        forall v: SemVer.Parsed | CommittedIn(h, v) ensures SemVer.Less(v, p.version) {
          AboveCurrent(v, current, p.version);
        }
        AttemptingIncreases(h, p, current, |STRAIGHT|);
      }
    }
  }

  /** A program older than a committed version may commit that version a second time. */
  lemma CommitsAgain(h: History, current: SemVer.Parsed, plan: Plan, v: SemVer.Parsed)
    requires CommittedIn(h, v)
    ensures SemVer.Less(current, v) ==>
      var p := plan.(version := v); MayCommit(p, current) && !Increasing(Committing(h, p, current))
  {
    SemVer.PrecedenceTotal(v, v);
    SemVer.PrecedenceTotal(v, current);
    AttemptingIncreases(h, plan.(version := v), current, |STRAIGHT|);
  }

  /** So a program that commits an update and goes on running may commit a lower version next. */
  lemma CommitsMayFall(current: SemVer.Parsed, low: Plan, high: Plan)
    requires MayCommit(low, current) && MayCommit(high, current)
    requires SemVer.Less(low.version, high.version)
    ensures var h := Committing(Committing(Empty, high, current), low, current);
      Legal(h) && !Increasing(h)
  {
    var g := Committing(Empty, high, current);
    AttemptingIsLegal(Empty, high, current, |STRAIGHT|);
    AttemptingIsLegal(g, low, current, |STRAIGHT|);
    AttemptingIncreases(g, low, current, |STRAIGHT|);
    AttemptingCommits(Empty, high, current, |STRAIGHT|, high.version);
    SemVer.PrecedenceTotal(low.version, high.version);
  }

  /** For example 1.0.0, which commits 2.0.0 and then 1.5.0. */
  lemma OneProcessCommitsDownwards(plan: Plan)
    ensures var v := (major: nat, minor: nat) => SemVer.Version(major, minor, 0, [], []);
      var h := Committing(Committing(Empty, plan.(version := v(2, 0)), v(1, 0)), plan.(version := v(1, 5)), v(1, 0));
      Legal(h) && !Increasing(h)
  {
    var current, low, high := SemVer.Version(1, 0, 0, [], []), SemVer.Version(1, 5, 0, [], []),
      SemVer.Version(2, 0, 0, [], []);
    CommitsMayFall(current, plan.(version := low), plan.(version := high));
  }

  // ---------------------------------------------------------------- when recovery is possible

  /** Exactly when a journal can be acted upon: the manifest is the one it was prepared from, and the running program
      is still older than the update and the manifest has not expired. */
  lemma MatchedExactly(s: Setting, w: World, m: Manifest, current: SemVer.Parsed, now: int)
    requires Safe(s, w) && w.journal.Some? && CollisionFree(s)
    ensures MatchManifest(w.journal.value.plan, m, s.fingerprint(m), s.platform, current, now).Some? <==>
      w.start.prepared == Some(m) && PolicyAccepts(m, s.platform, current, now)
  {
  }

  /** An interrupted install whose new program was started cannot be recovered by it, with any manifest at any time. */
  lemma NewProgramCannotRecover(s: Setting, w: World, m: Manifest, current: SemVer.Parsed, now: int)
    requires Safe(s, w) && w.journal.Some? && CollisionFree(s)
    requires SemVer.Same(w.journal.value.plan.version, current)
    ensures MatchManifest(w.journal.value.plan, m, s.fingerprint(m), s.platform, current, now).None?
  {
    MatchedExactly(s, w, m, current, now);
  }

  // ---------------------------------------------------------------- whole runs

  datatype Command =
    | Prepare(m: Manifest, now: int)
    | ConsentDownload
    | Download(m: Manifest, now: int)
    | ConsentInstall(m: Manifest, now: int)
    | Install(m: Manifest, now: int)
    | Resume(m: Manifest, now: int)
    | Restart(version: SemVer.Parsed)

  method Execute(e: Engine, c: Command)
    requires e.Valid()
    modifies e
    ensures e.Valid() && e.mark == old(e.mark)
  {
    match c
    case Prepare(m, now) => var _ := e.Prepare(m, now);
    case ConsentDownload => var _ := e.ConsentDownload();
    case Download(m, now) => var _ := e.Download(m, now);
    case ConsentInstall(m, now) => var _ := e.ConsentInstall(m, now);
    case Install(m, now) => var _ := e.Install(m, now);
    case Resume(m, now) => var _ := e.Resume(m, now);
    case Restart(version) => e.Restart(version);
  }

  /** Any sequence of calls and restarts, with any manifests, crashing and failing anywhere, keeps the invariant
      and only ever adds to the history; wherever it stops, the installed file and the attempt's history are sound. */
  method Run(e: Engine, commands: seq<Command>)
    requires e.Valid()
    modifies e
    ensures e.Valid() && Continues(old(e.log), e.log)
    ensures Sound(e.setting, e.Now()) && FollowsTable(e.log)
    ensures e.journal.Some? ==> AttemptWrites(e.log) <= 8 + 5 * BadMoves(e.setting, e.Now())
    ensures PreparedUpToDate(e.log) ==> Increasing(e.log)
  {
    e.SetMark();
    var i := 0;
    while i < |commands|
      invariant 0 <= i <= |commands|
      invariant e.Valid() && e.mark == old(e.log)
    {
      Execute(e, commands[i]);
      i := i + 1;
    }
    if PreparedUpToDate(e.log) { CommitsIncrease(e.log); }
    if e.journal.Some? {
      TargetNeverMixed(e.setting, e.Now());
      TerminalMeaning(e.setting, e.Now());
      AttemptEnds(e.setting, e.Now());
    }
  }

  // ---------------------------------------------------------------- undisturbed upgrades

  /** The plan that `prepare` would make now. */
  ghost function PlanOf(e: Engine, m: Manifest, now: int): Plan
    requires SelectArtifact(m, e.setting.platform, e.current, now).Some?
    reads e
  {
    var a := SelectArtifact(m, e.setting.platform, e.current, now).value;
    NewPlan(m, a, e.setting.fingerprint(m), e.nextToken)
  }

  /** The environment leaves the engine alone from this step on, and the next download is the signed artifact. */
  ghost predicate Smooth(s: Setting, plan: Plan, w: World) {
    Undisturbed(s, w.turn) && Good(s, s.downloads(w.fetches), plan)
  }

  lemma SmoothHasNoFaults(s: Setting, plan: Plan, w: World, v: World)
    requires Accountable(s, plan, w, v) && v.fetches <= w.fetches + 1
    ensures Smooth(s, plan, w) ==> v.faults == w.faults
  {
    if Smooth(s, plan, w) {
      NoStrikes(s, w.turn, v.turn);
      assert BadDownloads(s, plan, w.fetches, w.fetches) == 0;
      assert BadDownloads(s, plan, w.fetches, w.fetches + 1) == 0;
    }
  }

  /** The engine is idle and accepts this update. */
  ghost predicate Accepts(e: Engine, m: Manifest, now: int)
    reads e
  {
    && (e.journal.None? || Terminal(e.journal.value.state))
    && SelectArtifact(m, e.setting.platform, e.current, now).Some?
  }

  ghost predicate Underway(e: Engine, plan: Plan)
    reads e
  {
    e.journal.Some? && e.journal.value.plan == plan
  }

  /** The attempt is in this state, may be acted upon, and knows what was installed before. */
  ghost predicate Reached(e: Engine, state: State, m: Manifest, now: int, installed: Option<Bytes>)
    reads e
  {
    && e.InState(state) && e.Matched(m, now)
    && e.start.before == installed && e.journal.value.plan.version == m.version
  }

  ghost predicate Ready(e: Engine, state: State, m: Manifest, now: int, installed: Option<Bytes>)
    reads e
  {
    Reached(e, state, m, now, installed) && e.StagedGood(e.Now(), e.journal.value.plan)
  }

  lemma OneStepIsAccountable(e: Engine, plan: Plan, w: World, v: World)
    requires e.OneStep(w, v) && v.fetches == w.fetches
    ensures Accountable(e.setting, plan, w, v)
  {
    assert Strikes(e.setting, w.turn, w.turn) == 0;
  }

  /** Preparing the attempt. */
  method Begin(e: Engine, m: Manifest, now: int) returns (out: Outcome)
    requires e.Valid() && Accepts(e, m, now)
    modifies e`journal, e`files, e`faults, e`turn, e`log, e`nextToken, e`start
    ensures e.Valid() && Accountable(e.setting, old(PlanOf(e, m, now)), old(e.Now()), e.Now())
    ensures out.Returned? ==> Underway(e, old(PlanOf(e, m, now)))
    ensures e.faults > old(e.faults) ||
      (out.Returned? && Reached(e, Available, m, now, old(Read(e.files, Target))))
  {
    ghost var plan, w := PlanOf(e, m, now), e.Now();
    out := e.Prepare(m, now);
    OneStepIsAccountable(e, plan, w, e.Now());
  }

  /** The consent to the download. */
  method ConsentToObtain(e: Engine, m: Manifest, now: int) returns (out: Outcome)
    requires e.Valid() && e.journal.Some?
    modifies e`journal, e`files, e`faults, e`turn, e`log
    ensures e.Valid() && Underway(e, old(e.journal.value.plan))
    ensures Accountable(e.setting, old(e.journal.value.plan), old(e.Now()), e.Now())
    ensures e.faults > old(e.faults) || !old(Reached(e, Available, m, now, e.start.before)) ||
      (out.Returned? && Reached(e, DownloadConsented, m, now, e.start.before))
  {
    ghost var w := e.Now();
    out := e.ConsentDownload();
    SafeIsAccountable(e.setting, w.journal.value.plan, w, e.Now());
  }

  /** The download, up to the staged artifact. */
  method Fetch(e: Engine, m: Manifest, now: int) returns (out: Outcome)
    requires e.Valid() && e.journal.Some?
    modifies e`journal, e`files, e`faults, e`turn, e`log, e`fetches
    ensures e.Valid() && Underway(e, old(e.journal.value.plan))
    ensures Accountable(e.setting, old(e.journal.value.plan), old(e.Now()), e.Now())
    ensures e.fetches <= old(e.fetches) + 1
    ensures e.faults > old(e.faults) || !old(Reached(e, DownloadConsented, m, now, e.start.before)) ||
      (out.Returned? && e.fetches == old(e.fetches) + 1 && Ready(e, Staged, m, now, e.start.before))
  {
    ghost var w := e.Now();
    out := e.Download(m, now);
    SafeIsAccountable(e.setting, w.journal.value.plan, w, e.Now());
  }

  /** From consent to a staged artifact. */
  method ObtainPrepared(e: Engine, m: Manifest, now: int) returns (out: Outcome)
    requires e.Valid() && e.journal.Some?
    modifies e`journal, e`files, e`faults, e`turn, e`log, e`fetches
    ensures e.Valid() && Underway(e, old(e.journal.value.plan))
    ensures Accountable(e.setting, old(e.journal.value.plan), old(e.Now()), e.Now())
    ensures e.fetches <= old(e.fetches) + 1
    ensures e.faults > old(e.faults) || !old(Reached(e, Available, m, now, e.start.before)) ||
      (out.Returned? && e.fetches == old(e.fetches) + 1 && Ready(e, Staged, m, now, e.start.before))
  {
    ghost var plan, w := e.journal.value.plan, e.Now();
    out := ConsentToObtain(e, m, now);
    if out.Returned? {
      ghost var u := e.Now();
      out := Fetch(e, m, now);
      AccountableAddsUp(e.setting, plan, w, u, e.Now());
    }
  }

  /** From nothing to a staged artifact, if the environment leaves the engine alone. */
  method Obtain(e: Engine, m: Manifest, now: int) returns (out: Outcome)
    requires e.Valid() && Accepts(e, m, now)
    modifies e`journal, e`files, e`faults, e`turn, e`log, e`nextToken, e`start, e`fetches
    ensures e.Valid() && Accountable(e.setting, old(PlanOf(e, m, now)), old(e.Now()), e.Now())
    ensures e.fetches <= old(e.fetches) + 1
    ensures out.Returned? ==> Underway(e, old(PlanOf(e, m, now)))
    ensures e.faults > old(e.faults) || (out.Returned? && e.fetches == old(e.fetches) + 1)
    ensures e.faults > old(e.faults) || Ready(e, Staged, m, now, old(Read(e.files, Target)))
    ensures old(Smooth(e.setting, PlanOf(e, m, now), e.Now())) ==>
      out.Returned? && e.faults == old(e.faults) && Ready(e, Staged, m, now, old(Read(e.files, Target)))
  {
    ghost var plan, w := PlanOf(e, m, now), e.Now();
    out := Begin(e, m, now);
    if out.Returned? {
      ghost var u := e.Now();
      out := ObtainPrepared(e, m, now);
      AccountableAddsUp(e.setting, plan, w, u, e.Now());
    }
    SmoothHasNoFaults(e.setting, plan, w, e.Now());
  }

  /** The verdict decided, and the journal and the installed file agree with it. */
  ghost predicate UpgradeDone(s: Setting, v: World, m: Manifest, out: Outcome, healthy: bool,
                              installed: Option<Bytes>) {
    v.journal.Some? && v.journal.value.plan.version == m.version && out == Returned(v.journal.value.state) &&
    if healthy then v.journal.value.state == Committed && Good(s, Read(v.files, Target), v.journal.value.plan)
    else v.journal.value.state == RolledBack && Read(v.files, Target) == installed
  }

  lemma InstallDecides(e: Engine, w: World, v: World, m: Manifest, out: Outcome)
    requires Safe(e.setting, v) && v.start == w.start && v.faults == w.faults
    requires w.journal.Some? && w.journal.value.plan.version == m.version
    requires e.StagedGood(w, w.journal.value.plan) && e.Replaceable(w)
    requires e.InstallResult(w, v, e.current, out)
    ensures UpgradeDone(e.setting, v, m, out, e.setting.verdicts(w.checks), w.start.before)
    ensures v.checks == w.checks + 1
  {
  }

  /** The install call itself, after its consent. */
  method Finish(e: Engine, m: Manifest, now: int) returns (out: Outcome)
    requires e.Valid() && e.journal.Some?
    modifies e`journal, e`files, e`faults, e`turn, e`log, e`passed, e`checks
    ensures e.Valid() && Underway(e, old(e.journal.value.plan))
    ensures Accountable(e.setting, old(e.journal.value.plan), old(e.Now()), e.Now())
    ensures e.checks <= old(e.checks) + 1
    ensures e.faults > old(e.faults) || !old(Ready(e, InstallConsented, m, now, e.start.before)) ||
      !e.Replaceable(old(e.Now())) || Upgraded(e, m, out, old(e.checks), old(e.start.before))
  {
    ghost var w := e.Now();
    ghost var ready := Ready(e, InstallConsented, m, now, e.start.before);
    out := e.Install(m, now);
    SafeIsAccountable(e.setting, w.journal.value.plan, w, e.Now());
    if ready && e.faults == w.faults && e.Replaceable(w) { InstallDecides(e, w, e.Now(), m, out); }
  }

  ghost predicate Upgraded(e: Engine, m: Manifest, out: Outcome, checks: nat, installed: Option<Bytes>)
    reads e
  {
    e.checks == checks + 1 && UpgradeDone(e.setting, e.Now(), m, out, e.setting.verdicts(checks), installed)
  }

  /** The consent to install. */
  method ConsentToApply(e: Engine, m: Manifest, now: int) returns (out: Outcome)
    requires e.Valid() && e.journal.Some?
    modifies e`journal, e`files, e`faults, e`turn, e`log
    ensures e.Valid() && Underway(e, old(e.journal.value.plan))
    ensures Accountable(e.setting, old(e.journal.value.plan), old(e.Now()), e.Now())
    ensures e.faults > old(e.faults) || !old(Ready(e, Staged, m, now, e.start.before)) ||
      (out.Returned? && Ready(e, InstallConsented, m, now, e.start.before))
  {
    ghost var w := e.Now();
    out := e.ConsentInstall(m, now);
    SafeIsAccountable(e.setting, w.journal.value.plan, w, e.Now());
  }

  /** From a staged artifact to the end. */
  method Apply(e: Engine, m: Manifest, now: int) returns (out: Outcome)
    requires e.Valid() && e.journal.Some?
    modifies e`journal, e`files, e`faults, e`turn, e`log, e`passed, e`checks
    ensures e.Valid() && Underway(e, old(e.journal.value.plan))
    ensures Accountable(e.setting, old(e.journal.value.plan), old(e.Now()), e.Now())
    ensures e.checks <= old(e.checks) + 1
    ensures e.faults > old(e.faults) || !old(Ready(e, Staged, m, now, e.start.before)) ||
      !e.Replaceable(old(e.Now())) || Upgraded(e, m, out, old(e.checks), old(e.start.before))
    ensures Undisturbed(e.setting, old(e.turn)) && old(Ready(e, Staged, m, now, e.start.before)) ==>
      e.Replaceable(old(e.Now())) ==> Upgraded(e, m, out, old(e.checks), old(e.start.before))
  {
    ghost var plan, w := e.journal.value.plan, e.Now();
    out := ConsentToApply(e, m, now);
    if out.Returned? {
      ghost var u := e.Now();
      out := Finish(e, m, now);
      AccountableAddsUp(e.setting, plan, w, u, e.Now());
    }
    if Undisturbed(e.setting, w.turn) { NoStrikes(e.setting, w.turn, e.turn); }
  }

  /** An accepted update of a replaceable program. The faults that are counted are exactly the bad moves in the
      environment's script. If it has none, the verdict of the one health check decides: the program is replaced by the
      signed artifact, or left as it was. */
  method Upgrade(e: Engine, m: Manifest, now: int) returns (out: Outcome)
    requires e.Valid() && Accepts(e, m, now)
    requires e.setting.installer.AtomicFile? && Read(e.files, Target).Some?
    modifies e
    ensures e.Valid() && e.current == old(e.current) && e.mark == old(e.mark)
    ensures Accountable(e.setting, old(PlanOf(e, m, now)), old(e.Now()), e.Now())
    ensures e.fetches <= old(e.fetches) + 1 && e.checks <= old(e.checks) + 1
    ensures e.faults > old(e.faults) || Upgraded(e, m, out, old(e.checks), old(Read(e.files, Target)))
    ensures old(Smooth(e.setting, PlanOf(e, m, now), e.Now())) ==>
      && e.faults == old(e.faults) && e.fetches == old(e.fetches) + 1
      && Upgraded(e, m, out, old(e.checks), old(Read(e.files, Target)))
  {
    ghost var plan, w := PlanOf(e, m, now), e.Now();
    out := Obtain(e, m, now);
    if out.Returned? {
      ghost var u := e.Now();
      out := Apply(e, m, now);
      AccountableAddsUp(e.setting, plan, w, u, e.Now());
    }
    SmoothHasNoFaults(e.setting, plan, w, e.Now());
  }

  /** Recovery of any unfinished attempt: left alone, it reaches exactly the state that the disk calls for. */
  method Recover(e: Engine, m: Manifest, now: int) returns (out: Outcome)
    requires e.Valid() && e.Matched(m, now)
    modifies e`journal, e`files, e`faults, e`turn, e`log
    ensures e.Valid() && Underway(e, old(e.journal.value.plan))
    ensures Accountable(e.setting, old(e.journal.value.plan), old(e.Now()), e.Now())
    ensures Undisturbed(e.setting, old(e.turn)) ==>
      out == Returned(e.ResumeState(old(e.Now()), old(e.journal.value))) && e.InState(out.state)
  {
    ghost var w := e.Now();
    out := e.Resume(m, now);
    SafeIsAccountable(e.setting, w.journal.value.plan, w, e.Now());
    if Undisturbed(e.setting, w.turn) { NoStrikes(e.setting, w.turn, e.turn); }
  }

  // ---------------------------------------------------------------- commits that go down

  lemma {:induction false} CommitsRemain(g: History, h: History, v: SemVer.Parsed)
    requires Continues(g, h) && CommittedIn(g, v)
    ensures CommittedIn(h, v)
  {
    if g != h { CommitsRemain(g, h.past, v); }
  }

  /** For two updates in a row: nothing disturbs them, both downloads are right, and both health checks pass. */
  ghost predicate SmoothTwice(e: Engine, high: Manifest, low: Manifest, now: int)
    requires Accepts(e, high, now) && Accepts(e, low, now)
    reads e
  {
    && Smooth(e.setting, PlanOf(e, high, now), e.Now())
    && Good(e.setting, e.setting.downloads(e.fetches + 1), PlanOf(e, low, now))
    && e.setting.verdicts(e.checks) && e.setting.verdicts(e.checks + 1)
  }

  /** The same engine object, with no restart and no fault, commits `high` and afterwards the lower `low`, which its own
      version still lets it accept. */
  method CommitDownwards(e: Engine, high: Manifest, low: Manifest, now: int)
    requires e.Valid() && Accepts(e, high, now) && Accepts(e, low, now)
    requires e.setting.installer.AtomicFile? && Read(e.files, Target).Some? && SemVer.Less(low.version, high.version)
    modifies e
    ensures e.Valid() && e.current == old(e.current)
    ensures old(SmoothTwice(e, high, low, now)) ==>
      e.faults == old(e.faults) && CommittedIn(e.log, high.version) && CommittedIn(e.log, low.version) &&
      !Increasing(e.log)
  {
    ghost var smooth := SmoothTwice(e, high, low, now);
    var out := Upgrade(e, high, now);
    if e.journal.Some? && e.journal.value.state == Committed && Target in e.files {
      e.SetMark();
      ghost var w := e.Now();
      out := Upgrade(e, low, now);
      if smooth { CommittedDownwards(e.setting, w, e.Now(), high, low); }
    }
  }

  lemma CommittedDownwards(s: Setting, w: World, v: World, high: Manifest, low: Manifest)
    requires Safe(s, w) && Safe(s, v) && v.mark == w.log && SemVer.Less(low.version, high.version)
    requires w.journal.Some? && w.journal.value.state == Committed && w.journal.value.plan.version == high.version
    requires v.journal.Some? && v.journal.value.state == Committed && v.journal.value.plan.version == low.version
    ensures CommittedIn(v.log, high.version) && CommittedIn(v.log, low.version) && !Increasing(v.log)
  {
    SemVer.PrecedenceTotal(low.version, high.version);
    CommitsRemain(w.log, v.log, high.version);
    CommitsRemain(w.log, v.log.past, high.version);
  }

  function Plain(major: nat, minor: nat): SemVer.Parsed { SemVer.Version(major, minor, 0, [], []) }

  /** An update to a program of one byte, signed as "high" or "low". */
  function OneByte(version: SemVer.Parsed, sha256: Hash, content: int): Manifest {
    Manifest("stable", version, [Artifact("", 1, sha256, Some("linux"), None, None)], None, false, [content])
  }

  /** An environment that never strikes, serves the two programs one after the other, and passes every check. */
  function CalmSetting(): Setting {
    Setting(Platform("stable", "linux", "x64", None), AtomicFile, (b: Bytes) => if b == [2] then "high" else "low",
            (m: Manifest) => if m.signedContent == [2] then "high" else "low",
            (k: nat) => Move(None, Done), (k: nat) => Some(if k == 0 then [2] else [3]), (k: nat) => true)
  }

  lemma CalmAccepts(current: SemVer.Parsed, version: SemVer.Parsed, sha256: Hash, content: int, now: int)
    requires IsNewer(version, current)
    ensures var m := OneByte(version, sha256, content);
      SelectArtifact(m, CalmSetting().platform, current, now) == Some(m.artifacts[0])
  {
    var m := OneByte(version, sha256, content);
    assert Matches(m.artifacts[1..], CalmSetting().platform) == [];
  }

  /** So there is a run of one engine, without a fault, in which 1.0.0 commits 2.0.0 and then 1.5.0. */
  method ExhibitDownwards() returns (e: Engine)
    ensures fresh(e) && e.Valid() && e.current == Plain(1, 0) && e.faults == 0 && FollowsTable(e.log)
    ensures CommittedIn(e.log, Plain(2, 0)) && CommittedIn(e.log, Plain(1, 5)) && !Increasing(e.log)
  {
    var high, low := OneByte(Plain(2, 0), "high", 2), OneByte(Plain(1, 5), "low", 3);
    e := new Engine(CalmSetting(), Plain(1, 0), Some([1]));
    CalmAccepts(Plain(1, 0), Plain(2, 0), "high", 2, 0);
    CalmAccepts(Plain(1, 0), Plain(1, 5), "low", 3, 0);
    assert SmoothTwice(e, high, low, 0);
    CommitDownwards(e, high, low, 0);
  }
}
