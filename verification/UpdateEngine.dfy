/** The updater's engine and its file installer, run against a hostile disk
    (`update_engine.py`, `platform_adapters/update_install.py`). */
module UpdateEngine {
  import opened Prelude
  import opened UpdateModel
  import opened UpdateWorld
  import ArtifactStreams
  import SemVer

  class Engine {
    const setting: Setting
    /** The version of the program now running. */
    var current: SemVer.Parsed
    var journal: Option<Journal>
    var files: map<Path, Bytes>
    var nextToken: nat
    /** How many steps, downloads and health checks there were. */
    var turn: nat
    var fetches: nat
    var checks: nat

    ghost var log: History
    ghost var mark: History
    ghost var faults: nat
    ghost var start: Start
    ghost var passed: set<(nat, SemVer.Parsed, Bytes)>

    ghost function Now(): World
      reads this
    {
      World(journal, files, nextToken, log, mark, turn, fetches, checks, faults, start, passed)
    }

    ghost predicate Valid()
      reads this
    {
      Safe(setting, Now()) && Accounted(setting, Now())
    }

    constructor (setting: Setting, current: SemVer.Parsed, installed: Option<Bytes>)
      ensures Valid() && this.setting == setting && this.current == current
      ensures journal.None? && log == Empty && faults == 0 && Read(files, Target) == installed
      ensures turn == fetches == checks == nextToken == 0
    {
      this.setting, this.current, journal, nextToken := setting, current, None, 0;
      turn, fetches, checks, start := 0, 0, 0, Start(0, 0, 0, installed, None);
      files := if installed.Some? then map[Target := installed.value] else map[];
      log, mark, faults, passed := Empty, Empty, 0, {};
    }

    // -------------------------------------------------------------- single steps

    /** The environment's next move: it may rewrite the files of one download and decides how the step ends. */
    method Turn() returns (fate: Fate)
      requires Safe(setting, Now())
      modifies this`files, this`faults, this`turn
      ensures CacheStep(old(Now()), Now()) && Safe(setting, Now())
      ensures turn == old(turn) + 1 && fate == setting.moves(old(turn)).fate
      ensures faults == old(faults) + if Struck(setting.moves(old(turn))) then 1 else 0
      ensures faults > old(faults) || (fate.Done? && files == old(files))
    {
      ghost var w := Now();
      var move := setting.moves(turn);
      if move.corruption.Some? {
        var c := move.corruption.value;
        files := Put(Put(files, Partial(c.token), c.partial), StagedFile(c.token), c.staged);
      }
      if Struck(move) { faults := faults + 1; }
      fate := move.fate;
      turn := turn + 1;
      StepIsExplained(setting, w, Now(), false);
      CacheStepKeepsSafe(setting, w, Now());
    }

    /** `_write`: one atomic replacement of the journal file. */
    method Write(op: Op, j: Journal) returns (fate: Fate)
      requires Safe(setting, Now()) && op != DoPrepare && Edge(op, journal, j)
      requires op != DoConsentDownload && CollisionFree(setting) ==> IsNewer(j.plan.version, current)
      requires DiskOk(setting, Now(), j)
      modifies this`files, this`faults, this`turn, this`journal, this`log
      ensures Safe(setting, Now())
      ensures fate.Done? ==>
        CacheStep(old(Now()).(journal := Some(j), log := Then(old(log), Entry(op, j, current))), Now())
      ensures !fate.Done? ==> CacheStep(old(Now()), Now())
      ensures faults > old(faults) || (fate.Done? && files == old(files))
      ensures fate.Done? ==>
        Setbacks(log) == old(Setbacks(log)) + if op == DoResume && j.state == DownloadConsented then 1 else 0
    {
      ghost var w := Now();
      fate := Turn();
      if fate.Done? {
        DiskOkAfterCacheStep(setting, w, Now(), j);
        ghost var v := Now();
        log := Then(log, Entry(op, j, current));
        journal := Some(j);
        WroteKeepsSafe(setting, v, Now(), op, j, current);
      }
    }

    /** `unlink(missing_ok=True)` of a file in the cache directory. */
    method Unlink(p: Path) returns (fate: Fate)
      requires p.Partial? || p.StagedFile?
      requires Safe(setting, Now())
      modifies this`files, this`faults, this`turn
      ensures CacheStep(old(Now()), Now()) && Safe(setting, Now())
      ensures faults > old(faults) || (fate.Done? && files == Put(old(files), p, None))
      ensures fate.Done? ==> Read(files, p).None?
    {
      fate := Turn();
      if fate.Done? { files := Put(files, p, None); }
      CacheStepKeepsSafe(setting, old(Now()), Now());
    }

    /** `os.replace(partial, staged)`. */
    method Promote(token: nat) returns (fate: Fate)
      requires Safe(setting, Now())
      modifies this`files, this`faults, this`turn
      ensures CacheStep(old(Now()), Now()) && Safe(setting, Now())
      ensures faults > old(faults) || (fate.Done? <==> Read(old(files), Partial(token)).Some?)
      ensures faults > old(faults) || !fate.Done? || Read(files, StagedFile(token)) == Read(old(files), Partial(token))
    {
      fate := Turn();
      if fate.Done? {
        if Partial(token) !in files { return Failed; }
        files := Put(Put(files, StagedFile(token), Read(files, Partial(token))), Partial(token), None);
        CacheStepKeepsSafe(setting, old(Now()), Now());
      }
    }

    /** `downloader.download`: any downloader at all; leaving anything but the signed bytes is a fault. */
    method Fetch(plan: Plan) returns (fate: Fate)
      requires Safe(setting, Now()) && journal.Some? && journal.value.plan == plan
      modifies this`files, this`faults, this`turn, this`fetches
      ensures CacheStep(old(Now()), Now()) && Safe(setting, Now())
      ensures fetches == old(fetches) + 1 && Read(files, Partial(plan.token)) == setting.downloads(old(fetches))
      ensures faults > old(faults) || (fate.Done? && Good(setting, Read(files, Partial(plan.token)), plan))
    {
      ghost var w := Now();
      fate := Turn();
      var content := setting.downloads(fetches);
      fetches := fetches + 1;
      files := Put(files, Partial(plan.token), content);
      if !Good(setting, content, plan) { faults := faults + 1; }
      StepIsExplained(setting, w, Now(), true);
      CacheStepKeepsSafe(setting, w, Now());
    }

    /** `verify_artifact_file`: fails when the file is missing or is not the signed artifact. */
    method Verify(p: Path, plan: Plan) returns (fate: Fate)
      requires Safe(setting, Now())
      modifies this`files, this`faults, this`turn
      ensures CacheStep(old(Now()), Now()) && Safe(setting, Now())
      ensures faults > old(faults) || files == old(files)
      ensures faults > old(faults) || fate == if Good(setting, Read(files, p), plan) then Done else Failed
      ensures fate.Done? ==> Good(setting, Read(files, p), plan)
    {
      fate := Turn();
      if !fate.Done? { return; }
      if p !in files { return Failed; }
      var ok := ArtifactStreams.VerifyStream(files[p], ArtifactStreams.CHUNK, plan.size, plan.sha256, setting.digest);
      fate := if ok then Done else Failed;
    }

    // -------------------------------------------------------------- engine calls

    /** Whether the manifest may be used with this journal. */
    ghost predicate Matched(m: Manifest, now: int)
      reads this
    {
      journal.Some? &&
      MatchManifest(journal.value.plan, m, setting.fingerprint(m), setting.platform, current, now).Some?
    }

    /** A matched manifest is the one the attempt was prepared from. */
    lemma MatchedIsNewer(m: Manifest, now: int)
      requires Safe(setting, Now()) && Matched(m, now) && CollisionFree(setting)
      ensures start.prepared == Some(m) && IsNewer(journal.value.plan.version, current)
    {
    }

    /** The attempt is still about the same update. */
    ghost predicate SamePlan(w: World, v: World) {
      w.journal.Some? ==> v.journal.Some? && v.journal.value.plan == w.journal.value.plan
    }

    ghost predicate InState(s: State)
      reads this
    {
      journal.Some? && journal.value.state == s
    }

    twostate predicate Untouched()
      reads this
    {
      Now() == old(Now())
    }

    method Prepare(m: Manifest, now: int) returns (out: Outcome)
      requires Valid()
      modifies this`journal, this`files, this`faults, this`turn, this`log, this`nextToken, this`start
      ensures Valid() && Onward(old(Now()), Now()) && Read(files, Target) == old(Read(files, Target))
      ensures var accepted := SelectArtifact(m, setting.platform, current, now);
        if accepted.None? then out == Raised(PolicyError) && Untouched()
        else if old(journal.Some? && !Terminal(journal.value.state)) then out == Raised(StateError) && Untouched()
        else if out.Returned? then
          && out.state == Available && start.before == Read(files, Target)
          && journal == Some(Journal(Available, NewPlan(m, accepted.value, setting.fingerprint(m), old(nextToken))))
          && log == Then(old(log), Entry(DoPrepare, journal.value, current))
          && Matched(m, now) && OneStep(old(Now()), Now()) && FreshCounts(Now())
        else faults > old(faults) && journal == old(journal) && log == old(log) && OneStep(old(Now()), Now())
    {
      var a := SelectArtifact(m, setting.platform, current, now);
      if a.None? { return Raised(PolicyError); }
      if journal.Some? && !Terminal(journal.value.state) { return Raised(StateError); }
      NewPlanMatches(m, setting.fingerprint(m), setting.platform, current, now, nextToken);
      out := StartAttempt(m, Journal(Available, NewPlan(m, a.value, setting.fingerprint(m), nextToken)));
    }

    /** One move of the environment, and whether it struck. */
    ghost predicate OneStep(w: World, v: World) {
      v.turn == w.turn + 1 && v.faults == w.faults + if Struck(setting.moves(w.turn)) then 1 else 0
    }

    ghost predicate FreshCounts(v: World) {
      v.start.turn == v.turn && v.start.fetches == v.fetches && v.start.faults == v.faults
    }

    method StartAttempt(m: Manifest, j: Journal) returns (out: Outcome)
      requires Valid() && (journal.None? || Terminal(journal.value.state))
      requires j.state == Available && j.plan.token == nextToken && j.plan.fingerprint == setting.fingerprint(m)
      requires j.plan.version == m.version
      requires IsNewer(m.version, current) && PreparedFrom(setting, m, j.plan)
      modifies this`journal, this`files, this`faults, this`turn, this`log, this`nextToken, this`start
      ensures Valid() && OneStep(old(Now()), Now()) && Read(files, Target) == old(Read(files, Target))
      ensures if out.Returned? then
          && out.state == Available && journal == Some(j) && start.before == Read(files, Target)
          && log == Then(old(log), Entry(DoPrepare, j, current)) && FreshCounts(Now())
        else faults > old(faults) && journal == old(journal) && log == old(log)
    {
      var fate := Turn();
      if fate.Done? {
        Adopt(m, j);
        out := Returned(Available);
      } else {
        out := fate.PropagateFailure();
      }
    }

    /** The first journal of an attempt reaches the disk. */
    method Adopt(m: Manifest, j: Journal)
      requires Safe(setting, Now()) && (journal.None? || Terminal(journal.value.state))
      requires j.state == Available && j.plan.token == nextToken && j.plan.fingerprint == setting.fingerprint(m)
      requires j.plan.version == m.version
      requires IsNewer(m.version, current) && PreparedFrom(setting, m, j.plan)
      modifies this`journal, this`log, this`nextToken, this`start
      ensures Valid() && journal == Some(j) && log == Then(old(log), Entry(DoPrepare, j, current))
      ensures start == Start(turn, fetches, faults, Read(files, Target), Some(m))
    {
      ghost var w := Now();
      nextToken := nextToken + 1;
      journal := Some(j);
      log := Then(log, Entry(DoPrepare, j, current));
      start := Start(turn, fetches, faults, Read(files, Target), Some(m));
      PreparedIsValid(setting, w, Now(), j, current, m);
    }

    method ConsentDownload() returns (out: Outcome)
      requires Valid()
      modifies this`journal, this`files, this`faults, this`turn, this`log
      ensures Valid() && Onward(old(Now()), Now())
      ensures if !old(InState(Available)) then out == Raised(StateError) && Untouched()
        else if out.Returned? then
          && out.state == DownloadConsented && journal == Some(old(journal).value.(state := DownloadConsented))
          && log == Then(old(log), Entry(DoConsentDownload, journal.value, current))
        else faults > old(faults) && journal == old(journal) && log == old(log)
    {
      if journal.None? || journal.value.state != Available { return Raised(StateError); }
      :- Write(DoConsentDownload, journal.value.(state := DownloadConsented));
      out := Returned(DownloadConsented);
    }

    method Download(m: Manifest, now: int) returns (out: Outcome)
      requires Valid()
      modifies this`journal, this`files, this`faults, this`turn, this`log, this`fetches
      ensures Valid()
      ensures if !old(InState(DownloadConsented)) then out == Raised(StateError) && Untouched()
        else if !old(Matched(m, now)) then out == Raised(PolicyError) && Untouched()
        else DownloadResult(old(Now()), Now(), current, out)
    {
      if journal.None? || journal.value.state != DownloadConsented { return Raised(StateError); }
      if MatchManifest(journal.value.plan, m, setting.fingerprint(m), setting.platform, current, now).None? {
        return Raised(PolicyError);
      }
      if CollisionFree(setting) { MatchedIsNewer(m, now); }
      out := DownloadMatched(journal.value);
    }

    /** Either a fault stopped the download, or the three states were written and,
        unless a fault struck, the staged file is the signed artifact. */
    ghost predicate DownloadResult(w: World, v: World, current: SemVer.Parsed, out: Outcome) {
      w.journal.Some? && SamePlan(w, v) && Onward(w, v) && w.fetches <= v.fetches <= w.fetches + 1 &&
      if out.Returned? then
        var j := w.journal.value;
        && out.state == Staged && v.journal == Some(j.(state := Staged)) && v.fetches == w.fetches + 1
        && v.log == Then(Then(Then(w.log, Entry(DoDownload, j.(state := Downloading), current)),
                                          Entry(DoDownload, j.(state := Verified), current)),
                                     Entry(DoDownload, j.(state := Staged), current))
        && (v.faults > w.faults || Good(setting, Read(v.files, StagedFile(j.plan.token)), j.plan))
      else v.faults > w.faults
    }

    method DownloadMatched(j: Journal) returns (out: Outcome)
      requires Valid() && journal == Some(j) && j.state == DownloadConsented
      requires CollisionFree(setting) ==> IsNewer(j.plan.version, current)
      modifies this`journal, this`files, this`faults, this`turn, this`log, this`fetches
      ensures Valid() && DownloadResult(old(Now()), Now(), current, out)
    {
      ghost var w := Now();
      out := FetchVerified(j);
      ghost var u, first := Now(), out;
      if out.Returned? { out := StageVerified(j.(state := Verified)); }
      DownloadEnds(w, u, Now(), j, first, out);
    }

    ghost predicate FetchResult(w: World, v: World, current: SemVer.Parsed, j: Journal, out: Outcome) {
      Onward(w, v) && v.start == w.start && Setbacks(v.log) == Setbacks(w.log) &&
      w.fetches <= v.fetches <= w.fetches + 1 && v.journal.Some? && v.journal.value.plan == j.plan &&
      if out.Returned? then
        && v.journal == Some(j.(state := Verified)) && v.fetches == w.fetches + 1
        && v.log == Then(Then(w.log, Entry(DoDownload, j.(state := Downloading), current)),
                         Entry(DoDownload, j.(state := Verified), current))
        && (v.faults > w.faults || Good(setting, Read(v.files, Partial(j.plan.token)), j.plan))
      else v.faults > w.faults
    }

    ghost predicate StageResult(w: World, v: World, current: SemVer.Parsed, j: Journal, out: Outcome) {
      Onward(w, v) && v.start == w.start && Setbacks(v.log) == Setbacks(w.log) &&
      v.fetches == w.fetches && v.journal.Some? && v.journal.value.plan == j.plan &&
      if out.Returned? then
        && out.state == Staged && v.journal == Some(j.(state := Staged))
        && v.log == Then(w.log, Entry(DoDownload, j.(state := Staged), current))
        && (v.faults > w.faults || Read(v.files, StagedFile(j.plan.token)) == Read(w.files, Partial(j.plan.token)))
      else v.faults > w.faults || Read(w.files, Partial(j.plan.token)).None?
    }

    lemma DownloadEnds(w: World, u: World, v: World, j: Journal, first: Outcome, out: Outcome)
      requires Accounted(setting, w) && w.journal == Some(j) && FetchResult(w, u, current, j, first)
      requires if first.Returned? then StageResult(u, v, current, j.(state := Verified), out)
               else v == u && out == first
      ensures DownloadResult(w, v, current, out) && Accounted(setting, v)
    {
    }

    /** From consent to `VERIFIED`. */
    method FetchVerified(j: Journal) returns (out: Outcome)
      requires Safe(setting, Now()) && journal == Some(j) && j.state == DownloadConsented
      requires CollisionFree(setting) ==> IsNewer(j.plan.version, current)
      modifies this`journal, this`files, this`faults, this`turn, this`log, this`fetches
      ensures Safe(setting, Now()) && FetchResult(old(Now()), Now(), current, j, out)
    {
      ghost var w := Now();
      var fate := Write(DoDownload, j.(state := Downloading));
      ghost var u := Now();
      if fate.Done? {
        out := FetchDownloading(j.(state := Downloading));
        FetchEnds(w, u, Now(), j, out);
      } else {
        out := fate.PropagateFailure();
      }
    }

    /** From `DOWNLOADING` to `VERIFIED`. */
    method FetchDownloading(j: Journal) returns (out: Outcome)
      requires Safe(setting, Now()) && journal == Some(j) && j.state == Downloading
      requires CollisionFree(setting) ==> IsNewer(j.plan.version, current)
      modifies this`journal, this`files, this`faults, this`turn, this`log, this`fetches
      ensures Safe(setting, Now()) && DownloadingResult(old(Now()), Now(), current, j, out)
    {
      var fate := FetchPartial(j.plan);
      if fate.Done? { fate := Write(DoDownload, j.(state := Verified)); }
      out := if fate.Done? then Returned(Verified) else fate.PropagateFailure();
    }

    ghost predicate DownloadingResult(w: World, v: World, current: SemVer.Parsed, j: Journal, out: Outcome) {
      Onward(w, v) && v.start == w.start && Setbacks(v.log) == Setbacks(w.log) &&
      w.fetches <= v.fetches <= w.fetches + 1 && v.journal.Some? && v.journal.value.plan == j.plan &&
      if out.Returned? then
        && v.journal == Some(j.(state := Verified)) && v.fetches == w.fetches + 1
        && v.log == Then(w.log, Entry(DoDownload, j.(state := Verified), current))
        && (v.faults > w.faults || Good(setting, Read(v.files, Partial(j.plan.token)), j.plan))
      else v.faults > w.faults
    }

    lemma FetchEnds(w: World, u: World, v: World, j: Journal, out: Outcome)
      requires CacheStep(w.(journal := Some(j.(state := Downloading)),
                            log := Then(w.log, Entry(DoDownload, j.(state := Downloading), current))), u)
      requires u.fetches == w.fetches && DownloadingResult(u, v, current, j.(state := Downloading), out)
      ensures FetchResult(w, v, current, j, out)
    {
    }

    /** Clears the partial file, downloads it and verifies it. */
    method FetchPartial(plan: Plan) returns (fate: Fate)
      requires Safe(setting, Now()) && journal.Some? && journal.value.plan == plan
      modifies this`files, this`faults, this`turn, this`fetches
      ensures CacheStep(old(Now()), Now()) && Safe(setting, Now())
      ensures fetches <= old(fetches) + 1 && (fate.Done? ==> fetches == old(fetches) + 1)
      ensures faults > old(faults) || (fate.Done? && Good(setting, Read(files, Partial(plan.token)), plan))
    {
      fate := Unlink(Partial(plan.token));
      if fate.Done? { fate := Fetch(plan); }
      if fate.Done? { fate := Verify(Partial(plan.token), plan); }
    }

    /** From `VERIFIED` to `STAGED`. */
    method StageVerified(j: Journal) returns (out: Outcome)
      requires Safe(setting, Now()) && journal == Some(j) && j.state == Verified
      requires CollisionFree(setting) ==> IsNewer(j.plan.version, current)
      modifies this`journal, this`files, this`faults, this`turn, this`log
      ensures Safe(setting, Now()) && StageResult(old(Now()), Now(), current, j, out)
    {
      var fate := Unlink(StagedFile(j.plan.token));
      if fate.Done? { fate := Promote(j.plan.token); }
      if fate.Done? { fate := Write(DoDownload, j.(state := Staged)); }
      out := if fate.Done? then Returned(Staged) else fate.PropagateFailure();
    }

    method ConsentInstall(m: Manifest, now: int) returns (out: Outcome)
      requires Valid()
      modifies this`journal, this`files, this`faults, this`turn, this`log
      ensures Valid()
      ensures if !old(InState(Staged)) then out == Raised(StateError) && Untouched()
        else if !old(Matched(m, now)) then out == Raised(PolicyError) && Untouched()
        else ConsentInstallResult(old(Now()), Now(), current, out)
    {
      if journal.None? || journal.value.state != Staged { return Raised(StateError); }
      if MatchManifest(journal.value.plan, m, setting.fingerprint(m), setting.platform, current, now).None? {
        return Raised(PolicyError);
      }
      if CollisionFree(setting) { MatchedIsNewer(m, now); }
      out := ConsentInstallMatched(journal.value);
    }

    /** The consent is recorded; without a fault, exactly when the staged file is the signed artifact. */
    ghost predicate ConsentInstallResult(w: World, v: World, current: SemVer.Parsed, out: Outcome) {
      w.journal.Some? && Onward(w, v) &&
      var j := w.journal.value;
      && (v.faults > w.faults || v.files == w.files)
      && (v.faults > w.faults || (out.Returned? <==> Good(setting, Read(w.files, StagedFile(j.plan.token)), j.plan)))
      && if out.Returned? then
           && out.state == InstallConsented && v.journal == Some(j.(state := InstallConsented))
           && v.log == Then(w.log, Entry(DoConsentInstall, j.(state := InstallConsented), current))
         else v.journal == w.journal && v.log == w.log
    }

    method ConsentInstallMatched(j: Journal) returns (out: Outcome)
      requires Valid() && journal == Some(j) && j.state == Staged
      requires CollisionFree(setting) ==> IsNewer(j.plan.version, current)
      modifies this`journal, this`files, this`faults, this`turn, this`log
      ensures Valid() && ConsentInstallResult(old(Now()), Now(), current, out)
    {
      ghost var w := Now();
      var fate := Verify(StagedFile(j.plan.token), j.plan);
      if fate.Done? { fate := Write(DoConsentInstall, j.(state := InstallConsented)); }
      FaultPays(setting, w, Now());
      out := if fate.Done? then Returned(InstallConsented) else fate.PropagateFailure();
    }

    // -------------------------------------------------------------- the file installer

    /** `_durable_copy`: copies into a temporary file, optionally checks size and digest of what was copied,
        then atomically replaces the destination. */
    method DurableCopy(from: Path, to: Path, expected: Option<Plan>) returns (fate: Fate, data: Bytes)
      requires Safe(setting, Now()) && (to.Target? || to.Backup?)
      modifies this`files, this`faults, this`turn
      ensures fate.Done? ==> Copied(old(Now()), Now(), to, data) && Explained(setting, Now())
      ensures faults > old(faults) || !fate.Done? || files == Put(old(files), to, Some(data))
      ensures fate.Done? && expected.Some? ==> Good(setting, Some(data), expected.value)
      ensures fate.Done? && (from.Target? || from.Backup?) ==> old(Read(files, from)) == Some(data)
      ensures !fate.Done? ==> CacheStep(old(Now()), Now()) && Safe(setting, Now())
      ensures faults > old(faults) ||
        (fate.Done? <==>
          old(Read(files, from)).Some? && (expected.Some? ==> Good(setting, old(Read(files, from)), expected.value)))
    {
      fate, data := ReadSource(from, expected);
      if fate.Done? {
        ghost var w := Now();
        fate := Turn();
        ghost var v := Now();
        if fate.Done? {
          files := Put(files, to, Some(data));
          CopyDone(old(Now()), w, v, Now(), to, data);
        }
      }
    }

    /** The first half of a copy: the source's content, checked if a plan asks for it. */
    method ReadSource(from: Path, expected: Option<Plan>) returns (fate: Fate, data: Bytes)
      requires Safe(setting, Now())
      modifies this`files, this`faults, this`turn
      ensures CacheStep(old(Now()), Now()) && Safe(setting, Now())
      ensures faults > old(faults) || files == old(files)
      ensures fate.Done? && expected.Some? ==> Good(setting, Some(data), expected.value)
      ensures fate.Done? && (from.Target? || from.Backup?) ==> old(Read(files, from)) == Some(data)
      ensures faults > old(faults) ||
        (fate.Done? <==>
          old(Read(files, from)).Some? && (expected.Some? ==> Good(setting, old(Read(files, from)), expected.value)))
    {
      data := [];
      fate := Turn();
      if fate.Done? {
        fate := Failed;
        if from in files {
          var copy := ArtifactStreams.CopyStream(
            files[from],
            if expected.None? then None else Some((expected.value.size, expected.value.sha256)), setting.digest);
          if copy.Some? { fate, data := Done, copy.value; }
        }
      }
    }

    lemma CopyDone(w: World, u: World, v: World, x: World, to: Path, data: Bytes)
      requires CacheStep(w, u) && CacheStep(u, v) && x == v.(files := Put(v.files, to, Some(data)))
      requires v.fetches == w.fetches
      ensures Copied(w, x, to, data)
    {
    }

    /** This package may replace its program file, and there is one. */
    ghost predicate Replaceable(w: World) { setting.installer.AtomicFile? && w.start.before.Some? }

    ghost predicate StagedGood(w: World, plan: Plan) { Good(setting, Read(w.files, StagedFile(plan.token)), plan) }

    /** `AtomicFileUpdateInstaller.install`, or the refusal of `FailClosedUpdateInstaller`. */
    method InstallFiles(j: Journal) returns (fate: Fate)
      requires Safe(setting, Now()) && journal == Some(j) && j.state == Installing
      requires Read(files, Backup(j.plan.token)).None?
      modifies this`files, this`faults, this`turn
      ensures Safe(setting, Now()) && Onward(old(Now()), Now())
      ensures fate.Done? ==> Good(setting, Read(files, Target), j.plan)
      ensures fate.Done? ==> Read(files, Backup(j.plan.token)) == start.before
      ensures faults > old(faults) || !StagedGood(old(Now()), j.plan) ||
        if Replaceable(Now()) then fate.Done? else fate.Failed? && Read(files, Backup(j.plan.token)).None?
    {
      if setting.installer.FailClosed? { return Failed; }
      if StagedFile(j.plan.token) !in files || Target !in files { return Failed; }
      ghost var w := Now();
      var data: Bytes;
      fate, data := DurableCopy(Target, Backup(j.plan.token), None);
      if !fate.Done? { return; }
      BackedUp(setting, w, Now(), j, data);
      ghost var v := Now();
      fate, data := DurableCopy(StagedFile(j.plan.token), Target, Some(j.plan));
      if fate.Done? { Replaced(setting, v, Now(), j, data); }
    }

    /** `AtomicFileUpdateInstaller.rollback`, or the refusal of `FailClosedUpdateInstaller`. */
    method RestoreBackup(j: Journal) returns (fate: Fate)
      requires Safe(setting, Now()) && journal == Some(j) && (j.state == Installing || j.state == HealthCheck)
      modifies this`files, this`faults, this`turn
      ensures Safe(setting, Now()) && Onward(old(Now()), Now())
      ensures fate.Done? ==> Read(files, Target) == start.before
      ensures faults > old(faults) ||
        (if Restorable(old(Now()), j.plan) then fate.Done? else fate.Failed?)
    {
      if setting.installer.FailClosed? || Backup(j.plan.token) !in files { return Failed; }
      ghost var w := Now();
      var data: Bytes;
      fate, data := DurableCopy(Backup(j.plan.token), Target, None);
      if fate.Done? { Restored(setting, w, Now(), j, data); }
    }

    ghost predicate Restorable(w: World, plan: Plan) {
      setting.installer.AtomicFile? && Read(w.files, Backup(plan.token)).Some?
    }

    /** The injected health check: any verdict about the program that is now installed. */
    method CheckHealth(j: Journal) returns (fate: Fate, healthy: bool)
      requires Safe(setting, Now()) && Read(files, Target).Some?
      modifies this`files, this`faults, this`turn, this`passed, this`checks
      ensures Safe(setting, Now()) && CacheStep(old(Now()).(checks := checks, passed := passed), Now())
      ensures checks == old(checks) + 1 && healthy == setting.verdicts(old(checks))
      ensures faults > old(faults) || fate.Done?
      ensures passed == old(passed) +
        if fate.Done? && healthy then {(j.plan.token, j.plan.version, Read(files, Target).value)} else {}
    {
      fate := Turn();
      healthy := setting.verdicts(checks);
      ghost var w := Now();
      checks := checks + 1;
      if fate.Done? && healthy {
        passed := passed + {(j.plan.token, j.plan.version, Read(files, Target).value)};
      }
      PassedKeepsSafe(setting, w, Now());
    }

    /** At most one health check was made, and a pass was recorded only if its verdict was one. */
    ghost predicate CheckedOnce(w: World, v: World) {
      && w.checks <= v.checks <= w.checks + 1
      && (v.passed == w.passed || ChecksPass(w, v))
    }

    ghost predicate ChecksPass(w: World, v: World) { v.checks == w.checks + 1 && setting.verdicts(w.checks) }

    /** `_rollback`. */
    method RollBack(op: Op, j: Journal) returns (out: Outcome)
      requires Safe(setting, Now()) && journal == Some(j) && (j.state == Installing || j.state == HealthCheck)
      requires op == DoInstall || op == DoResume
      requires CollisionFree(setting) ==> IsNewer(j.plan.version, current)
      modifies this`journal, this`files, this`faults, this`turn, this`log
      ensures Safe(setting, Now()) && RollBackResult(old(Now()), Now(), op, current, out)
    {
      var fate := RestoreBackup(j);
      if fate.Crashed? { return Died; }
      var last := if fate.Failed? then ManualRecovery else RolledBack;
      :- Write(op, j.(state := last));
      out := Returned(last);
    }

    ghost predicate RollBackResult(w: World, v: World, op: Op, current: SemVer.Parsed, out: Outcome) {
      w.journal.Some? && Onward(w, v) && Setbacks(v.log) == Setbacks(w.log) &&
      var j := w.journal.value;
      && (v.faults > w.faults || out == Returned(if Restorable(w, j.plan) then RolledBack else ManualRecovery))
      && if out.Returned? then
           && (out.state == RolledBack || out.state == ManualRecovery)
           && v.journal == Some(j.(state := out.state)) && v.log == Then(w.log, Entry(op, v.journal.value, current))
         else v.journal == w.journal && v.log == w.log
    }

    // -------------------------------------------------------------- install and resume

    method Install(m: Manifest, now: int) returns (out: Outcome)
      requires Valid()
      modifies this`journal, this`files, this`faults, this`turn, this`log, this`passed, this`checks
      ensures Valid()
      ensures if !old(InState(InstallConsented)) then out == Raised(StateError) && Untouched()
        else if !old(Matched(m, now)) then out == Raised(PolicyError) && Untouched()
        else InstallResult(old(Now()), Now(), current, out)
    {
      if journal.None? || journal.value.state != InstallConsented { return Raised(StateError); }
      if MatchManifest(journal.value.plan, m, setting.fingerprint(m), setting.platform, current, now).None? {
        return Raised(PolicyError);
      }
      if CollisionFree(setting) { MatchedIsNewer(m, now); }
      out := InstallMatched(journal.value);
    }

    /** A commit went through every state on a passed check. Without a fault the verdict decides between commit and
        rollback, an unsupported package ends in manual recovery, and a bad staged file stops the call. */
    ghost predicate InstallResult(w: World, v: World, current: SemVer.Parsed, out: Outcome) {
      w.journal.Some? && SamePlan(w, v) && Onward(w, v) && CheckedOnce(w, v) &&
      var j := w.journal.value;
      && (out == Returned(Committed) ==>
            && ChecksPass(w, v) && v.journal == Some(j.(state := Committed))
            && v.log == Then(Then(Then(w.log, Entry(DoInstall, j.(state := Installing), current)),
                                       Entry(DoInstall, j.(state := HealthCheck), current)),
                                  Entry(DoInstall, j.(state := Committed), current)))
      && (out.Returned? && out.state != Committed ==>
            (out.state == RolledBack || out.state == ManualRecovery) && v.journal == Some(j.(state := out.state)))
      && (v.faults > w.faults ||
            if !StagedGood(w, j.plan) then out == Raised(OperationError) && v.journal == w.journal
            else if !Replaceable(w) then out == Returned(ManualRecovery)
            else
              && v.checks == w.checks + 1
              && out == Returned(if setting.verdicts(w.checks) then Committed else RolledBack))
    }

    method InstallMatched(j: Journal) returns (out: Outcome)
      requires Valid() && journal == Some(j) && j.state == InstallConsented
      requires CollisionFree(setting) ==> IsNewer(j.plan.version, current)
      modifies this`journal, this`files, this`faults, this`turn, this`log, this`passed, this`checks
      ensures Valid() && InstallResult(old(Now()), Now(), current, out)
    {
      ghost var w := Now();
      var fate := BeginInstall(j);
      ghost var u := Now();
      if fate.Done? {
        out := RunInstaller(j.(state := Installing));
      } else {
        out := fate.PropagateFailure();
      }
      InstallEnds(w, u, Now(), j, fate, out);
    }

    /** Verify the staged file once more, then write `INSTALLING`. */
    method BeginInstall(j: Journal) returns (fate: Fate)
      requires Safe(setting, Now()) && journal == Some(j) && j.state == InstallConsented
      requires CollisionFree(setting) ==> IsNewer(j.plan.version, current)
      modifies this`journal, this`files, this`faults, this`turn, this`log
      ensures Safe(setting, Now()) && BeginResult(old(Now()), Now(), j, current, fate)
      ensures fate.Done? ==> Read(files, Backup(j.plan.token)).None?
    {
      fate := Verify(StagedFile(j.plan.token), j.plan);
      if fate.Done? { fate := Write(DoInstall, j.(state := Installing)); }
    }

    ghost predicate BeginResult(w: World, v: World, j: Journal, current: SemVer.Parsed, fate: Fate) {
      && Onward(w, v) && v.start == w.start && v.checks == w.checks && v.passed == w.passed
      && Setbacks(v.log) == Setbacks(w.log)
      && (v.faults > w.faults || (v.files == w.files && fate == if StagedGood(v, j.plan) then Done else Failed))
      && if fate.Done? then
           && v.journal == Some(j.(state := Installing))
           && v.log == Then(w.log, Entry(DoInstall, j.(state := Installing), current))
         else v.journal == w.journal && v.log == w.log
    }

    lemma InstallEnds(w: World, u: World, v: World, j: Journal, fate: Fate, out: Outcome)
      requires Accounted(setting, w) && w.journal == Some(j) && j.state == InstallConsented && v.start == u.start
      requires BeginResult(w, u, j, current, fate)
      requires if fate.Done? then RunInstallerResult(u, v, current, out) else v == u && out == fate.PropagateFailure()
      ensures InstallResult(w, v, current, out) && Accounted(setting, v)
    {
      if fate.Done? { RunMakesInstall(w, u, v, out); }
      FaultPays(setting, w, v);
    }

    lemma RunMakesInstall(w: World, u: World, v: World, out: Outcome)
      requires w.journal.Some? && BeginResult(w, u, w.journal.value, current, Done)
      requires RunInstallerResult(u, v, current, out)
      ensures InstallResult(w, v, current, out) && !Owed(setting, v)
    {
    }

    /** The part of `install` under its exception handler. */
    method RunInstaller(j: Journal) returns (out: Outcome)
      requires Safe(setting, Now()) && journal == Some(j) && j.state == Installing
      requires Read(files, Backup(j.plan.token)).None?
      requires CollisionFree(setting) ==> IsNewer(j.plan.version, current)
      modifies this`journal, this`files, this`faults, this`turn, this`log, this`passed, this`checks
      ensures Safe(setting, Now()) && RunInstallerResult(old(Now()), Now(), current, out)
    {
      ghost var w := Now();
      var fate := InstallAndCheck(j);
      ghost var m := Now();
      if fate.Crashed? {
        out := Died;
      } else if fate.Failed? {
        out := RollBack(DoInstall, journal.value);
        RolledBackInstall(w, m, Now(), current, out);
      } else {
        out := Commit(journal.value);
        CheckedInstall(w, m, Now(), current, out);
      }
    }

    method Commit(j: Journal) returns (out: Outcome)
      requires Safe(setting, Now()) && journal == Some(j) && j.state == HealthCheck
      requires DiskOk(setting, Now(), j.(state := Committed))
      requires CollisionFree(setting) ==> IsNewer(j.plan.version, current)
      modifies this`journal, this`files, this`faults, this`turn, this`log
      ensures Safe(setting, Now()) && CommitResult(old(Now()), Now(), current, out)
    {
      var fate := Write(DoInstall, j.(state := Committed));
      out := if fate.Done? then Returned(Committed) else fate.PropagateFailure();
    }

    ghost predicate CommitResult(w: World, v: World, current: SemVer.Parsed, out: Outcome) {
      w.journal.Some? && Onward(w, v) && Setbacks(v.log) == Setbacks(w.log) &&
      v.checks == w.checks && v.passed == w.passed &&
      if out.Returned? then
        && out.state == Committed && v.journal == Some(w.journal.value.(state := Committed))
        && v.log == Then(w.log, Entry(DoInstall, v.journal.value, current))
      else v.journal == w.journal && v.log == w.log && v.faults > w.faults
    }

    lemma RolledBackInstall(w: World, m: World, v: World, current: SemVer.Parsed, out: Outcome)
      requires w.journal.Some? && w.journal.value.state == Installing && v.checks == m.checks && v.passed == m.passed
      requires InstallAndCheckResult(w, m, current, Failed) && RollBackResult(m, v, DoInstall, current, out)
      ensures RunInstallerResult(w, v, current, out)
    {
    }

    lemma CheckedInstall(w: World, m: World, v: World, current: SemVer.Parsed, out: Outcome)
      requires InstallAndCheckResult(w, m, current, Done) && CommitResult(m, v, current, out)
      ensures RunInstallerResult(w, v, current, out)
    {
    }

    ghost predicate RunInstallerResult(w: World, v: World, current: SemVer.Parsed, out: Outcome) {
      w.journal.Some? && Onward(w, v) && CheckedOnce(w, v) && Setbacks(v.log) == Setbacks(w.log) &&
      var j := w.journal.value;
      && v.journal.Some? && v.journal == Some(j.(state := v.journal.value.state))
      && (v.journal.value.state in {Installing, HealthCheck, Committed, RolledBack, ManualRecovery})
      && (out.Returned? ==>
            v.journal.value.state == out.state && (out.state in {Committed, RolledBack, ManualRecovery}))
      && (out == Returned(Committed) ==>
            && ChecksPass(w, v)
            && v.log == Then(Then(w.log, Entry(DoInstall, j.(state := HealthCheck), current)),
                             Entry(DoInstall, j.(state := Committed), current)))
      && (v.faults > w.faults || !StagedGood(w, j.plan) ||
            if !Replaceable(w) then out == Returned(ManualRecovery)
            else
              && v.checks == w.checks + 1
              && out == Returned(if setting.verdicts(w.checks) then Committed else RolledBack))
    }

    /** Install, write `HEALTH_CHECK`, check; an unhealthy program counts as a failure of the step. */
    method InstallAndCheck(j: Journal) returns (fate: Fate)
      requires Safe(setting, Now()) && journal == Some(j) && j.state == Installing
      requires Read(files, Backup(j.plan.token)).None?
      requires CollisionFree(setting) ==> IsNewer(j.plan.version, current)
      modifies this`journal, this`files, this`faults, this`turn, this`log, this`passed, this`checks
      ensures Safe(setting, Now()) && InstallAndCheckResult(old(Now()), Now(), current, fate)
      ensures fate.Done? ==> DiskOk(setting, Now(), j.(state := Committed))
    {
      ghost var w := Now();
      fate := InstallFiles(j);
      if fate.Done? {
        ghost var u := Now();
        fate := CheckInstalled(j);
        CheckedInPlace(w, u, Now(), j, fate);
      }
    }

    lemma CheckedInPlace(w: World, u: World, v: World, j: Journal, fate: Fate)
      requires w.journal == Some(j) && u == w.(files := u.files, turn := u.turn, faults := u.faults) && Onward(w, u)
      requires u.faults > w.faults || !StagedGood(w, j.plan) || Replaceable(u)
      requires CheckResult(u, v, j, current, fate)
      ensures InstallAndCheckResult(w, v, current, fate)
    {
    }

    ghost predicate InstallAndCheckResult(w: World, v: World, current: SemVer.Parsed, fate: Fate) {
      w.journal.Some? && v.start == w.start && Onward(w, v) && CheckedOnce(w, v) &&
      Setbacks(v.log) == Setbacks(w.log) &&
      var j := w.journal.value;
      && (v.journal == Some(j) || v.journal == Some(j.(state := HealthCheck)))
      && (fate.Done? ==>
            && v.journal == Some(j.(state := HealthCheck)) && ChecksPass(w, v)
            && v.log == Then(w.log, Entry(DoInstall, j.(state := HealthCheck), current)))
      && (v.faults > w.faults || !StagedGood(w, j.plan) ||
            if Replaceable(v) then
              && v.checks == w.checks + 1 && Restorable(v, j.plan)
              && fate == (if setting.verdicts(w.checks) then Done else Failed)
            else fate.Failed? && !Restorable(v, j.plan))
    }

    /** The new program is in place: write `HEALTH_CHECK` and check it. */
    method CheckInstalled(j: Journal) returns (fate: Fate)
      requires Safe(setting, Now()) && journal == Some(j) && j.state == Installing
      requires Good(setting, Read(files, Target), j.plan) && Read(files, Backup(j.plan.token)) == start.before
      requires CollisionFree(setting) ==> IsNewer(j.plan.version, current)
      modifies this`journal, this`files, this`faults, this`turn, this`log, this`passed, this`checks
      ensures Safe(setting, Now()) && CheckResult(old(Now()), Now(), j, current, fate)
      ensures fate.Done? ==> DiskOk(setting, Now(), j.(state := Committed))
    {
      ghost var w := Now();
      fate := Write(DoInstall, j.(state := HealthCheck));
      ghost var u := Now();
      if fate.Done? {
        fate := PassHealth(j.(state := HealthCheck));
        HealthDecides(w, u, Now(), j, fate);
      }
    }

    /** An unhealthy verdict counts as a failure of the step. */
    method PassHealth(j: Journal) returns (fate: Fate)
      requires Safe(setting, Now()) && journal == Some(j) && j.state == HealthCheck
      requires Good(setting, Read(files, Target), j.plan) && Read(files, Backup(j.plan.token)) == start.before
      modifies this`files, this`faults, this`turn, this`passed, this`checks
      ensures Safe(setting, Now()) && HealthResult(old(Now()), Now(), j, fate)
      ensures fate.Done? ==> DiskOk(setting, Now(), j.(state := Committed))
    {
      var healthy;
      fate, healthy := CheckHealth(j);
      if fate.Done? && !healthy { fate := Failed; }
    }

    ghost predicate HealthResult(w: World, v: World, j: Journal, fate: Fate) {
      && Onward(w, v) && v.checks == w.checks + 1 && (v.passed == w.passed || ChecksPass(w, v))
      && (fate.Done? ==> ChecksPass(w, v))
      && (v.faults > w.faults || fate == if setting.verdicts(w.checks) then Done else Failed)
      && Read(v.files, Backup(j.plan.token)) == Read(w.files, Backup(j.plan.token))
    }

    ghost predicate CheckResult(w: World, v: World, j: Journal, current: SemVer.Parsed, fate: Fate) {
      && Onward(w, v) && CheckedOnce(w, v) && v.start == w.start && Setbacks(v.log) == Setbacks(w.log)
      && (v.journal == Some(j) || v.journal == Some(j.(state := HealthCheck)))
      && (fate.Done? ==>
            && v.journal == Some(j.(state := HealthCheck)) && ChecksPass(w, v)
            && v.log == Then(w.log, Entry(DoInstall, j.(state := HealthCheck), current)))
      && Read(v.files, Backup(j.plan.token)) == w.start.before
      && (v.faults > w.faults ||
            (v.checks == w.checks + 1 && fate == if setting.verdicts(w.checks) then Done else Failed))
    }

    lemma HealthDecides(w: World, u: World, v: World, j: Journal, fate: Fate)
      requires CacheStep(w.(journal := Some(j.(state := HealthCheck)),
                            log := Then(w.log, Entry(DoInstall, j.(state := HealthCheck), current))), u)
      requires Read(u.files, Backup(j.plan.token)) == w.start.before && HealthResult(u, v, j, fate)
      requires v.journal == u.journal && v.log == u.log && v.start == u.start
      ensures CheckResult(w, v, j, current, fate)
    {
    }

    method Resume(m: Manifest, now: int) returns (out: Outcome)
      requires Valid()
      modifies this`journal, this`files, this`faults, this`turn, this`log
      ensures Valid()
      ensures if old(journal).None? then out == Raised(StateError) && Untouched()
        else if !old(Matched(m, now)) then out == Raised(PolicyError) && Untouched()
        else ResumeResult(old(Now()), Now(), current, out)
    {
      if journal.None? { return Raised(StateError); }
      if MatchManifest(journal.value.plan, m, setting.fingerprint(m), setting.platform, current, now).None? {
        return Raised(PolicyError);
      }
      if CollisionFree(setting) { MatchedIsNewer(m, now); }
      var j := journal.value;
      match j.state
      case Downloading => out := ResumeDownloading(j);
      case Verified => out := ResumeVerified(j);
      case Staged | InstallConsented => out := ResumeStaged(j);
      case Installing | HealthCheck => out := ResumeInstalling(j);
      case Available | DownloadConsented | Committed | RolledBack | ManualRecovery => out := Returned(j.state);
    }

    /** Where recovery goes from each state, and exactly where when no fault strikes during recovery itself. */
    ghost predicate ResumeResult(w: World, v: World, current: SemVer.Parsed, out: Outcome) {
      w.journal.Some? && SamePlan(w, v) && Onward(w, v) &&
      var j := w.journal.value;
      && (out.Returned? ==>
            && v.journal == Some(j.(state := out.state))
            && v.log == if out.state == j.state then w.log else Then(w.log, Entry(DoResume, v.journal.value, current)))
      && (v.faults > w.faults || out == Returned(ResumeState(w, j)))
      && (out.Returned? ==> out.state == j.state || Allowed(DoResume, j.state, out.state))
    }

    /** The state recovery reaches when nothing goes wrong meanwhile. */
    ghost function ResumeState(w: World, j: Journal): State {
      match j.state
      case Downloading => DownloadConsented
      case Verified =>
        if Good(setting, Read(w.files, Candidate(w, j.plan)), j.plan) then Staged else DownloadConsented
      case Staged | InstallConsented => if StagedGood(w, j.plan) then j.state else DownloadConsented
      case Installing | HealthCheck => if Restorable(w, j.plan) then RolledBack else ManualRecovery
      case Available | DownloadConsented | Committed | RolledBack | ManualRecovery => j.state
    }

    method ResumeDownloading(j: Journal) returns (out: Outcome)
      requires Valid() && journal == Some(j) && j.state == Downloading
      requires CollisionFree(setting) ==> IsNewer(j.plan.version, current)
      modifies this`journal, this`files, this`faults, this`turn, this`log
      ensures Valid() && ResumeResult(old(Now()), Now(), current, out)
    {
      ghost var w := Now();
      out := DropDownload(j);
      DownloadingResumes(w, Now(), j, out);
    }

    /** Drops a half-done download and asks for a new one. */
    method DropDownload(j: Journal) returns (out: Outcome)
      requires Safe(setting, Now()) && journal == Some(j) && j.state == Downloading
      requires CollisionFree(setting) ==> IsNewer(j.plan.version, current)
      modifies this`journal, this`files, this`faults, this`turn, this`log
      ensures Safe(setting, Now()) && Discarded(old(Now()), Now(), j, current, out)
    {
      var fate := Unlink(Partial(j.plan.token));
      if fate.Done? { fate := Write(DoResume, j.(state := DownloadConsented)); }
      out := if fate.Done? then Returned(DownloadConsented) else fate.PropagateFailure();
    }

    lemma DownloadingResumes(w: World, v: World, j: Journal, out: Outcome)
      requires Accounted(setting, w) && w.journal == Some(j) && j.state == Downloading
      requires Discarded(w, v, j, current, out)
      ensures ResumeResult(w, v, current, out) && Accounted(setting, v)
    {
    }

    /** Drops the downloaded files and asks for a new download. */
    method Discard(j: Journal, partialToo: bool) returns (out: Outcome)
      requires Safe(setting, Now()) && journal == Some(j) && (j.state in {Verified, Staged, InstallConsented})
      requires CollisionFree(setting) ==> IsNewer(j.plan.version, current)
      modifies this`journal, this`files, this`faults, this`turn, this`log
      ensures Safe(setting, Now()) && Discarded(old(Now()), Now(), j, current, out)
    {
      var fate := Done;
      if partialToo { fate := Unlink(Partial(j.plan.token)); }
      if fate.Done? { fate := Unlink(StagedFile(j.plan.token)); }
      if fate.Done? { fate := Write(DoResume, j.(state := DownloadConsented)); }
      out := if fate.Done? then Returned(DownloadConsented) else fate.PropagateFailure();
    }

    ghost predicate Discarded(w: World, v: World, j: Journal, current: SemVer.Parsed, out: Outcome) {
      Onward(w, v) && v.start == w.start &&
      (v.faults > w.faults || out == Returned(DownloadConsented)) &&
      if out.Returned? then
        && out.state == DownloadConsented && v.journal == Some(j.(state := DownloadConsented))
        && v.log == Then(w.log, Entry(DoResume, v.journal.value, current)) && Setbacks(v.log) == Setbacks(w.log) + 1
      else v.journal == w.journal && v.log == w.log
    }

    method ResumeStaged(j: Journal) returns (out: Outcome)
      requires Valid() && journal == Some(j) && (j.state == Staged || j.state == InstallConsented)
      requires CollisionFree(setting) ==> IsNewer(j.plan.version, current)
      modifies this`journal, this`files, this`faults, this`turn, this`log
      ensures Valid() && ResumeResult(old(Now()), Now(), current, out)
    {
      ghost var w := Now();
      var fate := Verify(StagedFile(j.plan.token), j.plan);
      ghost var u := Now();
      if fate.Failed? {
        out := Discard(j, false);
      } else {
        out := if fate.Done? then Returned(j.state) else Died;
      }
      StagedResumes(w, u, Now(), j, fate, out);
    }

    lemma StagedResumes(w: World, u: World, v: World, j: Journal, fate: Fate, out: Outcome)
      requires Accounted(setting, w) && w.journal == Some(j) && (j.state == Staged || j.state == InstallConsented)
      requires CacheStep(w, u)
      requires u.faults > w.faults || (u.files == w.files && fate == if StagedGood(w, j.plan) then Done else Failed)
      requires if fate.Failed? then Discarded(u, v, j, current, out)
               else v == u && out == if fate.Done? then Returned(j.state) else Died
      ensures ResumeResult(w, v, current, out) && Accounted(setting, v)
    {
      if v.journal.value.state == DownloadConsented { SetbackIsPaid(setting, w, v); } else { FaultPays(setting, w, v); }
    }

    method ResumeVerified(j: Journal) returns (out: Outcome)
      requires Valid() && journal == Some(j) && j.state == Verified
      requires CollisionFree(setting) ==> IsNewer(j.plan.version, current)
      modifies this`journal, this`files, this`faults, this`turn, this`log
      ensures Valid() && ResumeResult(old(Now()), Now(), current, out)
    {
      ghost var w := Now();
      var isPartial := Partial(j.plan.token) in files;
      var fate := Verify(if isPartial then Partial(j.plan.token) else StagedFile(j.plan.token), j.plan);
      ghost var u := Now();
      if fate.Failed? {
        out := Discard(j, true);
      } else if fate.Crashed? {
        out := Died;
      } else {
        out := KeepVerified(j, isPartial);
      }
      VerifiedResumes(w, u, Now(), j, fate, out);
    }

    /** The file that recovery looks at in `VERIFIED`. */
    ghost function Candidate(w: World, plan: Plan): Path {
      if Partial(plan.token) in w.files then Partial(plan.token) else StagedFile(plan.token)
    }

    lemma VerifiedResumes(w: World, u: World, v: World, j: Journal, fate: Fate, out: Outcome)
      requires Accounted(setting, w) && w.journal == Some(j) && j.state == Verified && CacheStep(w, u)
      requires u.faults > w.faults || u.files == w.files
      requires u.faults > w.faults ||
        fate == if Good(setting, Read(w.files, Candidate(w, j.plan)), j.plan) then Done else Failed
      requires match fate
        case Failed => Discarded(u, v, j, current, out)
        case Crashed => v == u && out == Died
        case Done => Kept(u, v, j, Partial(j.plan.token) in w.files, current, out)
      ensures ResumeResult(w, v, current, out) && Accounted(setting, v)
    {
      if v.journal.value.state == DownloadConsented { SetbackIsPaid(setting, w, v); } else { FaultPays(setting, w, v); }
    }

    /** The verified candidate becomes the staged file. */
    method KeepVerified(j: Journal, isPartial: bool) returns (out: Outcome)
      requires Safe(setting, Now()) && journal == Some(j) && j.state == Verified
      requires CollisionFree(setting) ==> IsNewer(j.plan.version, current)
      modifies this`journal, this`files, this`faults, this`turn, this`log
      ensures Safe(setting, Now()) && Kept(old(Now()), Now(), j, isPartial, current, out)
    {
      if isPartial { :- Promote(j.plan.token); }
      :- Write(DoResume, j.(state := Staged));
      out := Returned(Staged);
    }

    ghost predicate Kept(w: World, v: World, j: Journal, isPartial: bool, current: SemVer.Parsed, out: Outcome) {
      Onward(w, v) && v.start == w.start && Setbacks(v.log) == Setbacks(w.log) &&
      (v.faults > w.faults || (isPartial && Read(w.files, Partial(j.plan.token)).None?) || out == Returned(Staged)) &&
      if out.Returned? then
        && out.state == Staged && v.journal == Some(j.(state := Staged))
        && v.log == Then(w.log, Entry(DoResume, v.journal.value, current))
      else v.journal == w.journal && v.log == w.log
    }

    method ResumeInstalling(j: Journal) returns (out: Outcome)
      requires Valid() && journal == Some(j) && (j.state == Installing || j.state == HealthCheck)
      requires CollisionFree(setting) ==> IsNewer(j.plan.version, current)
      modifies this`journal, this`files, this`faults, this`turn, this`log
      ensures Valid() && ResumeResult(old(Now()), Now(), current, out)
    {
      ghost var w := Now();
      out := RollBack(DoResume, j);
      InstallingResumes(w, Now(), out);
    }

    lemma InstallingResumes(w: World, v: World, out: Outcome)
      requires Accounted(setting, w) && w.journal.Some? && v.start == w.start
      requires w.journal.value.state == Installing || w.journal.value.state == HealthCheck
      requires RollBackResult(w, v, DoResume, current, out)
      ensures ResumeResult(w, v, current, out) && Accounted(setting, v)
    {
      FaultPays(setting, w, v);
    }

    /** Remembers the history so far. */
    ghost method SetMark()
      requires Valid()
      modifies this`mark
      ensures Valid() && mark == log
    {
      ghost var w := Now();
      mark := log;
      MarkedIsValid(w, Now());
    }

    lemma MarkedIsValid(w: World, v: World)
      requires Safe(setting, w) && Accounted(setting, w) && v == w.(mark := w.log)
      ensures Safe(setting, v) && Accounted(setting, v)
    {
    }

    /** The process ends and some version of the program starts again. */
    method Restart(version: SemVer.Parsed)
      requires Valid()
      modifies this`current
      ensures Valid() && current == version && Untouched()
    {
      current := version;
    }
  }
}
