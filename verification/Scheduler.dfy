/** The collection scheduler and its backoff (`scheduler.py`). Times are real numbers. */
module Scheduler {
  import opened Prelude

  datatype Status = Success | PartialResult | RetryableError | AuthError

  datatype Phase = Monitoring | PausedPhase | Syncing | Stale | ErrorPhase

  /** The scheduler's fields, without the texts it reports. */
  datatype Sched = Sched(paused: bool, running: bool, nextRun: Option<real>, failures: nat, phase: Phase)

  const MINIMUM_INTERVAL := 300.0

  datatype Policy = Policy(interval: real, base: real, maximum: real, jitter: real)

  /** What the two constructors accept. */
  predicate PolicyOk(p: Policy) {
    p.interval >= MINIMUM_INTERVAL && p.base > 0.0 && p.maximum >= p.base && 0.0 <= p.jitter <= 1.0
  }

  // ---------------------------------------------------------------- backoff

  function Pow2(k: nat): (r: real)
    ensures r >= 1.0
  {
    if k == 0 then 1.0 else 2.0 * Pow2(k - 1)
  }

  function Min(a: real, b: real): real { if a < b then a else b }

  /** The delay without jitter. */
  function RawDelay(p: Policy, failures: nat): real
    requires failures > 0
  {
    Min(p.maximum, p.base * Pow2(failures - 1))
  }

  /** `BackoffPolicy.delay`, with the random number as an argument. */
  function Delay(p: Policy, failures: nat, random: real): real {
    if failures < 1 then 0.0
    else
      var raw := RawDelay(p, failures);
      Min(p.maximum, raw + raw * p.jitter * random)
  }

  /** The delay without jitter is positive, at most the maximum, and each failure at most doubles it. */
  lemma RawDelayGrows(p: Policy, failures: nat)
    requires PolicyOk(p) && failures > 0
    ensures 0.0 < RawDelay(p, failures) <= p.maximum
    ensures RawDelay(p, failures) <= RawDelay(p, failures + 1) <= 2.0 * RawDelay(p, failures)
  {
    assert p.base * Pow2(failures - 1) >= p.base by { assert Pow2(failures - 1) >= 1.0; }
    assert p.base * Pow2(failures) == 2.0 * (p.base * Pow2(failures - 1));
  }

  /** Jitter only ever lengthens the delay, by at most its share, and never beyond the maximum. */
  lemma DelayBounds(p: Policy, failures: nat, random: real)
    requires PolicyOk(p) && failures > 0 && 0.0 <= random < 1.0
    ensures 0.0 < RawDelay(p, failures) <= Delay(p, failures, random) <= p.maximum
    ensures Delay(p, failures, random) <= RawDelay(p, failures) + RawDelay(p, failures) * p.jitter
  {
    RawDelayGrows(p, failures);
    Jittered(p.maximum, RawDelay(p, failures), p.jitter, random);
  }

  lemma Jittered(maximum: real, raw: real, jitter: real, random: real)
    requires 0.0 < raw <= maximum && 0.0 <= jitter && 0.0 <= random < 1.0
    ensures raw <= Min(maximum, raw + raw * jitter * random) <= maximum
    ensures Min(maximum, raw + raw * jitter * random) <= raw + raw * jitter
  {
    assert 0.0 <= raw * jitter;
    JitterShare(raw * jitter, random, raw * jitter * random);
    Capped(maximum, raw, raw * jitter * random, raw * jitter);
  }

  lemma JitterShare(most: real, random: real, extra: real)
    requires 0.0 <= most && 0.0 <= random < 1.0 && extra == most * random
    ensures 0.0 <= extra <= most
  {
    assert most * random <= most * 1.0;
  }

  lemma Capped(maximum: real, raw: real, extra: real, most: real)
    requires 0.0 <= extra <= most && raw <= maximum
    ensures raw <= Min(maximum, raw + extra) <= maximum && Min(maximum, raw + extra) <= raw + most
  {
  }

  // ---------------------------------------------------------------- lock sections, as functions

  function Initial(): Sched { Sched(true, false, None, 0, PausedPhase) }

  function Started(s: Sched, p: Policy, now: real, immediately: bool): Sched {
    s.(paused := false, nextRun := Some(if immediately then now else now + p.interval), phase := Monitoring)
  }

  function PausedSched(s: Sched): Sched { s.(paused := true, nextRun := None, phase := PausedPhase) }

  /** The check of `tick`. */
  predicate Due(s: Sched, now: real) { !s.paused && !s.running && s.nextRun.Some? && now >= s.nextRun.value }

  /** The check of `run_now`, repeated by `_run`. */
  predicate MayRun(s: Sched) { !s.paused && !s.running }

  function Begun(s: Sched): Sched { s.(running := true, phase := Syncing) }

  /** The end of `_run`. */
  function Ended(s: Sched, p: Policy, status: Status, now: real, random: real): Sched {
    match status
    case Success => s.(running := false, failures := 0, nextRun := Some(now + p.interval), phase := Monitoring)
    case PartialResult => s.(running := false, failures := 0, nextRun := Some(now + p.interval), phase := Stale)
    case AuthError => s.(running := false, paused := true, nextRun := None, phase := ErrorPhase)
    case RetryableError =>
      s.(running := false, failures := s.failures + 1,
         nextRun := Some(now + Delay(p, s.failures + 1, random)), phase := ErrorPhase)
  }

  class CollectionScheduler {
    const policy: Policy
    var paused: bool
    var running: bool
    var nextRun: Option<real>
    var failures: nat
    var phase: Phase

    function Now(): Sched
      reads this
    {
      Sched(paused, running, nextRun, failures, phase)
    }

    constructor (policy: Policy)
      ensures Now() == Initial() && this.policy == policy
    {
      this.policy := policy;
      paused, running, nextRun, failures, phase := true, false, None, 0, PausedPhase;
    }

    method Start(now: real, immediately: bool)
      modifies this
      ensures Now() == Started(old(Now()), policy, now, immediately)
    {
      paused := false;
      nextRun := Some(if immediately then now else now + policy.interval);
      phase := Monitoring;
    }

    method Pause()
      modifies this
      ensures Now() == PausedSched(old(Now()))
    {
      paused, nextRun, phase := true, None, PausedPhase;
    }

    /** First half of `_run`: claim the scheduler if nobody else has. */
    method BeginRun() returns (begun: bool)
      modifies this
      ensures begun <==> MayRun(old(Now()))
      ensures Now() == if begun then Begun(old(Now())) else old(Now())
    {
      if paused || running { return false; }
      running, phase := true, Syncing;
      begun := true;
    }

    /** Second half of `_run`, after the collector came back. */
    method EndRun(status: Status, now: real, random: real)
      modifies this
      ensures Now() == Ended(old(Now()), policy, status, now, random)
    {
      running := false;
      match status
      case Success => failures, nextRun, phase := 0, Some(now + policy.interval), Monitoring;
      case PartialResult => failures, nextRun, phase := 0, Some(now + policy.interval), Stale;
      case AuthError => paused, nextRun, phase := true, None, ErrorPhase;
      case RetryableError =>
        failures := failures + 1;
        nextRun := Some(now + Delay(policy, failures, random));
        phase := ErrorPhase;
    }

    /** `tick` on its own thread with nobody else calling. */
    method Tick(now: real, status: Status, end: real, random: real) returns (ran: bool)
      modifies this
      ensures ran <==> Due(old(Now()), now)
      ensures Now() == if ran then Ended(Begun(old(Now())), policy, status, end, random) else old(Now())
    {
      if paused || running || nextRun.None? { return false; }
      if now < nextRun.value { return false; }
      ran := BeginRun();
      if ran { EndRun(status, end, random); }
    }

    /** `run_now` on its own thread with nobody else calling. */
    method RunNow(status: Status, end: real, random: real) returns (ran: bool)
      modifies this
      ensures ran <==> MayRun(old(Now()))
      ensures Now() == if ran then Ended(Begun(old(Now())), policy, status, end, random) else old(Now())
    {
      ran := BeginRun();
      if ran { EndRun(status, end, random); }
    }
  }

  // ---------------------------------------------------------------- any interleaving of threads

  /** Where a thread inside `tick` or `run_now` is. */
  datatype Place = PastCheck | Collecting

  datatype Threads = Threads(sched: Sched, at: map<nat, Place>)

  ghost predicate Starts(s: Threads, t: Threads, p: Policy, now: real, immediately: bool) {
    t == s.(sched := Started(s.sched, p, now, immediately))
  }

  ghost predicate Pauses(s: Threads, t: Threads) { t == s.(sched := PausedSched(s.sched)) }

  /** A thread passes the first check of `tick` or `run_now` and releases the lock. */
  ghost predicate PassesCheck(s: Threads, t: Threads, id: nat, now: real) {
    id !in s.at && (Due(s.sched, now) || MayRun(s.sched)) && t == s.(at := s.at[id := PastCheck])
  }

  ghost predicate Claims(s: Threads, t: Threads, id: nat) {
    id in s.at && s.at[id].PastCheck? &&
    t == if MayRun(s.sched) then Threads(Begun(s.sched), s.at[id := Collecting]) else s.(at := s.at - {id})
  }

  ghost predicate Returns(s: Threads, t: Threads, id: nat, p: Policy, status: Status, now: real, random: real) {
    id in s.at && s.at[id].Collecting? && t == Threads(Ended(s.sched, p, status, now, random), s.at - {id})
  }

  ghost predicate Step(p: Policy, s: Threads, t: Threads) {
    || (exists now, immediately :: Starts(s, t, p, now, immediately))
    || Pauses(s, t)
    || (exists id, now :: PassesCheck(s, t, id, now))
    || (exists id :: Claims(s, t, id))
    || (exists id, status, now, random :: Returns(s, t, id, p, status, now, random))
  }

  predicate Collects(s: Threads, id: nat) { id in s.at && s.at[id].Collecting? }

  /** At most one thread is collecting, and the running flag says whether one is. */
  ghost predicate OneCollector(s: Threads) {
    && (forall i, j :: Collects(s, i) && Collects(s, j) ==> i == j)
    && (s.sched.running <==> exists i :: Collects(s, i))
  }

  /** A thread that starts collecting in this step found the scheduler neither paused nor running. */
  ghost predicate BeginsFairly(s: Threads, t: Threads) {
    forall i :: Collects(t, i) && !Collects(s, i) ==> MayRun(s.sched)
  }

  lemma StepKeepsOneCollector(p: Policy, s: Threads, t: Threads)
    requires OneCollector(s) && Step(p, s, t)
    ensures OneCollector(t) && BeginsFairly(s, t)
  {
    if now, immediately :| Starts(s, t, p, now, immediately) {
      SameCollectors(s, t);
    } else if Pauses(s, t) {
      SameCollectors(s, t);
    } else if id, now :| PassesCheck(s, t, id, now) {
      SameCollectors(s, t);
    } else if id :| Claims(s, t, id) {
      if MayRun(s.sched) {
        assert Collects(t, id);
        assert forall i :: Collects(t, i) ==> i == id || Collects(s, i);
      } else {
        SameCollectors(s, t);
      }
    } else {
      var id, status, now, random :| Returns(s, t, id, p, status, now, random);
      assert Collects(s, id);
      assert forall i :: Collects(t, i) ==> Collects(s, i) && i != id;
    }
  }

  lemma SameCollectors(s: Threads, t: Threads)
    requires OneCollector(s) && s.sched.running == t.sched.running
    requires forall i :: Collects(s, i) <==> Collects(t, i)
    ensures OneCollector(t) && BeginsFairly(s, t)
  {
    if i :| Collects(s, i) { assert Collects(t, i); }
    if i :| Collects(t, i) { assert Collects(s, i); }
  }

  ghost predicate IsRun(p: Policy, run: seq<Threads>) {
    run != [] && run[0] == Threads(Initial(), map[]) && forall i :: 0 <= i < |run| - 1 ==> Step(p, run[i], run[i + 1])
  }

  /** However many threads call in, two collections never overlap and none begins while paused. */
  lemma {:induction false} CollectionsNeverOverlap(p: Policy, run: seq<Threads>, n: nat)
    requires IsRun(p, run) && n < |run|
    ensures OneCollector(run[n])
    ensures n > 0 ==> BeginsFairly(run[n - 1], run[n])
  {
    if n > 0 {
      CollectionsNeverOverlap(p, run, n - 1);
      StepKeepsOneCollector(p, run[n - 1], run[n]);
    }
  }

  // ---------------------------------------------------------------- spacing, for calls that do not overlap

  datatype Call =
    | CallStart(now: real, immediately: bool)
    | CallPause
    | CallTick(now: real, status: Status, end: real, random: real)
    | CallRunNow(status: Status, end: real, random: real)

  /** The calls so far, latest outermost. */
  datatype Calls = NoCalls | Then(past: Calls, call: Call)

  function After(p: Policy, h: Calls): Sched {
    match h
    case NoCalls => Initial()
    case Then(past, CallStart(now, immediately)) => Started(After(p, past), p, now, immediately)
    case Then(past, CallPause) => PausedSched(After(p, past))
    case Then(past, CallTick(now, status, end, random)) =>
      if Due(After(p, past), now) then Ended(Begun(After(p, past)), p, status, end, random) else After(p, past)
    case Then(past, CallRunNow(status, end, random)) =>
      if MayRun(After(p, past)) then Ended(Begun(After(p, past)), p, status, end, random) else After(p, past)
  }

  /** End time and status of the run that the last call made, if it made one. */
  function RunOf(p: Policy, h: Calls): Option<(real, Status)> {
    match h
    case Then(past, CallTick(now, status, end, random)) =>
      if Due(After(p, past), now) then Some((end, status)) else None
    case Then(past, CallRunNow(status, end, random)) => if MayRun(After(p, past)) then Some((end, status)) else None
    case _ => None
  }

  /** The latest run, unless the scheduler was started or paused since. */
  function LastRun(p: Policy, h: Calls): Option<(real, Status)> {
    if h.NoCalls? || h.call.CallStart? || h.call.CallPause? then None
    else if RunOf(p, h).Some? then RunOf(p, h) else LastRun(p, h.past)
  }

  /** How many retryable failures there were since the last success or partial result. */
  function Streak(p: Policy, h: Calls): nat {
    if h.NoCalls? then 0
    else
      match RunOf(p, h)
      case Some((_, RetryableError)) => Streak(p, h.past) + 1
      case Some((_, Success)) => 0
      case Some((_, PartialResult)) => 0
      case _ => Streak(p, h.past)
  }

  ghost predicate RandomsOk(h: Calls) {
    h.NoCalls? || (RandomsOk(h.past) && (h.call.CallTick? || h.call.CallRunNow? ==> 0.0 <= h.call.random < 1.0))
  }

  lemma {:induction false} FailuresAreStreak(p: Policy, h: Calls)
    ensures After(p, h).failures == Streak(p, h) && !After(p, h).running
  {
    if h.Then? { FailuresAreStreak(p, h.past); }
  }

  /** The waiting time that a run's outcome asks for. */
  function Wait(p: Policy, status: Status, streak: nat): real {
    if status == RetryableError && streak > 0 then RawDelay(p, streak) else p.interval
  }

  lemma {:induction false} NextRunWaits(p: Policy, h: Calls)
    requires PolicyOk(p) && RandomsOk(h) && LastRun(p, h).Some? && After(p, h).nextRun.Some?
    ensures var (end, status) := LastRun(p, h).value;
      && status != AuthError && (status == RetryableError ==> Streak(p, h) > 0)
      && After(p, h).nextRun.value >= end + Wait(p, status, Streak(p, h))
      && (status == RetryableError ==> After(p, h).nextRun.value <= end + p.maximum)
  {
    FailuresAreStreak(p, h);
    FailuresAreStreak(p, h.past);
    if RunOf(p, h).Some? {
      if RunOf(p, h).value.1 == RetryableError { DelayBounds(p, Streak(p, h), h.call.random); }
    } else {
      NextRunWaits(p, h.past);
    }
  }

  /** In any history of calls, a tick starts a run only when the wait after the previous run is over: one interval after
      a success or partial result, the exponential delay after the k-th straight retryable failure, never after an
      authentication error. */
  lemma TicksAreSpaced(p: Policy, h: Calls, now: real)
    requires PolicyOk(p) && RandomsOk(h) && Due(After(p, h), now) && LastRun(p, h).Some?
    ensures var (end, status) := LastRun(p, h).value;
      && status != AuthError
      && (status == RetryableError ==> Streak(p, h) > 0 && now >= end + RawDelay(p, Streak(p, h)))
      && (status != RetryableError ==> now >= end + p.interval)
  {
    NextRunWaits(p, h);
  }

  /** The latest start, unless there was a run or a pause since. */
  function LastStart(p: Policy, h: Calls): Option<(real, bool)> {
    if h.NoCalls? || h.call.CallPause? || RunOf(p, h).Some? then None
    else if h.call.CallStart? then Some((h.call.now, h.call.immediately))
    else LastStart(p, h.past)
  }

  /** A fresh start waits one interval for its first run, or not at all if it was asked to run immediately. */
  lemma {:induction false} FreshStartWaits(p: Policy, h: Calls, now: real)
    requires LastStart(p, h).Some?
    ensures var (at, immediately) := LastStart(p, h).value;
      Due(After(p, h), now) <==> now >= if immediately then at else at + p.interval
  {
    FailuresAreStreak(p, h);
    if !h.call.CallStart? { FreshStartWaits(p, h.past, now); }
  }

  /** A paused scheduler, and one that failed authentication, is not due before it is started again. */
  lemma {:induction false} StoppedIsNeverDue(p: Policy, h: Calls, now: real)
    requires LastStart(p, h).None? && (LastRun(p, h).None? || LastRun(p, h).value.1 == AuthError)
    ensures !Due(After(p, h), now) && After(p, h).paused && After(p, h).nextRun.None?
  {
    if h.Then? && !h.call.CallPause? && RunOf(p, h).None? { StoppedIsNeverDue(p, h.past, now); }
  }
}
