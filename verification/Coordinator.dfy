/** One scheduler per profile, run in rotation (`ProfileSchedulerCoordinator` in `desktop_runtime.py`). */
module Coordinator {
  import opened Prelude
  import opened Scheduler

  /** Profile identifiers, by their rank in text order. */
  type ProfileId = nat

  datatype State = State(
    schedulers: map<ProfileId, Sched>, blocked: set<ProfileId>, paused: bool, offset: nat, clock: real)

  // ---------------------------------------------------------------- sorted identifiers

  ghost predicate Ascending(ids: seq<ProfileId>) { forall i, j :: 0 <= i < j < |ids| ==> ids[i] < ids[j] }

  /** `sorted(self._schedulers)`. */
  method SortedIds(ids: set<ProfileId>) returns (sorted: seq<ProfileId>)
    ensures Lists(sorted, ids)
  {
    sorted := [];
    var rest := ids;
    while rest != {}
      invariant rest <= ids && Ascending(sorted)
      invariant forall p :: p in sorted <==> p in ids - rest
      invariant forall p, q :: p in sorted && q in rest ==> p < q
      decreases |rest|
    {
      var least := Least(rest);
      assert forall i :: 0 <= i < |sorted| ==> sorted[i] in sorted;
      sorted := sorted + [least];
      rest := rest - {least};
    }
  }

  method Least(s: set<ProfileId>) returns (least: ProfileId)
    requires s != {}
    ensures least in s && forall p :: p in s ==> least <= p
  {
    least :| least in s;
    var rest := s - {least};
    while rest != {}
      invariant rest <= s && least in s && forall p :: p in s ==> p in rest || least <= p
      decreases |rest|
    {
      var p :| p in rest;
      if p < least { least := p; }
      rest := rest - {p};
    }
  }

  /** The ascending listing of a set; there is exactly one. */
  ghost predicate Lists(sorted: seq<ProfileId>, ids: set<ProfileId>) {
    Ascending(sorted) && forall p :: p in sorted <==> p in ids
  }

  lemma {:induction false} ListingIsUnique(a: seq<ProfileId>, b: seq<ProfileId>, ids: set<ProfileId>)
    requires Lists(a, ids) && Lists(b, ids)
    ensures a == b
  {
    if a != [] { assert a[0] in b; }
    if b != [] { assert b[0] in a; }
    if a != [] && b != [] {
      assert a[0] == b[0];
      forall p ensures p in a[1..] <==> p in ids - {a[0]} { assert p in a <==> p in ids; assert a == [a[0]] + a[1..]; }
      forall p ensures p in b[1..] <==> p in ids - {a[0]} { assert p in b <==> p in ids; assert b == [b[0]] + b[1..]; }
      ListingIsUnique(a[1..], b[1..], ids - {a[0]});
      assert a == [a[0]] + a[1..] && b == [b[0]] + b[1..];
    }
  }

  // ---------------------------------------------------------------- what each call does to the fields

  /** `refresh_profiles`: drop what is no longer enabled, add what is new. */
  function Refreshed(s: State, enabled: set<ProfileId>): State {
    s.(schedulers := map p | p in enabled :: if p in s.schedulers then s.schedulers[p] else Initial(),
       blocked := s.blocked - (s.schedulers.Keys - enabled))
  }

  /** The schedulers that `start` collects under the state lock. */
  function Startable(s: State): set<ProfileId> { s.schedulers.Keys - s.blocked }

  /** The schedulers that `resume` goes on to start. */
  function Resumable(s: State): set<ProfileId> {
    set p | p in s.schedulers && p !in s.blocked && s.schedulers[p].nextRun.None?
  }

  /** `scheduler.start` on each of the collected schedulers, after the lock was released. */
  function StartEach(s: State, ids: set<ProfileId>, p: Policy, now: real, immediately: bool): State {
    s.(schedulers := map q | q in s.schedulers ::
         if q in ids then Started(s.schedulers[q], p, now, immediately) else s.schedulers[q])
  }

  /** One profile's collection ended with this status. */
  function Collected(s: State, q: ProfileId, p: Policy, status: Status, end: real, random: real): State
    requires q in s.schedulers
  {
    s.(schedulers := s.schedulers[q := Ended(Begun(s.schedulers[q]), p, status, end, random)],
       blocked := if status == AuthError then s.blocked + {q} else s.blocked)
  }

  /** A profile that failed authentication is paused and stays so. */
  ghost predicate FailStop(s: State) {
    forall p :: p in s.blocked && p in s.schedulers ==> s.schedulers[p].paused
  }

  /** Between calls no scheduler is running. */
  ghost predicate AtRest(s: State) { forall p :: p in s.schedulers ==> !s.schedulers[p].running }

  // ---------------------------------------------------------------- rotation

  /** A profile's place in the sorted list. */
  ghost function Rank(ids: set<ProfileId>, q: ProfileId): nat { |Below(ids, q)| }

  ghost function Below(ids: set<ProfileId>, q: ProfileId): set<ProfileId> { set p | p in ids && p < q }

  /** Where the rotation begins. */
  function First(ids: set<ProfileId>, offset: nat): nat { if ids == {} then 0 else offset % |ids| }

  /** How many profiles the rotation asks before this one. */
  ghost function Distance(ids: set<ProfileId>, offset: nat, q: ProfileId): (d: int) {
    Ahead(First(ids, offset), Rank(ids, q), |ids|)
  }

  /** Steps forward from place `first` to place `rank` on a circle of `n` places. */
  function Ahead(first: nat, rank: nat, n: nat): int { if rank >= first then rank - first else rank - first + n }

  lemma {:induction false} ListedSize(sorted: seq<ProfileId>, ids: set<ProfileId>)
    requires Lists(sorted, ids)
    ensures |sorted| == |ids|
  {
    if sorted == [] {
      assert ids == {};
    } else {
      assert sorted[0] in ids;
      assert sorted == [sorted[0]] + sorted[1..];
      ListedSize(sorted[1..], ids - {sorted[0]});
    }
  }

  lemma RankIsIndex(sorted: seq<ProfileId>, ids: set<ProfileId>, k: nat)
    requires Lists(sorted, ids) && k < |sorted|
    ensures Rank(ids, sorted[k]) == k
  {
    var below := Below(ids, sorted[k]);
    forall p ensures p in sorted[..k] <==> p in below {
      if p in below {
        assert p in sorted;
        var i :| 0 <= i < |sorted| && sorted[i] == p;
        assert sorted[..k][i] == p;
      }
      if p in sorted[..k] { assert p in sorted; }
    }
    ListedSize(sorted[..k], below);
  }

  lemma RankInRange(ids: set<ProfileId>, q: ProfileId)
    requires q in ids
    ensures Rank(ids, q) < |ids| && 0 <= Distance(ids, 0, q) < |ids|
  {
    ProperSubset(Below(ids, q), ids, q);
  }

  lemma ProperSubset(a: set<ProfileId>, b: set<ProfileId>, q: ProfileId)
    requires a <= b && q in b && q !in a
    ensures |a| < |b|
  {
    assert |b - a| >= 1 by { assert q in b - a; }
    assert a + (b - a) == b;
  }

  // ---------------------------------------------------------------- what a call does, as a relation

  datatype Event =
    | StartAll(immediately: bool)
    | PauseAll
    | ResumeAll(immediately: bool)
    | ResumeOne(profile: ProfileId, immediately: bool)
    | TickAll
    | RunOne(chosen: Option<ProfileId>)

  /** A collection that a call made, with the status it ended in. */
  datatype Collection = Collection(profile: ProfileId, status: Status)

  /** Profile `q` collected once, between the clock readings `now` and `t.clock`. */
  ghost predicate RanOnce(s: State, t: State, q: ProfileId, p: Policy, now: real, status: Status, random: real) {
    q in s.schedulers && s.clock <= now <= t.clock &&
    t == Collected(s, q, p, status, t.clock, random).(offset := t.offset, clock := t.clock)
  }

  /** The first `i` profiles of the rotation were asked and none was due. */
  ghost predicate AskedInVain(s: State, i: int) {
    forall q :: q in s.schedulers && Distance(s.schedulers.Keys, s.offset, q) < i ==> !Due(s.schedulers[q], s.clock)
  }

  ghost predicate Ran(s: State, t: State, c: Collection, p: Policy) {
    exists now, random :: RanOnce(s, t, c.profile, p, now, c.status, random)
  }

  ghost predicate RanWhenDue(s: State, t: State, c: Collection, p: Policy) {
    exists now, random :: RanOnce(s, t, c.profile, p, now, c.status, random) && Due(s.schedulers[c.profile], now)
  }

  /** A tick asks the profiles in rotation and runs the first one that is due. */
  ghost predicate Turn(s: State, t: State, p: Policy, ran: Option<Collection>) {
    var ids := s.schedulers.Keys;
    match ran
    case None => t == s.(clock := t.clock) && t.clock >= s.clock &&
      forall q :: q in ids ==> !Due(s.schedulers[q], s.clock)
    case Some(c) =>
      && RanWhenDue(s, t, c, p)
      && AskedInVain(s, Distance(ids, s.offset, c.profile))
      && t.offset == (Rank(ids, c.profile) + 1) % |ids|
  }

  /** `run_now`: the named profile, or the first one, if it is neither paused nor running. */
  ghost predicate RunsNow(s: State, t: State, p: Policy, chosen: Option<ProfileId>, ran: Option<Collection>) {
    var ids := s.schedulers.Keys;
    match ran
    case None =>
      && t == s
      && (chosen.None? ==> forall q :: q in ids && Rank(ids, q) == 0 ==> !MayRun(s.schedulers[q]))
      && (chosen.Some? && chosen.value in ids ==> !MayRun(s.schedulers[chosen.value]))
    case Some(c) =>
      && Ran(s, t, c, p)
      && MayRun(s.schedulers[c.profile]) && t.offset == s.offset
      && if chosen.Some? then c.profile == chosen.value else Rank(ids, c.profile) == 0
  }

  /** One call of the coordinator, made while `enabled` are the enabled profiles. */
  ghost predicate Does(s: State, t: State, p: Policy, enabled: set<ProfileId>, event: Event, ran: Option<Collection>) {
    var base := Refreshed(s, enabled);
    match event
    case StartAll(immediately) =>
      ran == None && t == StartEach(base, Startable(base), p, t.clock, immediately).(paused := false, clock := t.clock)
    case PauseAll => ran == None &&
      t == s.(paused := true, schedulers := map q | q in s.schedulers :: PausedSched(s.schedulers[q]))
    case ResumeAll(immediately) =>
      ran == None && t == StartEach(base, Resumable(base), p, t.clock, immediately).(paused := false, clock := t.clock)
    case ResumeOne(q, immediately) =>
      && ran == None
      && t == if q in enabled && !s.paused
              then StartEach(base, {q}, p, t.clock, immediately).(blocked := base.blocked - {q}, clock := t.clock)
              else base
    case TickAll => if s.paused then ran == None && t == s else Turn(base, t, p, ran)
    case RunOne(chosen) => if s.paused then ran == None && t == s else RunsNow(base, t, p, chosen, ran)
  }

  /** How one collection ends, and the jitter that is drawn after it. */
  datatype Ending = Ending(status: Status, random: real)

  function StatusOf(ran: Option<Collection>): Option<Status> {
    if ran.Some? then Some(ran.value.status) else None
  }

  class ProfileSchedulerCoordinator {
    const policy: Policy
    /** How the successive collections will end; any script at all. */
    const endings: nat -> Ending
    /** How many there were. */
    var collected: nat
    var schedulers: map<ProfileId, Sched>
    var blocked: set<ProfileId>
    var paused: bool
    var offset: nat
    /** The last value the monotonic clock showed. */
    var clock: real

    ghost function Now(): State
      reads this
    {
      State(schedulers, blocked, paused, offset, clock)
    }

    ghost predicate Valid()
      reads this
    {
      FailStop(Now()) && AtRest(Now())
    }

    constructor (policy: Policy, endings: nat -> Ending)
      ensures Valid() && Now() == State(map[], {}, true, 0, 0.0) && this.policy == policy
      ensures this.endings == endings && collected == 0
    {
      this.policy, this.endings, collected := policy, endings, 0;
      schedulers, blocked, paused, offset, clock := map[], {}, true, 0, 0.0;
    }

    /** A call collects at most once, and then reports how that collection ended. */
    ghost predicate Reports(before: nat, status: Option<Status>)
      reads this
    {
      if status.Some? then collected == before + 1 && status.value == endings(before).status else collected == before
    }

    method ReadClock() returns (t: real)
      modifies this`clock
      ensures t == clock >= old(clock)
    {
      t := *;
      if t < clock { t := clock; }
      clock := t;
    }

    method Refresh(enabled: set<ProfileId>)
      requires Valid()
      modifies this`schedulers, this`blocked
      ensures Valid() && Now() == Refreshed(old(Now()), enabled)
    {
      blocked := blocked - (schedulers.Keys - enabled);
      schedulers := map p | p in enabled :: if p in schedulers then schedulers[p] else Initial();
    }

    /** `start`: every scheduler that is not blocked begins a fresh interval. */
    method Start(enabled: set<ProfileId>, immediately: bool)
      requires Valid()
      modifies this`schedulers, this`blocked, this`paused, this`clock
      ensures Valid() && clock >= old(clock)
      ensures Does(old(Now()), Now(), policy, enabled, StartAll(immediately), None)
    {
      Refresh(enabled);
      paused := false;
      var chosen := schedulers.Keys - blocked;
      var now := ReadClock();
      schedulers := map q | q in schedulers ::
        if q in chosen then Started(schedulers[q], policy, now, immediately) else schedulers[q];
    }

    method Pause()
      requires Valid()
      modifies this`schedulers, this`paused
      ensures Valid() && Does(old(Now()), Now(), policy, {}, PauseAll, None)
    {
      paused := true;
      schedulers := map q | q in schedulers :: PausedSched(schedulers[q]);
    }

    /** `resume`: only schedulers without a next run are started; blocked ones are left alone. */
    method Resume(enabled: set<ProfileId>, immediately: bool)
      requires Valid()
      modifies this`schedulers, this`blocked, this`paused, this`clock
      ensures Valid() && clock >= old(clock)
      ensures Does(old(Now()), Now(), policy, enabled, ResumeAll(immediately), None)
    {
      Refresh(enabled);
      paused := false;
      var chosen := Resumable(State(schedulers, blocked, paused, offset, clock));
      var now := ReadClock();
      schedulers := map q | q in schedulers ::
        if q in chosen then Started(schedulers[q], policy, now, immediately) else schedulers[q];
    }

    /** `resume_profile`: the only call that unblocks a profile it keeps. */
    method ResumeProfile(enabled: set<ProfileId>, q: ProfileId, immediately: bool) returns (resumed: bool)
      requires Valid()
      modifies this`schedulers, this`blocked, this`paused, this`clock
      ensures Valid() && clock >= old(clock)
      ensures resumed == (q in enabled && !old(paused))
      ensures Does(old(Now()), Now(), policy, enabled, ResumeOne(q, immediately), None)
    {
      Refresh(enabled);
      if q !in schedulers || paused { return false; }
      blocked := blocked - {q};
      var now := ReadClock();
      schedulers := schedulers[q := Started(schedulers[q], policy, now, immediately)];
      resumed := true;
    }

    /** `tick` of one scheduler with `_collect` as its collector, which may end in any way. */
    method TickScheduler(q: ProfileId) returns (ran: Option<Status>)
      requires Valid() && q in schedulers
      modifies this`schedulers, this`blocked, this`clock, this`collected
      ensures Valid() && clock >= old(clock) && Reports(old(collected), ran)
      ensures ran.Some? ==> RanWhenDue(old(Now()), Now(), Collection(q, ran.value), policy)
      ensures ran.None? ==> Now() == old(Now()).(clock := clock) && !Due(schedulers[q], clock)
    {
      var now := ReadClock();
      ran := None;
      if Due(schedulers[q], now) {
        ghost var before := Now();
        var status := RunScheduler(q);
        ran := Some(status);
        RanLater(old(Now()), before, Now(), Collection(q, status), policy);
      }
    }

    /** `_run` of one scheduler. */
    method RunScheduler(q: ProfileId) returns (status: Status)
      requires Valid() && q in schedulers && MayRun(schedulers[q])
      modifies this`schedulers, this`blocked, this`clock, this`collected
      ensures Valid() && clock >= old(clock) && Reports(old(collected), Some(status))
      ensures Ran(old(Now()), Now(), Collection(q, status), policy)
      ensures Due(old(schedulers)[q], old(clock)) ==> RanWhenDue(old(Now()), Now(), Collection(q, status), policy)
    {
      var random := endings(collected).random;
      status := endings(collected).status;
      collected := collected + 1;
      if status == AuthError { blocked := blocked + {q}; }
      var end := ReadClock();
      schedulers := schedulers[q := Ended(Begun(schedulers[q]), policy, status, end, random)];
      assert RanOnce(old(Now()), Now(), q, policy, old(clock), status, random);
    }

    method Tick(enabled: set<ProfileId>) returns (ran: Option<Collection>)
      requires Valid()
      modifies this
      ensures Valid() && clock >= old(clock) && Reports(old(collected), StatusOf(ran))
      ensures Does(old(Now()), Now(), policy, enabled, TickAll, ran)
    {
      if paused { return None; }
      Refresh(enabled);
      ran := TakeTurn();
    }

    /** One step of the loop in `tick`; `s` is the state in which the loop began. */
    method AskNext(ghost s: State, ids: seq<ProfileId>, i: nat) returns (ran: Option<Collection>)
      requires Valid() && Lists(ids, schedulers.Keys) && i < |ids|
      requires Now() == s.(clock := clock) && clock >= s.clock && AskedInVain(s, i)
      modifies this
      ensures Valid() && clock >= s.clock && Reports(old(collected), StatusOf(ran))
      ensures ran.None? ==> Now() == s.(clock := clock) && AskedInVain(s, i + 1)
      ensures ran.Some? ==> Turn(s, Now(), policy, ran)
    {
      var q := Asked(ids, offset, i);
      RotationOrder(ids, schedulers.Keys, offset, i);
      assert q in ids && q == Asked(ids, s.offset, i);
      var took := TickScheduler(q);
      if took.Some? {
        ghost var ended := Now();
        offset := Following(ids, q);
        ran := Some(Collection(q, took.value));
        assert Now().(offset := s.offset) == ended;
        RanLater(s, old(Now()), Now(), ran.value, policy);
        RanInTurn(s, Now(), policy, ids, i, ran.value);
      } else {
        ran := None;
        StillInVain(s, ids, i, clock);
      }
    }

    method TakeTurn() returns (ran: Option<Collection>)
      requires Valid()
      modifies this
      ensures Valid() && clock >= old(clock) && Reports(old(collected), StatusOf(ran))
      ensures Turn(old(Now()), Now(), policy, ran)
    {
      var ids := SortedIds(schedulers.Keys);
      ran := None;
      var i := 0;
      ghost var s, before := Now(), collected;
      while i < |ids| && ran.None?
        invariant i <= |ids| && Valid() && clock >= s.clock && Reports(before, StatusOf(ran))
        invariant ran.None? ==> Now() == s.(clock := clock) && AskedInVain(s, i)
        invariant ran.Some? ==> Turn(s, Now(), policy, ran)
      {
        ran := AskNext(s, ids, i);
        i := i + 1;
      }
      if ran.None? { AllInVain(s, ids); }
    }

    /** `run_now`, for one profile or for the first. */
    method RunNow(enabled: set<ProfileId>, chosen: Option<ProfileId>) returns (ran: Option<Collection>)
      requires Valid()
      modifies this
      ensures Valid() && clock >= old(clock) && Reports(old(collected), StatusOf(ran))
      ensures Does(old(Now()), Now(), policy, enabled, RunOne(chosen), ran)
    {
      if paused { return None; }
      Refresh(enabled);
      ran := RunChosen(chosen);
    }

    method RunChosen(chosen: Option<ProfileId>) returns (ran: Option<Collection>)
      requires Valid()
      modifies this
      ensures Valid() && clock >= old(clock) && Reports(old(collected), StatusOf(ran))
      ensures RunsNow(old(Now()), Now(), policy, chosen, ran)
    {
      var selected := chosen;
      if selected.None? {
        var ids := SortedIds(schedulers.Keys);
        ListedSize(ids, schedulers.Keys);
        if ids != [] {
          selected := Some(ids[0]);
          RankIsIndex(ids, schedulers.Keys, 0);
          assert ids[0] in ids;
          FirstIsUnique(ids, schedulers.Keys);
        }
      }
      ran := None;
      if selected.Some? && selected.value in schedulers && MayRun(schedulers[selected.value]) {
        var status := RunScheduler(selected.value);
        ran := Some(Collection(selected.value, status));
      }
    }
  }

  /** `profile_ids.index(profile_id)`. */
  function IndexOf(ids: seq<ProfileId>, q: ProfileId): (i: nat)
    requires q in ids
    ensures i < |ids| && ids[i] == q
  {
    if ids[0] == q then 0 else IndexOf(ids[1..], q) + 1
  }

  /** The place after this profile's, around the circle. */
  function Following(ids: seq<ProfileId>, q: ProfileId): nat
    requires q in ids
  {
    (IndexOf(ids, q) + 1) % |ids|
  }

  /** Entry `i` of the list turned so that it begins at the offset. */
  function Asked(ids: seq<ProfileId>, offset: nat, i: nat): ProfileId
    requires i < |ids|
  {
    var first := offset % |ids|;
    (ids[first..] + ids[..first])[i]
  }

  lemma RotationOrder(ids: seq<ProfileId>, s: set<ProfileId>, offset: nat, k: nat)
    requires Lists(ids, s) && k < |ids|
    ensures |ids| == |s| && s != {}
    ensures var q := Asked(ids, offset, k); q in s && Distance(s, offset, q) == k
  {
    ListedSize(ids, s);
    var first := offset % |ids|;
    var at := if first + k < |ids| then first + k else first + k - |ids|;
    assert (ids[first..] + ids[..first])[k] == ids[at];
    assert ids[at] in ids;
    RankIsIndex(ids, s, at);
  }

  /** Only one profile stands at each place of the rotation. */
  lemma SamePlace(ids: seq<ProfileId>, s: set<ProfileId>, offset: nat, p: ProfileId, q: ProfileId)
    requires Lists(ids, s) && p in s && q in s && Distance(s, offset, p) == Distance(s, offset, q)
    ensures p == q
  {
    assert p in ids && q in ids;
    var i :| 0 <= i < |ids| && ids[i] == p;
    var j :| 0 <= j < |ids| && ids[j] == q;
    RankIsIndex(ids, s, i);
    RankIsIndex(ids, s, j);
    ListedSize(ids, s);
  }

  lemma FirstIsUnique(ids: seq<ProfileId>, s: set<ProfileId>)
    requires Lists(ids, s) && ids != []
    ensures forall q :: q in s && Rank(s, q) == 0 ==> q == ids[0]
  {
    RankIsIndex(ids, s, 0);
    assert ids[0] in ids;
    forall q | q in s && Rank(s, q) == 0 ensures q == ids[0] { SamePlace(ids, s, 0, q, ids[0]); }
  }

  lemma StillInVain(s: State, ids: seq<ProfileId>, i: nat, now: real)
    requires Lists(ids, s.schedulers.Keys) && i < |ids| && AskedInVain(s, i) && now >= s.clock
    requires var q := Asked(ids, s.offset, i); q in s.schedulers && !Due(s.schedulers[q], now)
    ensures AskedInVain(s, i + 1)
  {
    var q := Asked(ids, s.offset, i);
    RotationOrder(ids, s.schedulers.Keys, s.offset, i);
    forall r | r in s.schedulers && Distance(s.schedulers.Keys, s.offset, r) < i + 1
      ensures !Due(s.schedulers[r], s.clock)
    {
      if Distance(s.schedulers.Keys, s.offset, r) == i { SamePlace(ids, s.schedulers.Keys, s.offset, q, r); }
    }
  }

  lemma AllInVain(s: State, ids: seq<ProfileId>)
    requires Lists(ids, s.schedulers.Keys) && AskedInVain(s, |ids|)
    ensures forall q :: q in s.schedulers ==> !Due(s.schedulers[q], s.clock)
  {
    forall q | q in s.schedulers ensures !Due(s.schedulers[q], s.clock) {
      ListedSize(ids, s.schedulers.Keys);
      RankInRange(s.schedulers.Keys, q);
    }
  }

  lemma RanInTurn(s: State, t: State, p: Policy, ids: seq<ProfileId>, i: nat, c: Collection)
    requires Lists(ids, s.schedulers.Keys) && i < |ids| && AskedInVain(s, i)
    requires c.profile == Asked(ids, s.offset, i) && c.profile in ids && RanWhenDue(s, t, c, p)
    requires t.offset == Following(ids, c.profile)
    ensures Turn(s, t, p, Some(c))
  {
    RotationOrder(ids, s.schedulers.Keys, s.offset, i);
    OffsetAfter(ids, s.schedulers.Keys, c.profile);
  }

  lemma OffsetAfter(ids: seq<ProfileId>, s: set<ProfileId>, q: ProfileId)
    requires Lists(ids, s) && q in ids
    ensures Following(ids, q) == (Rank(s, q) + 1) % (if s == {} then 1 else |s|)
    ensures q in s
  {
    ListedSize(ids, s);
    RankIsIndex(ids, s, IndexOf(ids, q));
  }

  lemma RanLater(s: State, before: State, t: State, c: Collection, p: Policy)
    requires before == s.(clock := before.clock) && before.clock >= s.clock
    requires RanWhenDue(before, t.(offset := s.offset), c, p)
    ensures RanWhenDue(s, t, c, p)
  {
    var q, status := c.profile, c.status;
    var now, random :| RanOnce(before, t.(offset := s.offset), q, p, now, status, random) &&
                       Due(before.schedulers[q], now);
    assert t == Collected(s, q, p, status, t.clock, random).(offset := t.offset, clock := t.clock);
    assert RanOnce(s, t, q, p, now, status, random);
  }

  // ---------------------------------------------------------------- runs of calls

  /** A completed call: the state before, the enabled profiles, what was asked, what was collected, the state after. */
  datatype Call = Call(before: State, enabled: set<ProfileId>, event: Event, ran: Option<Collection>, after: State)

  ghost predicate IsRun(p: Policy, calls: seq<Call>) {
    && (forall i :: 0 <= i < |calls| ==> Performed(p, calls[i]))
    && (forall i :: 0 < i < |calls| ==> calls[i].before == calls[i - 1].after)
    && (calls != [] ==> FailStop(calls[0].before))
  }

  ghost predicate Performed(p: Policy, c: Call) { Does(c.before, c.after, p, c.enabled, c.event, c.ran) }

  /** The call that lets a blocked profile run again: it is named in a resume while the coordinator is not paused, or it
      is no longer enabled when a call refreshes the profiles, which drops it. */
  predicate Releases(c: Call, q: ProfileId) {
    if c.event.ResumeOne? && c.event.profile == q && q in c.enabled then !c.before.paused
    else Refreshes(c) && q !in c.enabled
  }

  predicate Refreshes(c: Call) { !c.event.PauseAll? && (c.event.TickAll? || c.event.RunOne? ==> !c.before.paused) }

  predicate Stopped(s: State, q: ProfileId) { q in s.schedulers && q in s.blocked && s.schedulers[q].paused }

  lemma CallKeepsFailStop(p: Policy, c: Call)
    requires Performed(p, c) && FailStop(c.before)
    ensures FailStop(c.after)
  {
  }

  /** Exactly the releasing calls end a stop, and a call that does not release never runs the profile. */
  lemma StoppedUntilReleased(p: Policy, c: Call, q: ProfileId)
    requires Performed(p, c) && Stopped(c.before, q)
    ensures Stopped(c.after, q) <==> !Releases(c, q)
    ensures c.ran.Some? ==> c.ran.value.profile != q
  {
    var base := Refreshed(c.before, c.enabled);
    if c.event.ResumeOne? && q in c.enabled && q != c.event.profile { assert Stopped(base, q); }
  }

  lemma AuthErrorStops(p: Policy, c: Call)
    requires Performed(p, c) && c.ran.Some?
    ensures c.ran.value.status == AuthError ==> Stopped(c.after, c.ran.value.profile)
  {
  }

  /** Over any run of calls: after a collection that ended in an authentication error the profile does not collect again
      before a call releases it. */
  lemma {:induction false} NoRunAfterAuthError(p: Policy, calls: seq<Call>, i: nat, j: nat, q: ProfileId)
    requires IsRun(p, calls) && i < j < |calls|
    requires calls[i].ran == Some(Collection(q, AuthError))
    requires forall k :: i < k < j ==> !Releases(calls[k], q)
    ensures Stopped(calls[j].before, q)
    ensures calls[j].ran.Some? ==> calls[j].ran.value.profile != q
  {
    assert Performed(p, calls[j - 1]) && Performed(p, calls[j]);
    if j - 1 == i {
      AuthErrorStops(p, calls[i]);
    } else {
      NoRunAfterAuthError(p, calls, i, j - 1, q);
      StoppedUntilReleased(p, calls[j - 1], q);
    }
    StoppedUntilReleased(p, calls[j], q);
  }

  // ---------------------------------------------------------------- no profile starves

  /** Ticks of a coordinator whose set of enabled profiles does not change; between them other calls may be made. */
  ghost predicate AreTicks(p: Policy, ids: set<ProfileId>, ticks: seq<Call>) {
    && (forall i :: 0 <= i < |ticks| ==> ticks[i].event == TickAll && Performed(p, ticks[i]))
    && (forall i :: 0 <= i < |ticks| ==>
          ticks[i].enabled == ids == ticks[i].before.schedulers.Keys && !ticks[i].before.paused)
    && (forall i :: 0 < i < |ticks| ==> ticks[i].before.offset == ticks[i - 1].after.offset)
  }

  /** No call but a tick moves the rotation. */
  lemma OnlyTicksRotate(p: Policy, c: Call)
    requires Performed(p, c) && !c.event.TickAll?
    ensures c.after.offset == c.before.offset
  {
  }

  predicate DueIn(s: State, q: ProfileId) { q in s.schedulers && Due(s.schedulers[q], s.clock) }

  /** The profile is due at every tick, up to and including the one that serves it. */
  ghost predicate DueUntilServed(ticks: seq<Call>, q: ProfileId) {
    forall i :: 0 <= i < |ticks| && (forall k :: 0 <= k < i ==> !Served(ticks[k], q)) ==> DueIn(ticks[i].before, q)
  }

  predicate Served(c: Call, q: ProfileId) { c.ran.Some? && c.ran.value.profile == q }

  /** A tick that runs somebody else brings a due profile strictly nearer to the head of the rotation. */
  lemma TickBringsNearer(p: Policy, ids: set<ProfileId>, c: Call, q: ProfileId)
    requires Performed(p, c) && c.event == TickAll && c.enabled == ids == c.before.schedulers.Keys && !c.before.paused
    requires DueIn(c.before, q) && !Served(c, q)
    ensures c.ran.Some? && 0 <= Distance(ids, c.after.offset, q) < Distance(ids, c.before.offset, q)
    ensures q in c.after.schedulers && c.after.schedulers[q] == c.before.schedulers[q]
    ensures c.after.clock >= c.before.clock
  {
    assert Refreshed(c.before, ids).schedulers == c.before.schedulers;
    assert Refreshed(c.before, ids).blocked == c.before.blocked;
    assert Refreshed(c.before, ids) == c.before;
    var r := c.ran.value.profile;
    RankInRange(ids, q);
    RankInRange(ids, r);
    DistanceAfter(ids, c.before.offset, q, r);
  }

  lemma DistanceAfter(ids: set<ProfileId>, offset: nat, q: ProfileId, r: ProfileId)
    requires q in ids && r in ids && q != r && Distance(ids, offset, r) <= Distance(ids, offset, q)
    ensures 0 <= Distance(ids, (Rank(ids, r) + 1) % |ids|, q) < Distance(ids, offset, q)
  {
    RankInRange(ids, q);
    RankInRange(ids, r);
    RanksDiffer(ids, q, r);
    PlaceAfter(First(ids, offset), Rank(ids, q), Rank(ids, r), |ids|);
  }

  lemma PlaceAfter(first: nat, q: nat, r: nat, n: nat)
    requires first < n && q < n && r < n && q != r && Ahead(first, r, n) <= Ahead(first, q, n)
    ensures 0 <= Ahead((r + 1) % n % n, q, n) < Ahead(first, q, n)
  {
    if r + 1 == n { Wraps(n); } else { WrapsNot(r + 1, n); }
  }

  lemma Wraps(n: nat)
    requires n > 0
    ensures n % n % n == 0
  {
  }

  lemma WrapsNot(k: nat, n: nat)
    requires k < n
    ensures k % n % n == k
  {
  }

  lemma RanksDiffer(ids: set<ProfileId>, q: ProfileId, r: ProfileId)
    requires q in ids && r in ids && q != r
    ensures Rank(ids, q) != Rank(ids, r)
  {
    if q < r { ProperSubset(Below(ids, q), Below(ids, r), q); } else { ProperSubset(Below(ids, r), Below(ids, q), r); }
  }

  /** A profile that is due until it is served is collected within as many ticks as it has profiles before it in the
      rotation, plus one. */
  lemma {:induction false} RotationServes(p: Policy, ids: set<ProfileId>, ticks: seq<Call>, q: ProfileId)
    returns (i: nat)
    requires AreTicks(p, ids, ticks) && q in ids && ticks != []
    requires DueUntilServed(ticks, q)
    requires |ticks| > Distance(ids, ticks[0].before.offset, q)
    ensures i < |ticks| && i <= Distance(ids, ticks[0].before.offset, q) && Served(ticks[i], q)
    decreases |ticks|
  {
    assert ticks[0].event == TickAll;
    RankInRange(ids, q);
    i := 0;
    if !Served(ticks[0], q) {
      TickBringsNearer(p, ids, ticks[0], q);
      assert ticks[1].before.offset == ticks[0].after.offset;
      StillDue(ticks, q);
      i := RotationServes(p, ids, ticks[1..], q);
      i := i + 1;
    }
  }

  lemma StillDue(ticks: seq<Call>, q: ProfileId)
    requires DueUntilServed(ticks, q) && ticks != [] && !Served(ticks[0], q)
    ensures DueUntilServed(ticks[1..], q)
  {
    var rest := ticks[1..];
    forall i | 0 <= i < |rest| && (forall k :: 0 <= k < i ==> !Served(rest[k], q)) ensures DueIn(rest[i].before, q) {
      assert rest[i] == ticks[i + 1];
      forall k | 0 <= k < i + 1 ensures !Served(ticks[k], q) {
        if k > 0 { assert rest[k - 1] == ticks[k]; }
      }
    }
  }

  /** So no due profile starves: it is collected within as many ticks as there are profiles. */
  lemma NobodyStarves(p: Policy, ids: set<ProfileId>, ticks: seq<Call>, q: ProfileId)
    requires AreTicks(p, ids, ticks) && q in ids && |ticks| >= |ids|
    requires DueUntilServed(ticks, q)
    ensures exists i :: 0 <= i < |ids| && Served(ticks[i], q)
  {
    RankInRange(ids, q);
    var i := RotationServes(p, ids, ticks, q);
    assert 0 <= i < |ids|;
  }

  // ---------------------------------------------------------------- the gap between collecting and starting

  /** `start` releases the lock between choosing the schedulers and starting them. Whatever happened in between, the
      profiles that failed authentication stay paused if and only if none of the chosen ones is among them. */
  lemma LateStartIsSafe(s: State, chosen: set<ProfileId>, p: Policy, now: real, immediately: bool)
    requires FailStop(s)
    ensures FailStop(StartEach(s, chosen, p, now, immediately)) <==> chosen !! s.blocked * s.schedulers.Keys
  {
    var t := StartEach(s, chosen, p, now, immediately);
    if q :| q in chosen && q in s.blocked * s.schedulers.Keys { assert !t.schedulers[q].paused; }
  }

  /** And it can happen: a tick that runs into an authentication error in that gap leaves a blocked profile due. */
  lemma LateStartRevives(p: Policy, s: State, q: ProfileId, end: real, random: real)
    requires s.schedulers == map[q := Started(Initial(), p, 0.0, true)] && s.blocked == {} && end >= 0.0
    ensures var chosen := Startable(s);
            var failed := Collected(s, q, p, AuthError, end, random);
            var started := StartEach(failed, chosen, p, end, true);
            Stopped(failed, q) && q in started.blocked && Due(started.schedulers[q], end)
  {
  }
}
