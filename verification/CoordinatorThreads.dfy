/** Threads inside the coordinator (`desktop_runtime.py`), at the granularity of its locks. */
module CoordinatorThreads {
  import opened Prelude
  import opened Scheduler
  import opened Coordinator

  type ThreadId = nat

  /** A scheduler object; a profile that is dropped and added again gets a new one. */
  type SchedId = nat

  datatype Object = Object(profile: ProfileId, sched: Sched)

  /** A collection in progress; `failed` says that the profile was put on the blocked list already. */
  datatype Work = Work(target: SchedId, failed: bool)

  /** `current` maps the enabled profiles to their schedulers, `objects` holds every scheduler ever made. `holder` owns
      the execution lock, `asked` is the scheduler whose `tick` or `run_now` the holder is in, `work` is what each
      thread collects, `chosen` what each `start` or `resume` still has to start. */
  datatype Shared = Shared(
    current: map<ProfileId, SchedId>, objects: map<SchedId, Object>, blocked: set<ProfileId>,
    holder: Option<ThreadId>, asked: Option<SchedId>, work: map<ThreadId, Work>, chosen: map<ThreadId, set<SchedId>>)

  datatype Action =
    | Lock(id: ThreadId)
    | Unlock(id: ThreadId)
    | Drop(profile: ProfileId)
    | Add(profile: ProfileId, target: SchedId)
    | Ask(id: ThreadId, profile: ProfileId)
    | Begin(id: ThreadId)
    | Block(id: ThreadId)
    | Finish(id: ThreadId, status: Status, now: real, random: real)
    | Choose(id: ThreadId)
    | ChooseOne(id: ThreadId, profile: ProfileId)
    | Unblock(profile: ProfileId)
    | StartChosen(id: ThreadId, target: SchedId, now: real, immediately: bool)
    | PauseUnderLock(id: ThreadId, target: SchedId)

  function WithSched(s: Shared, o: SchedId, sched: Sched): Shared
    requires o in s.objects
  {
    s.(objects := s.objects[o := s.objects[o].(sched := sched)])
  }

  function ProfileOf(s: Shared, o: SchedId): ProfileId
    requires o in s.objects
  {
    s.objects[o].profile
  }

  /** Every reference is to a scheduler that exists. */
  predicate Closed(s: Shared) {
    && (forall q :: q in s.current ==> s.current[q] in s.objects && ProfileOf(s, s.current[q]) == q)
    && (s.asked.Some? ==> s.asked.value in s.objects)
    && (forall id :: id in s.work ==> s.work[id].target in s.objects)
    && (forall id, o :: id in s.chosen && o in s.chosen[id] ==> o in s.objects)
  }

  function Unblocked(s: Shared): set<SchedId> { set q | q in s.current && q !in s.blocked :: s.current[q] }

  /** When a lock section can be entered. `tick`, `run_now` and `pause` hold the execution lock; `start`, `resume`,
      `resume_profile` and the refresh that a call begins with never take it. */
  predicate Can(s: Shared, a: Action)
    requires Closed(s)
  {
    match a
    case Lock(_) => s.holder.None?
    case Unlock(id) => s.holder == Some(id) && id !in s.work
    case Drop(q) => q in s.current
    case Add(q, o) => q !in s.current && o !in s.objects
    case Ask(id, q) => s.holder == Some(id) && id !in s.work && q in s.current
    case Begin(id) => s.holder == Some(id) && id !in s.work && s.asked.Some? && MayRun(s.objects[s.asked.value].sched)
    case Block(id) => id in s.work
    case Finish(id, status, _, _) => id in s.work && (s.work[id].failed <==> status == AuthError)
    case Choose(id) => id !in s.chosen
    case ChooseOne(id, q) => id !in s.chosen && q in s.current
    case Unblock(_) => true
    case StartChosen(id, o, _, _) => id in s.chosen && o in s.chosen[id]
    case PauseUnderLock(id, o) => s.holder == Some(id) && id !in s.work && o in s.objects
  }

  /** What the lock section does. */
  function Do(p: Policy, s: Shared, a: Action): Shared
    requires Closed(s) && Can(s, a)
  {
    match a
    case Lock(id) => s.(holder := Some(id))
    case Unlock(_) => s.(holder := None, asked := None)
    case Drop(q) =>
      WithSched(s, s.current[q], PausedSched(s.objects[s.current[q]].sched))
        .(current := s.current - {q}, blocked := s.blocked - {q})
    case Add(q, o) => s.(objects := s.objects[o := Object(q, Initial())], current := s.current[q := o])
    case Ask(_, q) => s.(asked := Some(s.current[q]))
    case Begin(id) =>
      WithSched(s, s.asked.value, Begun(s.objects[s.asked.value].sched))
        .(work := s.work[id := Work(s.asked.value, false)])
    case Block(id) =>
      s.(blocked := s.blocked + {ProfileOf(s, s.work[id].target)}, work := s.work[id := s.work[id].(failed := true)])
    case Finish(id, status, now, random) =>
      WithSched(s, s.work[id].target, Ended(s.objects[s.work[id].target].sched, p, status, now, random))
        .(work := s.work - {id}, asked := None)
    case Choose(id) => s.(chosen := s.chosen[id := Unblocked(s)])
    case ChooseOne(id, q) => s.(chosen := s.chosen[id := {s.current[q]}])
    case Unblock(q) => s.(blocked := s.blocked - {q})
    case StartChosen(id, o, now, immediately) =>
      WithSched(s, o, Started(s.objects[o].sched, p, now, immediately)).(chosen := s.chosen[id := s.chosen[id] - {o}])
    case PauseUnderLock(_, o) => WithSched(s, o, PausedSched(s.objects[o].sched))
  }

  predicate Takes(p: Policy, s: Shared, a: Action, t: Shared)
    requires Closed(s)
  {
    Can(s, a) && t == Do(p, s, a)
  }

  lemma StepKeepsClosed(p: Policy, s: Shared, a: Action, t: Shared)
    requires Closed(s) && Takes(p, s, a, t)
    ensures Closed(t)
  {
  }

  lemma StepKeepsObjects(p: Policy, s: Shared, a: Action, t: Shared)
    requires Closed(s) && Takes(p, s, a, t)
    ensures forall o :: o in s.objects ==> o in t.objects && ProfileOf(t, o) == ProfileOf(s, o)
  {
  }

  // ---------------------------------------------------------------- one collection at a time

  predicate CollectedBy(s: Shared, id: ThreadId, o: SchedId) { id in s.work && s.work[id].target == o }

  predicate Running(s: Shared, o: SchedId) { o in s.objects && s.objects[o].sched.running }

  /** Whoever collects holds the execution lock, and exactly the collected scheduler is running. */
  ghost predicate OneAtATime(s: Shared) {
    && (forall id :: id in s.work ==> s.holder == Some(id) && Running(s, s.work[id].target))
    && (forall o :: Running(s, o) ==> s.holder.Some? && CollectedBy(s, s.holder.value, o))
  }

  lemma StepKeepsOne(p: Policy, s: Shared, a: Action, t: Shared)
    requires Closed(s) && OneAtATime(s) && Takes(p, s, a, t)
    ensures OneAtATime(t)
  {
    forall o: SchedId | Running(t, o) ensures t.holder.Some? && CollectedBy(t, t.holder.value, o) {
      assert Running(s, o) || (a.Begin? && s.asked == Some(o));
    }
  }

  // ---------------------------------------------------------------- blocked profiles

  /** A scheduler that a collection may still begin on: that of an enabled profile, or the one being asked. */
  predicate Live(s: Shared, o: SchedId) {
    o in s.objects && ((ProfileOf(s, o) in s.current && s.current[ProfileOf(s, o)] == o) || s.asked == Some(o))
  }

  predicate Ending(s: Shared, o: SchedId) {
    s.holder.Some? && CollectedBy(s, s.holder.value, o) && s.work[s.holder.value].failed
  }

  predicate Stopped(s: Shared, o: SchedId) { o in s.objects && (s.objects[o].sched.paused || Ending(s, o)) }

  /** The scheduler of a blocked profile is paused, or its collection is about to end and will pause it. */
  ghost predicate StoppedOrEnding(s: Shared) {
    forall o :: Live(s, o) && ProfileOf(s, o) in s.blocked ==> Stopped(s, o)
  }

  /** While a collection is under way, its scheduler is the one being asked. */
  ghost predicate WorkIsAsked(s: Shared) {
    && (forall id :: id in s.work ==> s.asked == Some(s.work[id].target))
    && (s.asked.Some? ==> s.holder.Some?)
  }

  lemma StepKeepsAsked(p: Policy, s: Shared, a: Action, t: Shared)
    requires Closed(s) && OneAtATime(s) && WorkIsAsked(s) && Takes(p, s, a, t)
    ensures WorkIsAsked(t)
  {
  }

  /** A scheduler picked earlier is started although its profile was blocked in the meantime, and no collection that is
      still to end will pause it again. */
  predicate StartsBlocked(s: Shared, a: Action) {
    a.StartChosen? && Live(s, a.target) && ProfileOf(s, a.target) in s.blocked && !Ending(s, a.target)
  }

  /** A profile fails while it is no longer enabled under the scheduler that collects it, but has a new one that runs
      on. */
  predicate BlocksOther(s: Shared, a: Action)
    requires Closed(s)
  {
    a.Block? && a.id in s.work &&
    var q := ProfileOf(s, s.work[a.id].target);
    q in s.current && s.current[q] != s.work[a.id].target && !s.objects[s.current[q]].sched.paused
  }

  /** These are exactly the two ways in which a blocked profile can be left with a scheduler that is not stopped. */
  lemma StopSurvivesExactly(p: Policy, s: Shared, a: Action, t: Shared)
    requires Closed(s) && OneAtATime(s) && WorkIsAsked(s) && StoppedOrEnding(s) && Takes(p, s, a, t)
    ensures StoppedOrEnding(t) <==> !StartsBlocked(s, a) && !BlocksOther(s, a)
  {
    StepKeepsObjects(p, s, a, t);
    if StartsBlocked(s, a) {
      assert Live(t, a.target) && ProfileOf(t, a.target) in t.blocked && !Stopped(t, a.target);
    } else if BlocksOther(s, a) {
      var o := s.current[ProfileOf(s, s.work[a.id].target)];
      assert Live(t, o) && ProfileOf(t, o) in t.blocked && !Stopped(t, o);
    } else {
      forall o: SchedId | Live(t, o) && ProfileOf(t, o) in t.blocked ensures Stopped(t, o) {
        StillStopped(p, s, a, t, o);
      }
    }
  }

  lemma StillStopped(p: Policy, s: Shared, a: Action, t: Shared, o: SchedId)
    requires Closed(s) && OneAtATime(s) && WorkIsAsked(s) && StoppedOrEnding(s) && Takes(p, s, a, t)
    requires !StartsBlocked(s, a) && !BlocksOther(s, a) && Live(t, o) && ProfileOf(t, o) in t.blocked
    ensures Stopped(t, o)
  {
    assert o in s.objects && Live(s, o) && ProfileOf(s, o) in s.blocked ==> Stopped(s, o);
    assert Running(s, o) ==> s.holder.Some? && CollectedBy(s, s.holder.value, o);
  }

  // ---------------------------------------------------------------- runs

  const START := Shared(map[], map[], {}, None, None, map[], map[])

  /** A run from the start, as states and the actions between them. */
  ghost predicate IsThreadRun(p: Policy, run: seq<Shared>, actions: seq<Action>) {
    && |run| == |actions| + 1 && run[0] == START
    && forall i :: 0 <= i < |actions| ==> Closed(run[i]) && Takes(p, run[i], actions[i], run[i + 1])
  }

  /** In every interleaving, whatever is enabled and disabled meanwhile, at most one profile is collected at a time. */
  lemma {:induction false} OneCollectionAtATime(p: Policy, run: seq<Shared>, actions: seq<Action>, n: nat)
    requires IsThreadRun(p, run, actions) && n < |run|
    ensures Closed(run[n]) && OneAtATime(run[n]) && WorkIsAsked(run[n])
    ensures forall i, j :: i in run[n].work && j in run[n].work ==> i == j
    decreases n
  {
    if n > 0 {
      OneCollectionAtATime(p, run, actions, n - 1);
      StepKeepsClosed(p, run[n - 1], actions[n - 1], run[n]);
      StepKeepsOne(p, run[n - 1], actions[n - 1], run[n]);
      StepKeepsAsked(p, run[n - 1], actions[n - 1], run[n]);
    }
  }

  /** In every interleaving without such a late start or late failure, no collection of a blocked profile ever
      begins. */
  lemma {:induction false} BlockedNeverBegins(p: Policy, run: seq<Shared>, actions: seq<Action>, n: nat)
    requires IsThreadRun(p, run, actions) && n < |run|
    requires forall i ::
      0 <= i < n ==> Closed(run[i]) && !StartsBlocked(run[i], actions[i]) && !BlocksOther(run[i], actions[i])
    ensures StoppedOrEnding(run[n])
    ensures n < |actions| && actions[n].Begin? ==>
              run[n].asked.Some? && run[n].asked.value in run[n].objects &&
              ProfileOf(run[n], run[n].asked.value) !in run[n].blocked
    decreases n
  {
    OneCollectionAtATime(p, run, actions, n);
    if n > 0 {
      BlockedNeverBegins(p, run, actions, n - 1);
      OneCollectionAtATime(p, run, actions, n - 1);
      StopSurvivesExactly(p, run[n - 1], actions[n - 1], run[n]);
    }
    if n < |actions| && actions[n].Begin? {
      assert Takes(p, run[n], actions[n], run[n + 1]);
      assert Live(run[n], run[n].asked.value);
    }
  }

  /** The state that a history of actions leads to. */
  ghost predicate Reaches(p: Policy, actions: seq<Action>, s: Shared) {
    exists run :: IsThreadRun(p, run, actions) && run[|actions|] == s
  }

  lemma ReachesNext(p: Policy, actions: seq<Action>, s: Shared, a: Action) returns (t: Shared)
    requires Reaches(p, actions, s) && Closed(s) && Can(s, a)
    ensures t == Do(p, s, a) && Reaches(p, actions + [a], t) && Closed(t)
  {
    t := Do(p, s, a);
    var run :| IsThreadRun(p, run, actions) && run[|actions|] == s;
    StepKeepsClosed(p, s, a, t);
    assert IsThreadRun(p, run + [t], actions + [a]);
  }

  /** Scheduler `o` of profile `q` is its current one and in this state. */
  predicate Holds(s: Shared, q: ProfileId, o: SchedId, sched: Sched) {
    q in s.current && s.current[q] == o && o in s.objects && s.objects[o] == Object(q, sched)
  }

  predicate DueThough(s: Shared, q: ProfileId) {
    q in s.blocked && q in s.current && s.current[q] in s.objects && Due(s.objects[s.current[q]].sched, 0.0)
  }

  /** The second way happens: while a profile is being collected it is disabled and enabled again, and its new
      scheduler is started; then the old collection fails, and the profile is blocked but goes on being due. */
  lemma LateFailureLeavesProfileDue(p: Policy, q: ProfileId)
    ensures exists actions, s :: Reaches(p, actions, s) && DueThough(s, q)
  {
    assert IsThreadRun(p, [START], []);
    var actions, s := StartsFirst(p, q);
    actions, s := CollectionBegins(p, q, actions, s);
    actions, s := LateFailure(p, q, actions, s);
  }

  /** And so does the first way: `start` has picked a profile, which then fails, and starts its scheduler after that. */
  lemma LateStartLeavesProfileDue(p: Policy, q: ProfileId)
    ensures exists actions, s :: Reaches(p, actions, s) && DueThough(s, q)
  {
    assert IsThreadRun(p, [START], []);
    var actions, s := StartsFirst(p, q);
    var t := ReachesNext(p, actions, s, Choose(4));
    assert s.current[q] in t.chosen[4];
    actions, s := CollectionBegins(p, q, actions + [Choose(4)], t);
    actions, s := LateStart(p, q, actions, s);
  }

  lemma LateStart(p: Policy, q: ProfileId, before: seq<Action>, s: Shared) returns (actions: seq<Action>, t: Shared)
    requires Reaches(p, before, s) && Closed(s) && Holds(s, q, 0, Begun(Started(Initial(), p, 0.0, true)))
    requires 2 in s.work && s.work[2] == Work(0, false) && 4 in s.chosen && 0 in s.chosen[4]
    ensures Reaches(p, actions, t) && DueThough(t, q)
  {
    var u := ReachesNext(p, before, s, Block(2));
    actions := before + [Block(2)];
    u := ReachesNext(p, actions, u, Finish(2, AuthError, 0.0, 0.0));
    actions := actions + [Finish(2, AuthError, 0.0, 0.0)];
    t := ReachesNext(p, actions, u, StartChosen(4, 0, 0.0, true));
    actions := actions + [StartChosen(4, 0, 0.0, true)];
  }

  lemma StartsFirst(p: Policy, q: ProfileId) returns (actions: seq<Action>, t: Shared)
    requires Reaches(p, [], START)
    ensures Reaches(p, actions, t) && Closed(t) && Holds(t, q, 0, Started(Initial(), p, 0.0, true))
    ensures t.holder.None? && t.work == map[] && 1 !in t.objects && 3 !in t.chosen && 4 !in t.chosen && t.blocked == {}
  {
    var s := ReachesNext(p, [], START, Add(q, 0));
    s := ReachesNext(p, [Add(q, 0)], s, ChooseOne(1, q));
    t := ReachesNext(p, [Add(q, 0)] + [ChooseOne(1, q)], s, StartChosen(1, 0, 0.0, true));
    actions := [Add(q, 0)] + [ChooseOne(1, q)] + [StartChosen(1, 0, 0.0, true)];
  }

  lemma CollectionBegins(p: Policy, q: ProfileId, before: seq<Action>, s: Shared)
    returns (actions: seq<Action>, t: Shared)
    requires Reaches(p, before, s) && Closed(s) && Holds(s, q, 0, Started(Initial(), p, 0.0, true))
    requires s.holder.None? && s.work == map[] && 1 !in s.objects && 3 !in s.chosen
    ensures Reaches(p, actions, t) && Closed(t) && Holds(t, q, 0, Begun(Started(Initial(), p, 0.0, true)))
    ensures 2 in t.work && t.work[2] == Work(0, false) && 1 !in t.objects && t.chosen == s.chosen
  {
    var u := ReachesNext(p, before, s, Lock(2));
    u := ReachesNext(p, before + [Lock(2)], u, Ask(2, q));
    t := ReachesNext(p, before + [Lock(2)] + [Ask(2, q)], u, Begin(2));
    actions := before + [Lock(2)] + [Ask(2, q)] + [Begin(2)];
  }

  lemma LateFailure(p: Policy, q: ProfileId, before: seq<Action>, s: Shared) returns (actions: seq<Action>, t: Shared)
    requires Reaches(p, before, s) && Closed(s) && Holds(s, q, 0, Begun(Started(Initial(), p, 0.0, true)))
    requires 2 in s.work && s.work[2] == Work(0, false) && 1 !in s.objects && 3 !in s.chosen
    ensures Reaches(p, actions, t) && DueThough(t, q)
  {
    actions := before;
    var u := ReachesNext(p, actions, s, Drop(q));
    actions := actions + [Drop(q)];
    u := ReachesNext(p, actions, u, Add(q, 1));
    actions := actions + [Add(q, 1)];
    u := ReachesNext(p, actions, u, ChooseOne(3, q));
    actions := actions + [ChooseOne(3, q)];
    u := ReachesNext(p, actions, u, StartChosen(3, 1, 0.0, true));
    actions := actions + [StartChosen(3, 1, 0.0, true)];
    t := ReachesNext(p, actions, u, Block(2));
    actions := actions + [Block(2)];
  }
}
