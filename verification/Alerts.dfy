/** Threshold alerts, raised once a day: the persistent evaluator (`alert_storage.py`) and the one in memory
    (`alerts.py`). */
module Alerts {
  import opened Prelude

  datatype Rule = Rule(id: string, profile: string, group: string, threshold: real, project: string, enabled: bool)

  /** Rules as their constructor admits them. */
  type AlertRule = r: Rule | r.id != "" && r.profile != "" && r.group != "" && 0.0 < r.threshold <= 100.0
    witness Rule("r", "p", "g", 1.0, "all", true)

  /** `day` counts UTC days, `at` is an instant. */
  datatype Observed = Observed(profile: string, group: string, project: string, day: int, percent: real, at: int,
                               recent: bool)

  type Observation = o: Observed | o.percent >= 0.0 witness Observed("", "", "", 0, 0.0, 0, true)

  datatype Event = Event(rule: string, profile: string, group: string, project: string, threshold: real, percent: real,
                         at: int)

  predicate Matches(r: AlertRule, o: Observation) {
    r.enabled && r.profile == o.profile && r.group == o.group && (r.project == "all" || r.project == o.project)
  }

  function EventOf(r: AlertRule, o: Observation): Event {
    Event(r.id, o.profile, o.group, o.project, r.threshold, o.percent, o.at)
  }

  // ---------------------------------------------------------------- sorted(rules, key=threshold)

  function Insert(r: AlertRule, sorted: seq<AlertRule>): (s: seq<AlertRule>)
    ensures multiset(s) == multiset{r} + multiset(sorted)
  {
    if sorted == [] || r.threshold <= sorted[0].threshold then [r] + sorted
    else
      assert sorted == [sorted[0]] + sorted[1..];
      [sorted[0]] + Insert(r, sorted[1..])
  }

  function ByThreshold(rules: seq<AlertRule>): (s: seq<AlertRule>)
    ensures multiset(s) == multiset(rules)
  {
    if rules == [] then []
    else
      assert rules == [rules[0]] + rules[1..];
      Insert(rules[0], ByThreshold(rules[1..]))
  }

  predicate Ascending(rules: seq<AlertRule>) {
    forall i, j :: 0 <= i < j < |rules| ==> rules[i].threshold <= rules[j].threshold
  }

  /** The rules with one threshold, in their order. */
  function Level(rules: seq<AlertRule>, t: real): seq<AlertRule> {
    if rules == [] then []
    else if rules[0].threshold == t then [rules[0]] + Level(rules[1..], t)
    else Level(rules[1..], t)
  }

  lemma ConsAscends(r: AlertRule, sorted: seq<AlertRule>)
    requires Ascending(sorted) && forall q :: q in sorted ==> r.threshold <= q.threshold
    ensures Ascending([r] + sorted)
  {
  }

  lemma InsertKeepsMembers(r: AlertRule, sorted: seq<AlertRule>)
    ensures forall q :: q in Insert(r, sorted) <==> q == r || q in sorted
  {
    forall q ensures q in Insert(r, sorted) <==> q == r || q in sorted {
      assert q in Insert(r, sorted) <==> q in multiset(Insert(r, sorted));
    }
  }

  lemma {:induction false} InsertAscends(r: AlertRule, sorted: seq<AlertRule>)
    requires Ascending(sorted)
    ensures Ascending(Insert(r, sorted))
  {
    if sorted == [] || r.threshold <= sorted[0].threshold {
      ConsAscends(r, sorted);
    } else {
      InsertAscends(r, sorted[1..]);
      InsertKeepsMembers(r, sorted[1..]);
      ConsAscends(sorted[0], Insert(r, sorted[1..]));
    }
  }

  lemma LevelOfCons(r: AlertRule, rules: seq<AlertRule>, t: real)
    ensures Level([r] + rules, t) == if r.threshold == t then [r] + Level(rules, t) else Level(rules, t)
  {
    assert ([r] + rules)[1..] == rules;
  }

  lemma {:induction false} InsertKeepsLevel(r: AlertRule, sorted: seq<AlertRule>, t: real)
    requires Ascending(sorted)
    ensures Level(Insert(r, sorted), t) == Level([r] + sorted, t)
  {
    LevelOfCons(r, sorted, t);
    if sorted != [] && r.threshold > sorted[0].threshold {
      var first, rest := sorted[0], sorted[1..];
      InsertKeepsLevel(r, rest, t);
      LevelOfCons(r, rest, t);
      LevelOfCons(first, Insert(r, rest), t);
      InsertsLater(r, sorted);
    }
  }

  lemma InsertsLater(r: AlertRule, sorted: seq<AlertRule>)
    requires sorted != [] && r.threshold > sorted[0].threshold
    ensures Insert(r, sorted) == [sorted[0]] + Insert(r, sorted[1..])
  {
  }

  /** The order is by threshold, and rules of the same threshold keep the order they came in. */
  lemma {:induction false} SortIsStable(rules: seq<AlertRule>, t: real)
    ensures Ascending(ByThreshold(rules)) && Level(ByThreshold(rules), t) == Level(rules, t)
  {
    if rules != [] {
      SortIsStable(rules[1..], t);
      InsertAscends(rules[0], ByThreshold(rules[1..]));
      InsertKeepsLevel(rules[0], ByThreshold(rules[1..]), t);
      LevelOfCons(rules[0], ByThreshold(rules[1..]), t);
    }
  }

  lemma SortKeepsMembers(rules: seq<AlertRule>)
    ensures forall r :: r in ByThreshold(rules) <==> r in rules
  {
    forall r ensures r in ByThreshold(rules) <==> r in rules {
      assert r in multiset(ByThreshold(rules)) <==> r in multiset(rules);
    }
  }

  // ---------------------------------------------------------------- the persistent evaluator

  datatype RuleKey = RuleKey(profile: string, rule: string)

  /** Unique key of `alert_dedup`. */
  datatype DayKey = DayKey(profile: string, rule: string, day: int)

  datatype Row = Row(previous: real, sent: Option<int>)

  type Dedup = map<DayKey, Row>

  datatype Store = Store(rules: map<RuleKey, AlertRule>, dedup: Dedup)

  function KeyOf(r: AlertRule, o: Observation): DayKey { DayKey(o.profile, r.id, o.day) }

  function Previous(d: Dedup, k: DayKey): real { if k in d then d[k].previous else 0.0 }

  function SentAt(d: Dedup, k: DayKey): Option<int> { if k in d then d[k].sent else None }

  predicate Fires(d: Dedup, o: Observation, r: AlertRule) {
    Matches(r, o) && o.recent && SentAt(d, KeyOf(r, o)).None? && Previous(d, KeyOf(r, o)) < r.threshold <= o.percent
  }

  /** What the loop body of `evaluate` leaves in the table. */
  function Visited(d: Dedup, o: Observation, r: AlertRule): Dedup {
    if !Matches(r, o) then d
    else d[KeyOf(r, o) := Row(o.percent, if Fires(d, o, r) then Some(o.at) else SentAt(d, KeyOf(r, o)))]
  }

  function FiredBy(d: Dedup, o: Observation, r: AlertRule): seq<Event> {
    if Fires(d, o, r) then [EventOf(r, o)] else []
  }

  function RowsAfter(d: Dedup, o: Observation, rules: seq<AlertRule>): Dedup
    decreases |rules|
  {
    if rules == [] then d else RowsAfter(Visited(d, o, rules[0]), o, rules[1..])
  }

  function Raised(d: Dedup, o: Observation, rules: seq<AlertRule>): seq<Event>
    decreases |rules|
  {
    if rules == [] then []
    else FiredBy(d, o, rules[0]) + Raised(Visited(d, o, rules[0]), o, rules[1..])
  }

  /** Every row that `evaluate` would write refers to a saved rule, as the foreign key demands. */
  predicate Referenced(saved: map<RuleKey, AlertRule>, o: Observation, rules: seq<AlertRule>) {
    forall r :: r in rules && Matches(r, o) ==> RuleKey(o.profile, r.id) in saved
  }

  datatype Call = Save(rule: AlertRule) | Delete(profile: string, id: string)
                  | Evaluate(seen: Observation, rules: seq<AlertRule>)

  function AfterCall(s: Store, c: Call): Store {
    match c
    case Save(r) => s.(rules := s.rules[RuleKey(r.profile, r.id) := r])
    case Delete(p, r) =>
      Store(s.rules - {RuleKey(p, r)}, if RuleKey(p, r) in s.rules then Without(s.dedup, p, r) else s.dedup)
    case Evaluate(o, rules) =>
      if Referenced(s.rules, o, rules) then s.(dedup := RowsAfter(s.dedup, o, ByThreshold(rules))) else s
  }

  /** `ON DELETE CASCADE`. */
  function Without(d: Dedup, p: string, r: string): Dedup {
    map k | k in d && !(k.profile == p && k.rule == r) :: d[k]
  }

  function EventsBy(s: Store, c: Call): seq<Event> {
    if c.Evaluate? && Referenced(s.rules, c.seen, c.rules) then Raised(s.dedup, c.seen, ByThreshold(c.rules)) else []
  }

  /** The first `i` rules are done: the fold over all of them is the fold over the others from here on. */
  ghost predicate EvaluatedUpTo(d: Dedup, o: Observation, sorted: seq<AlertRule>, i: nat, rows: Dedup,
                                raised: seq<Event>)
    requires i <= |sorted|
  {
    && RowsAfter(d, o, sorted) == RowsAfter(rows, o, sorted[i..])
    && Raised(d, o, sorted) == raised + Raised(rows, o, sorted[i..])
  }

  lemma EvaluatedNext(d: Dedup, o: Observation, sorted: seq<AlertRule>, i: nat, rows: Dedup, raised: seq<Event>)
    requires i < |sorted| && EvaluatedUpTo(d, o, sorted, i, rows, raised)
    ensures EvaluatedUpTo(d, o, sorted, i + 1, Visited(rows, o, sorted[i]), raised + FiredBy(rows, o, sorted[i]))
  {
    var fired, next := FiredBy(rows, o, sorted[i]), Visited(rows, o, sorted[i]);
    assert sorted[i..][0] == sorted[i] && sorted[i..][1..] == sorted[i + 1..];
    Associates(raised, fired, Raised(next, o, sorted[i + 1..]));
  }

  lemma Associates<T>(a: seq<T>, b: seq<T>, c: seq<T>)
    ensures a + (b + c) == a + b + c
  {
  }

  lemma ReferencedNext(saved: map<RuleKey, AlertRule>, o: Observation, sorted: seq<AlertRule>, i: nat)
    requires i < |sorted|
    ensures Referenced(saved, o, sorted[..i + 1]) <==>
      Referenced(saved, o, sorted[..i]) && Referenced(saved, o, [sorted[i]])
  {
    assert sorted[..i + 1] == sorted[..i] + [sorted[i]];
  }

  lemma ReferencedAll(saved: map<RuleKey, AlertRule>, o: Observation, given: seq<AlertRule>, sorted: seq<AlertRule>,
                      i: nat)
    requires i <= |sorted| && forall r :: r in sorted <==> r in given
    ensures !Referenced(saved, o, sorted[..i]) ==> !Referenced(saved, o, given)
    ensures i == |sorted| ==> sorted[i..] == [] && (Referenced(saved, o, sorted[..i]) <==> Referenced(saved, o, given))
  {
    assert forall r :: r in sorted[..i] ==> r in given;
    if i == |sorted| { assert sorted[..i] == sorted; }
  }

  class SQLiteAlertState {
    var rules: map<RuleKey, AlertRule>
    var dedup: Dedup

    function Now(): Store
      reads this
    {
      Store(rules, dedup)
    }

    constructor ()
      ensures Now() == Store(map[], map[])
    {
      rules, dedup := map[], map[];
    }

    method SaveRule(r: AlertRule)
      modifies this`rules
      ensures Now() == AfterCall(old(Now()), Save(r))
    {
      rules := rules[RuleKey(r.profile, r.id) := r];
    }

    method DeleteRule(profile: string, rule: string) returns (deleted: bool)
      modifies this
      ensures deleted <==> RuleKey(profile, rule) in old(rules)
      ensures Now() == AfterCall(old(Now()), Delete(profile, rule))
    {
      deleted := RuleKey(profile, rule) in rules;
      if deleted { dedup := Without(dedup, profile, rule); }
      rules := rules - {RuleKey(profile, rule)};
    }

    /** The loop body of `evaluate`, inside its transaction. */
    method Visit(rows: Dedup, o: Observation, r: AlertRule) returns (next: Dedup, events: seq<Event>, saved: bool)
      ensures next == Visited(rows, o, r) && events == FiredBy(rows, o, r)
      ensures saved <==> Referenced(rules, o, [r])
    {
      next, events, saved := rows, [], true;
      if Matches(r, o) {
        var k := KeyOf(r, o);
        var sent := SentAt(rows, k);
        next := rows[k := Row(o.percent, sent)];
        saved := RuleKey(o.profile, r.id) in rules;
        if o.recent && sent.None? && Previous(rows, k) < r.threshold <= o.percent {
          next := next[k := next[k].(sent := Some(o.at))];
          events := [EventOf(r, o)];
        }
      }
    }

    /** One transaction: a rule that is not saved aborts it, and nothing is kept. */
    method EvaluateRules(o: Observation, given: seq<AlertRule>) returns (events: Option<seq<Event>>)
      modifies this`dedup
      ensures Now() == AfterCall(old(Now()), Evaluate(o, given))
      ensures events.Some? <==> Referenced(rules, o, given)
      ensures events.Some? ==> events.value == EventsBy(old(Now()), Evaluate(o, given))
    {
      var sorted := ByThreshold(given);
      SortKeepsMembers(given);
      var raised: seq<Event> := [];
      var rows := dedup;
      var i, failed := 0, false;
      while i < |sorted| && !failed
        invariant i <= |sorted| && dedup == old(dedup)
        invariant !failed ==> EvaluatedUpTo(dedup, o, sorted, i, rows, raised)
        invariant failed <==> !Referenced(rules, o, sorted[..i])
      {
        EvaluatedNext(dedup, o, sorted, i, rows, raised);
        ReferencedNext(rules, o, sorted, i);
        var events, saved;
        rows, events, saved := Visit(rows, o, sorted[i]);
        failed := !saved;
        raised := raised + events;
        i := i + 1;
      }
      ReferencedAll(rules, o, given, sorted, i);
      if failed {
        events := None;
      } else {
        dedup := rows;
        events := Some(raised);
      }
    }
  }

  // ---------------------------------------------------------------- at most one alert a day

  /** The calls on one store so far, latest outermost. */
  datatype History = Opened | Then(past: History, call: Call)

  function StoreAfter(h: History): Store {
    if h.Opened? then Store(map[], map[]) else AfterCall(StoreAfter(h.past), h.call)
  }

  function CountOf(events: seq<Event>, rule: string): nat {
    if events == [] then 0 else (if events[0].rule == rule then 1 else 0) + CountOf(events[1..], rule)
  }

  /** How many alerts one call raised for a profile, rule and day. */
  function AlertsBy(s: Store, c: Call, k: DayKey): nat {
    if c.Evaluate? && c.seen.profile == k.profile && c.seen.day == k.day then CountOf(EventsBy(s, c), k.rule) else 0
  }

  /** How many alerts were raised since the rule was last deleted. */
  function AlertsSince(h: History, k: DayKey): nat {
    if h.Opened? || Deletes(h.call, k) then 0
    else AlertsSince(h.past, k) + AlertsBy(StoreAfter(h.past), h.call, k)
  }

  lemma CountSplits(a: seq<Event>, b: seq<Event>, rule: string)
    ensures CountOf(a + b, rule) == CountOf(a, rule) + CountOf(b, rule)
  {
    if a == [] {
      assert a + b == b;
    } else {
      CountSplits(a[1..], b, rule);
      assert (a + b)[1..] == a[1..] + b;
    }
  }

  /** One evaluation raises at most one alert under a key, only where none was sent before, and then marks it as
      sent. */
  lemma {:induction false} RaisedOnce(d: Dedup, o: Observation, rules: seq<AlertRule>, k: DayKey)
    requires k.profile == o.profile && k.day == o.day
    ensures SentAt(RowsAfter(d, o, rules), k).Some? <==> SentAt(d, k).Some? || CountOf(Raised(d, o, rules), k.rule) > 0
    ensures CountOf(Raised(d, o, rules), k.rule) <= if SentAt(d, k).Some? then 0 else 1
    decreases |rules|
  {
    if rules != [] {
      var first := FiredBy(d, o, rules[0]);
      CountSplits(first, Raised(Visited(d, o, rules[0]), o, rules[1..]), k.rule);
      RaisedOnce(Visited(d, o, rules[0]), o, rules[1..], k);
    }
  }

  /** Keys of other profiles and days are not touched. */
  lemma {:induction false} OtherRowsStay(d: Dedup, o: Observation, rules: seq<AlertRule>, k: DayKey)
    requires k.profile != o.profile || k.day != o.day || forall r :: r in rules && Matches(r, o) ==> r.id != k.rule
    ensures k in RowsAfter(d, o, rules) <==> k in d
    ensures k in d ==> RowsAfter(d, o, rules)[k] == d[k]
    decreases |rules|
  {
    if rules != [] { OtherRowsStay(Visited(d, o, rules[0]), o, rules[1..], k); }
  }

  /** A row refers to a saved rule. */
  ghost predicate Anchored(s: Store) { forall k :: k in s.dedup ==> RuleKey(k.profile, k.rule) in s.rules }

  lemma {:induction false} RowsStayAnchored(d: Dedup, o: Observation, rules: seq<AlertRule>,
                                            saved: map<RuleKey, AlertRule>)
    requires Anchored(Store(saved, d)) && Referenced(saved, o, rules)
    ensures Anchored(Store(saved, RowsAfter(d, o, rules)))
    decreases |rules|
  {
    if rules != [] { RowsStayAnchored(Visited(d, o, rules[0]), o, rules[1..], saved); }
  }

  lemma {:induction false} StoreIsAnchored(h: History)
    ensures Anchored(StoreAfter(h))
  {
    if h.Then? {
      StoreIsAnchored(h.past);
      if h.call.Evaluate? && Referenced(StoreAfter(h.past).rules, h.call.seen, h.call.rules) {
        SortKeepsMembers(h.call.rules);
        RowsStayAnchored(StoreAfter(h.past).dedup, h.call.seen, ByThreshold(h.call.rules), StoreAfter(h.past).rules);
      }
    }
  }

  /** Whatever rules are saved, changed and passed in: between two deletions of a rule there is at most one alert per
      profile, rule and UTC day, and the table says whether there was one. */
  lemma {:induction false} AtMostOneAlert(h: History, k: DayKey)
    ensures AlertsSince(h, k) <= 1
    ensures AlertsSince(h, k) == 1 <==> SentAt(StoreAfter(h).dedup, k).Some?
  {
    if h.Then? {
      AtMostOneAlert(h.past, k);
      StoreIsAnchored(h.past);
      CallRaisesOnce(StoreAfter(h.past), h.call, k);
    }
  }

  predicate Deletes(c: Call, k: DayKey) { c.Delete? && c.profile == k.profile && c.id == k.rule }

  /** One call raises at most one alert under a key, only where none was sent before, and the table remembers it. */
  lemma CallRaisesOnce(s: Store, c: Call, k: DayKey)
    requires Anchored(s)
    ensures Deletes(c, k) ==> SentAt(AfterCall(s, c).dedup, k).None?
    ensures !Deletes(c, k) ==>
      (SentAt(AfterCall(s, c).dedup, k).Some? <==> SentAt(s.dedup, k).Some? || AlertsBy(s, c, k) > 0)
    ensures AlertsBy(s, c, k) <= if SentAt(s.dedup, k).Some? then 0 else 1
  {
    match c
    case Save(_) =>
    case Delete(p, id) => DeletionClears(s, p, id, k);
    case Evaluate(o, rules) => EvaluationRaisesOnce(s, o, rules, k);
  }

  lemma DeletionClears(s: Store, p: string, id: string, k: DayKey)
    requires Anchored(s)
    ensures var after := AfterCall(s, Delete(p, id)).dedup;
      SentAt(after, k) == if k.profile == p && k.rule == id then None else SentAt(s.dedup, k)
  {
    assert k in s.dedup ==> RuleKey(k.profile, k.rule) in s.rules;
  }

  lemma EvaluationRaisesOnce(s: Store, o: Observation, rules: seq<AlertRule>, k: DayKey)
    ensures var c := Evaluate(o, rules);
      && (SentAt(AfterCall(s, c).dedup, k).Some? <==> SentAt(s.dedup, k).Some? || AlertsBy(s, c, k) > 0)
      && AlertsBy(s, c, k) <= if SentAt(s.dedup, k).Some? then 0 else 1
  {
    if Referenced(s.rules, o, rules) {
      RaisedOnceHere(s.dedup, o, ByThreshold(rules), k);
    } else {
      assert EventsBy(s, Evaluate(o, rules)) == [];
    }
  }

  lemma RaisedOnceHere(d: Dedup, o: Observation, rules: seq<AlertRule>, k: DayKey)
    ensures k.profile == o.profile && k.day == o.day ==>
              && (SentAt(RowsAfter(d, o, rules), k).Some? <==>
                   SentAt(d, k).Some? || CountOf(Raised(d, o, rules), k.rule) > 0)
              && CountOf(Raised(d, o, rules), k.rule) <= if SentAt(d, k).Some? then 0 else 1
    ensures !(k.profile == o.profile && k.day == o.day) ==> SentAt(RowsAfter(d, o, rules), k) == SentAt(d, k)
  {
    if k.profile == o.profile && k.day == o.day { RaisedOnce(d, o, rules, k); } else { OtherRowsStay(d, o, rules, k); }
  }

  /** Stale observations raise nothing, and alerts come in the order of their thresholds, each for a rule that
      matches. */
  lemma {:induction false} RaisedInOrder(d: Dedup, o: Observation, rules: seq<AlertRule>)
    requires Ascending(rules)
    ensures !o.recent ==> Raised(d, o, rules) == []
    ensures forall i, j ::
      0 <= i < j < |Raised(d, o, rules)| ==> Raised(d, o, rules)[i].threshold <= Raised(d, o, rules)[j].threshold
    ensures forall e :: e in Raised(d, o, rules) ==> exists r :: r in rules && Matches(r, o) && e == EventOf(r, o)
    decreases |rules|
  {
    if rules != [] {
      var rest := Raised(Visited(d, o, rules[0]), o, rules[1..]);
      RaisedInOrder(Visited(d, o, rules[0]), o, rules[1..]);
      forall e | e in rest
        ensures (exists r :: r in rules && Matches(r, o) && e == EventOf(r, o)) && rules[0].threshold <= e.threshold
      {
        var r :| r in rules[1..] && Matches(r, o) && e == EventOf(r, o);
        assert r in rules;
      }
    }
  }

  // ---------------------------------------------------------------- exactly when there is one

  /** The rule is in the list and no other rule there shares its key. */
  ghost predicate OnlyOne(rules: seq<AlertRule>, rule: AlertRule) {
    rule in rules && multiset(rules)[rule] == 1 && forall r :: r in rules && SameKey(r, rule) ==> r == rule
  }

  predicate SameKey(a: AlertRule, b: AlertRule) { a.profile == b.profile && a.id == b.id }

  /** All the while the rule was evaluated as it is, and it was never deleted. */
  ghost predicate Steady(h: History, rule: AlertRule) {
    h.Then? ==>
      && Steady(h.past, rule)
      && (h.call.Evaluate? ==> OnlyOne(h.call.rules, rule))
      && !(h.call.Delete? && h.call.profile == rule.profile && h.call.id == rule.id)
  }

  /** The observations of one day that the rule matched, in their order, without those of aborted transactions. */
  ghost function Seen(h: History, rule: AlertRule, day: int): seq<Observation> {
    if h.Opened? then []
    else if h.call.Evaluate? && Matches(rule, h.call.seen) && h.call.seen.day == day
            && Referenced(StoreAfter(h.past).rules, h.call.seen, h.call.rules)
    then Seen(h.past, rule, day) + [h.call.seen]
    else Seen(h.past, rule, day)
  }

  /** The `i`-th observation is fresh and lifts the usage from below the threshold to it or above. */
  predicate Crosses(seen: seq<Observation>, i: int, t: real) {
    0 <= i < |seen| && seen[i].recent && seen[i].percent >= t && (i == 0 || seen[i - 1].percent < t)
  }

  ghost predicate EverCrosses(seen: seq<Observation>, t: real) { exists i :: Crosses(seen, i, t) }

  lemma OnlyOneSplits(rules: seq<AlertRule>, rule: AlertRule)
    requires OnlyOne(rules, rule)
    ensures rules[0] != rule ==> OnlyOne(rules[1..], rule) && !SameKey(rules[0], rule)
    ensures rules[0] == rule ==> forall r :: r in rules[1..] ==> !SameKey(r, rule)
  {
    var rest: seq<AlertRule> := rules[1..];
    assert rules == [rules[0]] + rest;
    if rules[0] == rule {
      assert multiset(rest)[rule] == 0;
      forall r | r in rest ensures !SameKey(r, rule) { assert r in multiset(rest); }
    } else {
      assert rule in multiset(rest);
    }
  }

  /** An evaluation treats a rule that stands alone as if it were the only rule. */
  lemma {:induction false} AloneInTable(d: Dedup, o: Observation, rules: seq<AlertRule>, rule: AlertRule)
    requires OnlyOne(rules, rule) && Matches(rule, o)
    ensures KeyOf(rule, o) in RowsAfter(d, o, rules)
    ensures RowsAfter(d, o, rules)[KeyOf(rule, o)] == Visited(d, o, rule)[KeyOf(rule, o)]
    decreases |rules|
  {
    OnlyOneSplits(rules, rule);
    var next := Visited(d, o, rules[0]);
    if rules[0] == rule {
      OtherRowsStay(next, o, rules[1..], KeyOf(rule, o));
    } else {
      AloneInTable(next, o, rules[1..], rule);
    }
  }

  /** What the table remembers of a day, and whether an alert went out. */
  ghost predicate Remembers(d: Dedup, k: DayKey, seen: seq<Observation>, t: real) {
    && (k in d <==> seen != [])
    && (seen != [] ==> d[k].previous == seen[|seen| - 1].percent)
    && (SentAt(d, k).Some? <==> EverCrosses(seen, t))
  }

  lemma RemembersNext(d: Dedup, o: Observation, rule: AlertRule, seen: seq<Observation>, next: Dedup)
    requires Matches(rule, o) && Remembers(d, KeyOf(rule, o), seen, rule.threshold)
    requires KeyOf(rule, o) in next && next[KeyOf(rule, o)] == Visited(d, o, rule)[KeyOf(rule, o)]
    ensures Remembers(next, KeyOf(rule, o), seen + [o], rule.threshold)
  {
    var t, more := rule.threshold, seen + [o];
    forall i | i != |seen| ensures Crosses(seen, i, t) <==> Crosses(more, i, t) {}
    if i :| Crosses(seen, i, t) { assert Crosses(more, i, t); }
    if Fires(d, o, rule) { assert Crosses(more, |seen|, t); }
  }

  lemma {:induction false} TableRemembers(h: History, rule: AlertRule, day: int)
    requires Steady(h, rule)
    ensures Remembers(StoreAfter(h).dedup, DayKey(rule.profile, rule.id, day), Seen(h, rule, day), rule.threshold)
  {
    if h.Then? {
      TableRemembers(h.past, rule, day);
      var s := StoreAfter(h.past);
      if h.call.Evaluate? && Referenced(s.rules, h.call.seen, h.call.rules) {
        if Matches(rule, h.call.seen) && h.call.seen.day == day {
          MatchRemembers(s.dedup, h.call.seen, h.call.rules, rule, Seen(h.past, rule, day));
        } else {
          MismatchRemembers(s.dedup, h.call.seen, h.call.rules, rule, Seen(h.past, rule, day), day);
        }
      }
    }
  }

  lemma MatchRemembers(d: Dedup, o: Observation, rules: seq<AlertRule>, rule: AlertRule, seen: seq<Observation>)
    requires OnlyOne(rules, rule) && Matches(rule, o) && Remembers(d, KeyOf(rule, o), seen, rule.threshold)
    ensures Remembers(RowsAfter(d, o, ByThreshold(rules)), KeyOf(rule, o), seen + [o], rule.threshold)
  {
    SortKeepsMembers(rules);
    AloneInTable(d, o, ByThreshold(rules), rule);
    RemembersNext(d, o, rule, seen, RowsAfter(d, o, ByThreshold(rules)));
  }

  lemma MismatchRemembers(d: Dedup, o: Observation, rules: seq<AlertRule>, rule: AlertRule, seen: seq<Observation>,
                          day: int)
    requires OnlyOne(rules, rule) && !(Matches(rule, o) && o.day == day)
    requires Remembers(d, DayKey(rule.profile, rule.id, day), seen, rule.threshold)
    ensures Remembers(RowsAfter(d, o, ByThreshold(rules)), DayKey(rule.profile, rule.id, day), seen, rule.threshold)
  {
    SortKeepsMembers(rules);
    OtherRowsStay(d, o, ByThreshold(rules), DayKey(rule.profile, rule.id, day));
  }

  lemma {:induction false} SinceTheStart(h: History, rule: AlertRule, day: int)
    requires Steady(h, rule)
    ensures AlertsSince(h, DayKey(rule.profile, rule.id, day)) == AlertsInAll(h, DayKey(rule.profile, rule.id, day))
  {
    if h.Then? { SinceTheStart(h.past, rule, day); }
  }

  function AlertsInAll(h: History, k: DayKey): nat {
    if h.Opened? then 0 else AlertsInAll(h.past, k) + AlertsBy(StoreAfter(h.past), h.call, k)
  }

  /** While a rule stays as it is, a day has its one alert exactly when a fresh observation crosses the threshold
      upwards. */
  lemma AlertWhenCrossed(h: History, rule: AlertRule, day: int)
    requires Steady(h, rule)
    ensures AlertsInAll(h, DayKey(rule.profile, rule.id, day)) <= 1
    ensures AlertsInAll(h, DayKey(rule.profile, rule.id, day)) == 1 <==> EverCrosses(Seen(h, rule, day), rule.threshold)
  {
    AtMostOneAlert(h, DayKey(rule.profile, rule.id, day));
    TableRemembers(h, rule, day);
    SinceTheStart(h, rule, day);
  }

  /** And if all of the day's observations are fresh, exactly when one of them reaches the threshold. */
  lemma AlertWhenReached(h: History, rule: AlertRule, day: int)
    requires Steady(h, rule) && forall o :: o in Seen(h, rule, day) ==> o.recent
    ensures AlertsInAll(h, DayKey(rule.profile, rule.id, day)) == 1 <==>
      exists o :: o in Seen(h, rule, day) && o.percent >= rule.threshold
  {
    AlertWhenCrossed(h, rule, day);
    SomeCrossing(Seen(h, rule, day), rule.threshold);
  }

  lemma SomeCrossing(seen: seq<Observation>, t: real)
    requires forall o :: o in seen ==> o.recent
    ensures EverCrosses(seen, t) <==> exists o :: o in seen && o.percent >= t
  {
    if i :| Crosses(seen, i, t) { assert seen[i] in seen; }
    if o :| o in seen && o.percent >= t {
      var i :| 0 <= i < |seen| && seen[i] == o;
      var j := FirstReaching(seen, i, t);
    }
  }

  lemma {:induction false} FirstReaching(seen: seq<Observation>, i: nat, t: real) returns (j: nat)
    requires i < |seen| && seen[i].percent >= t && forall o :: o in seen ==> o.recent
    ensures Crosses(seen, j, t)
  {
    if i == 0 || seen[i - 1].percent < t { j := i; } else { j := FirstReaching(seen, i - 1, t); }
  }

  // ---------------------------------------------------------------- the evaluator in memory

  datatype StreamKey = StreamKey(day: int, profile: string, group: string, project: string)

  datatype SentKey = SentKey(day: int, rule: string)

  datatype Memory = Memory(previous: map<StreamKey, real>, sent: set<SentKey>)

  function StreamOf(o: Observation): StreamKey { StreamKey(o.day, o.profile, o.group, o.project) }

  function Recalled(m: Memory, o: Observation): real {
    if StreamOf(o) in m.previous then m.previous[StreamOf(o)] else 0.0
  }

  predicate FiresInMemory(sent: set<SentKey>, previous: real, o: Observation, r: AlertRule) {
    Matches(r, o) && SentKey(o.day, r.id) !in sent && previous < r.threshold <= o.percent
  }

  function SentAfter(sent: set<SentKey>, previous: real, o: Observation, rules: seq<AlertRule>): set<SentKey>
    decreases |rules|
  {
    if rules == [] then sent
    else SentAfter(if FiresInMemory(sent, previous, o, rules[0]) then sent + {SentKey(o.day, rules[0].id)} else sent,
                   previous, o, rules[1..])
  }

  function RaisedInMemory(sent: set<SentKey>, previous: real, o: Observation, rules: seq<AlertRule>): seq<Event>
    decreases |rules|
  {
    if rules == [] then []
    else if FiresInMemory(sent, previous, o, rules[0])
    then [EventOf(rules[0], o)] + RaisedInMemory(sent + {SentKey(o.day, rules[0].id)}, previous, o, rules[1..])
    else RaisedInMemory(sent, previous, o, rules[1..])
  }

  function MemoryAfter(m: Memory, o: Observation, rules: seq<AlertRule>): Memory {
    Memory(m.previous[StreamOf(o) := o.percent],
           if o.recent then SentAfter(m.sent, Recalled(m, o), o, ByThreshold(rules)) else m.sent)
  }

  function EventsInMemory(m: Memory, o: Observation, rules: seq<AlertRule>): seq<Event> {
    if o.recent then RaisedInMemory(m.sent, Recalled(m, o), o, ByThreshold(rules)) else []
  }

  /** The first `i` rules are done, as for the other evaluator. */
  ghost predicate RecalledUpTo(sent: set<SentKey>, previous: real, o: Observation, sorted: seq<AlertRule>, i: nat,
                               now: set<SentKey>, raised: seq<Event>)
    requires i <= |sorted|
  {
    && SentAfter(sent, previous, o, sorted) == SentAfter(now, previous, o, sorted[i..])
    && RaisedInMemory(sent, previous, o, sorted) == raised + RaisedInMemory(now, previous, o, sorted[i..])
  }

  lemma RecalledNext(sent: set<SentKey>, previous: real, o: Observation, sorted: seq<AlertRule>, i: nat,
                     now: set<SentKey>, raised: seq<Event>)
    requires i < |sorted| && RecalledUpTo(sent, previous, o, sorted, i, now, raised)
    ensures var r := sorted[i];
      if FiresInMemory(now, previous, o, r)
      then RecalledUpTo(sent, previous, o, sorted, i + 1, now + {SentKey(o.day, r.id)}, raised + [EventOf(r, o)])
      else RecalledUpTo(sent, previous, o, sorted, i + 1, now, raised)
  {
    assert sorted[i..][1..] == sorted[i + 1..];
  }

  class AlertEvaluator {
    var previous: map<StreamKey, real>
    var sent: set<SentKey>

    function Now(): Memory
      reads this
    {
      Memory(previous, sent)
    }

    constructor ()
      ensures Now() == Memory(map[], {})
    {
      previous, sent := map[], {};
    }

    method EvaluateRules(o: Observation, rules: seq<AlertRule>) returns (events: seq<Event>)
      modifies this
      ensures Now() == MemoryAfter(old(Now()), o, rules)
      ensures events == EventsInMemory(old(Now()), o, rules)
    {
      var before := if StreamOf(o) in previous then previous[StreamOf(o)] else 0.0;
      previous := previous[StreamOf(o) := o.percent];
      events := [];
      if !o.recent { return; }
      var sorted := ByThreshold(rules);
      var i := 0;
      while i < |sorted|
        invariant i <= |sorted| && previous == old(previous)[StreamOf(o) := o.percent]
        invariant RecalledUpTo(old(sent), before, o, sorted, i, sent, events)
      {
        var r := sorted[i];
        RecalledNext(old(sent), before, o, sorted, i, sent, events);
        if Matches(r, o) && SentKey(o.day, r.id) !in sent {
          if before < r.threshold <= o.percent {
            sent := sent + {SentKey(o.day, r.id)};
            events := events + [EventOf(r, o)];
          }
        }
        i := i + 1;
      }
      assert sorted[i..] == [];
    }
  }

  // ---------------------------------------------------------------- the two evaluators agree

  ghost predicate DistinctIds(rules: seq<AlertRule>) {
    forall i, j :: 0 <= i < j < |rules| ==> rules[i].id != rules[j].id
  }

  /** Both evaluators stand the same with a rule as far as this observation goes. */
  ghost predicate AgreeOn(d: Dedup, previous: real, sent: set<SentKey>, r: AlertRule, o: Observation) {
    Matches(r, o) ==>
      Previous(d, KeyOf(r, o)) == previous && (SentAt(d, KeyOf(r, o)).Some? <==> SentKey(o.day, r.id) in sent)
  }

  /** Both evaluators know the same about whether the rule fires on this observation. */
  ghost predicate Alike(d: Dedup, previous: real, sent: set<SentKey>, r: AlertRule, o: Observation) {
    Matches(r, o) ==>
      && (SentAt(d, KeyOf(r, o)).Some? <==> SentKey(o.day, r.id) in sent)
      && (SentAt(d, KeyOf(r, o)).None? ==> (Previous(d, KeyOf(r, o)) < r.threshold <==> previous < r.threshold))
  }

  lemma {:induction false} SameEvents(d: Dedup, previous: real, sent: set<SentKey>, o: Observation,
                                      rules: seq<AlertRule>)
    requires o.recent && DistinctIds(rules) && forall r :: r in rules ==> Alike(d, previous, sent, r, o)
    ensures Raised(d, o, rules) == RaisedInMemory(sent, previous, o, rules)
    decreases |rules|
  {
    if rules != [] {
      var r := rules[0];
      assert Alike(d, previous, sent, r, o);
      var more := if FiresInMemory(sent, previous, o, r) then sent + {SentKey(o.day, r.id)} else sent;
      forall q | q in rules[1..] ensures Alike(Visited(d, o, r), previous, more, q, o) {
        assert q in rules && Alike(d, previous, sent, q, o) && q.id != r.id;
      }
      SameEvents(Visited(d, o, r), previous, more, o, rules[1..]);
    }
  }

  /** One (group, project) stream feeds each rule on each day. */
  ghost predicate OneStream(rules: seq<AlertRule>, seen: seq<Observation>) {
    forall r, o, p :: r in rules && o in seen && p in seen && Matches(r, o) && Matches(r, p) && o.day == p.day ==>
      o.project == p.project
  }

  ghost predicate AgreeOnAll(d: Dedup, m: Memory, rules: seq<AlertRule>, seen: seq<Observation>) {
    forall r, o :: r in rules && o in seen ==> AgreeOn(d, Recalled(m, o), m.sent, r, o)
  }

  function RowsOver(rules: seq<AlertRule>, seen: seq<Observation>): Dedup {
    if seen == [] then map[] else RowsAfter(RowsOver(rules, seen[..|seen| - 1]), seen[|seen| - 1], ByThreshold(rules))
  }

  function MemoryOver(rules: seq<AlertRule>, seen: seq<Observation>): Memory {
    if seen == [] then Memory(map[], {})
    else MemoryAfter(MemoryOver(rules, seen[..|seen| - 1]), seen[|seen| - 1], rules)
  }

  /** Everything the persistent evaluator raises over a history, in order. */
  function RaisedOver(rules: seq<AlertRule>, seen: seq<Observation>): seq<Event> {
    if seen == [] then []
    else RaisedOver(rules, seen[..|seen| - 1]) +
         Raised(RowsOver(rules, seen[..|seen| - 1]), seen[|seen| - 1], ByThreshold(rules))
  }

  /** Everything the evaluator in memory raises over a history, in order. */
  function RaisedInMemoryOver(rules: seq<AlertRule>, seen: seq<Observation>): seq<Event> {
    if seen == [] then []
    else RaisedInMemoryOver(rules, seen[..|seen| - 1]) +
         EventsInMemory(MemoryOver(rules, seen[..|seen| - 1]), seen[|seen| - 1], rules)
  }

  lemma {:induction false} RowsPrevious(d: Dedup, o: Observation, rules: seq<AlertRule>, r: AlertRule)
    requires r in rules && Matches(r, o)
    ensures KeyOf(r, o) in RowsAfter(d, o, rules)
    ensures Previous(RowsAfter(d, o, rules), KeyOf(r, o)) == o.percent
    decreases |rules|
  {
    var next := Visited(d, o, rules[0]);
    if r in rules[1..] {
      RowsPrevious(next, o, rules[1..], r);
    } else {
      PreviousStays(next, o, rules[1..], KeyOf(r, o));
    }
  }

  lemma {:induction false} PreviousStays(d: Dedup, o: Observation, rules: seq<AlertRule>, k: DayKey)
    requires k in d && d[k].previous == o.percent
    ensures k in RowsAfter(d, o, rules) && RowsAfter(d, o, rules)[k].previous == o.percent
    decreases |rules|
  {
    if rules != [] { PreviousStays(Visited(d, o, rules[0]), o, rules[1..], k); }
  }

  lemma {:induction false} StaleSendsNothing(d: Dedup, o: Observation, rules: seq<AlertRule>, k: DayKey)
    requires !o.recent
    ensures SentAt(RowsAfter(d, o, rules), k) == SentAt(d, k) && Raised(d, o, rules) == []
    decreases |rules|
  {
    if rules != [] { StaleSendsNothing(Visited(d, o, rules[0]), o, rules[1..], k); }
  }

  lemma {:induction false} SentAgree(d: Dedup, previous: real, sent: set<SentKey>, o: Observation,
                                     rules: seq<AlertRule>, r: AlertRule)
    requires o.recent && DistinctIds(rules) && r in rules && Matches(r, o) && Alike(d, previous, sent, r, o)
    ensures SentAt(RowsAfter(d, o, rules), KeyOf(r, o)).Some? <==>
      SentKey(o.day, r.id) in SentAfter(sent, previous, o, rules)
    decreases |rules|
  {
    var q, rest := rules[0], rules[1..];
    var next := Visited(d, o, q);
    var more := if FiresInMemory(sent, previous, o, q) then sent + {SentKey(o.day, q.id)} else sent;
    if q == r {
      OtherRowsStay(next, o, rest, KeyOf(r, o));
      SentStays(more, previous, o, rest, SentKey(o.day, r.id));
    } else {
      assert r in rest && q.id != r.id;
      SentAgree(next, previous, more, o, rest, r);
    }
  }

  lemma {:induction false} SentStays(sent: set<SentKey>, previous: real, o: Observation, rules: seq<AlertRule>,
                                     k: SentKey)
    requires k.day != o.day || forall r :: r in rules && Matches(r, o) ==> r.id != k.rule
    ensures k in SentAfter(sent, previous, o, rules) <==> k in sent
    decreases |rules|
  {
    if rules != [] {
      SentStays(if FiresInMemory(sent, previous, o, rules[0]) then sent + {SentKey(o.day, rules[0].id)} else sent,
                previous, o, rules[1..], k);
    }
  }

  /** No two rules share an identifier. */
  ghost predicate UniqueIds(rules: seq<AlertRule>) {
    forall r, q :: r in rules && q in rules && r.id == q.id ==> r == q && multiset(rules)[r] == 1
  }

  lemma UniqueMeansDistinct(rules: seq<AlertRule>)
    requires UniqueIds(rules)
    ensures DistinctIds(rules)
  {
    forall i, j | 0 <= i < j < |rules| ensures rules[i].id != rules[j].id {
      var r: AlertRule := rules[j];
      assert rules == rules[..j] + rules[j..];
      assert rules[i] in rules[..j] && r in rules[j..];
      assert multiset(rules)[r] == multiset(rules[..j])[r] + multiset(rules[j..])[r];
    }
  }

  lemma SortedIsDistinct(rules: seq<AlertRule>)
    requires UniqueIds(rules)
    ensures DistinctIds(ByThreshold(rules)) && forall r :: r in ByThreshold(rules) <==> r in rules
  {
    SortKeepsMembers(rules);
    UniqueAfterSort(rules, ByThreshold(rules));
    UniqueMeansDistinct(ByThreshold(rules));
  }

  lemma UniqueAfterSort(rules: seq<AlertRule>, sorted: seq<AlertRule>)
    requires UniqueIds(rules) && multiset(sorted) == multiset(rules) && forall r :: r in sorted <==> r in rules
    ensures UniqueIds(sorted)
  {
  }

  /** An observation that feeds the rule on this day leaves both evaluators agreeing about it. */
  lemma FedAgrees(d: Dedup, m: Memory, rules: seq<AlertRule>, seen: Observation, r: AlertRule, o: Observation)
    requires UniqueIds(rules) && r in rules && Matches(r, seen) && AgreeOn(d, Recalled(m, seen), m.sent, r, seen)
    requires Matches(r, o) && o.day == seen.day && o.project == seen.project
    ensures AgreeOn(RowsAfter(d, seen, ByThreshold(rules)), Recalled(MemoryAfter(m, seen, rules), o),
                    MemoryAfter(m, seen, rules).sent, r, o)
  {
    SortedIsDistinct(rules);
    RowsPrevious(d, seen, ByThreshold(rules), r);
    if seen.recent {
      SentAgree(d, Recalled(m, seen), m.sent, seen, ByThreshold(rules), r);
    } else {
      StaleSendsNothing(d, seen, ByThreshold(rules), KeyOf(r, seen));
    }
  }

  /** And one that does not feed it changes nothing about it. */
  lemma UnfedAgrees(d: Dedup, m: Memory, rules: seq<AlertRule>, seen: Observation, r: AlertRule, o: Observation)
    requires UniqueIds(rules) && r in rules && !(Matches(r, seen) && o.day == seen.day)
    requires AgreeOn(d, Recalled(m, o), m.sent, r, o)
    ensures AgreeOn(RowsAfter(d, seen, ByThreshold(rules)), Recalled(MemoryAfter(m, seen, rules), o),
                    MemoryAfter(m, seen, rules).sent, r, o)
  {
    if Matches(r, o) {
      SortedIsDistinct(rules);
      OtherRowsStay(d, seen, ByThreshold(rules), KeyOf(r, o));
      SentStays(m.sent, Recalled(m, seen), seen, ByThreshold(rules), SentKey(o.day, r.id));
      assert StreamOf(o) != StreamOf(seen);
    }
  }

  lemma AgreementStays(d: Dedup, m: Memory, rules: seq<AlertRule>, seen: Observation, all: seq<Observation>)
    requires UniqueIds(rules) && OneStream(rules, all) && seen in all && AgreeOnAll(d, m, rules, all)
    ensures AgreeOnAll(RowsAfter(d, seen, ByThreshold(rules)), MemoryAfter(m, seen, rules), rules, all)
  {
    forall r, o | r in rules && o in all
      ensures AgreeOn(RowsAfter(d, seen, ByThreshold(rules)), Recalled(MemoryAfter(m, seen, rules), o),
                      MemoryAfter(m, seen, rules).sent, r, o)
    {
      assert AgreeOn(d, Recalled(m, o), m.sent, r, o) && AgreeOn(d, Recalled(m, seen), m.sent, r, seen);
      if Matches(r, seen) && o.day == seen.day {
        if Matches(r, o) { FedAgrees(d, m, rules, seen, r, o); }
      } else {
        UnfedAgrees(d, m, rules, seen, r, o);
      }
    }
  }

  lemma {:induction false} StatesAgree(rules: seq<AlertRule>, seen: seq<Observation>, all: seq<Observation>)
    requires UniqueIds(rules) && OneStream(rules, all) && forall o :: o in seen ==> o in all
    ensures AgreeOnAll(RowsOver(rules, seen), MemoryOver(rules, seen), rules, all)
    decreases |seen|
  {
    if seen != [] {
      var before, last := seen[..|seen| - 1], seen[|seen| - 1];
      StatesAgree(rules, before, all);
      AgreementStays(RowsOver(rules, before), MemoryOver(rules, before), rules, last, all);
    }
  }

  /** With a fixed list of rules, unique identifiers and one stream per rule and day, both evaluators raise the same
      alerts in the same order, over any history. */
  lemma {:induction false} EvaluatorsAgree(rules: seq<AlertRule>, seen: seq<Observation>)
    requires UniqueIds(rules) && OneStream(rules, seen)
    ensures RaisedOver(rules, seen) == RaisedInMemoryOver(rules, seen)
    decreases |seen|
  {
    if seen != [] {
      var before, last := seen[..|seen| - 1], seen[|seen| - 1];
      EvaluatorsAgree(rules, before);
      StatesAgree(rules, before, seen);
      AgreeNow(rules, RowsOver(rules, before), MemoryOver(rules, before), last, seen);
    }
  }

  lemma AgreeNow(rules: seq<AlertRule>, d: Dedup, m: Memory, o: Observation, all: seq<Observation>)
    requires UniqueIds(rules) && AgreeOnAll(d, m, rules, all) && o in all
    ensures Raised(d, o, ByThreshold(rules)) == EventsInMemory(m, o, rules)
  {
    SortedIsDistinct(rules);
    if o.recent {
      forall r | r in ByThreshold(rules) ensures Alike(d, Recalled(m, o), m.sent, r, o) {
        assert r in rules && AgreeOn(d, Recalled(m, o), m.sent, r, o);
      }
      SameEvents(d, Recalled(m, o), m.sent, o, ByThreshold(rules));
    } else {
      StaleSendsNothing(d, o, ByThreshold(rules), DayKey("", "", 0));
    }
  }

  // ---------------------------------------------------------------- exactly when they agree

  predicate Feeds(r: AlertRule, k: StreamKey) {
    r.enabled && r.profile == k.profile && r.group == k.group && (r.project == "all" || r.project == k.project)
  }

  ghost predicate DrawnFrom(seen: seq<Observation>, streams: set<StreamKey>) {
    forall o :: o in seen ==> StreamOf(o) in streams
  }

  /** No rule is fed by two of the streams on one day. */
  ghost predicate FedOnce(rules: seq<AlertRule>, streams: set<StreamKey>) {
    forall r, a, b :: r in rules && a in streams && b in streams && Feeds(r, a) && Feeds(r, b) && a.day == b.day ==>
      a == b
  }

  /** Over some streams the two evaluators raise the same alerts in the same order on every history if and only if no
      rule is fed by two of the streams on one day. */
  lemma AgreementIsExact(rules: seq<AlertRule>, streams: set<StreamKey>)
    requires UniqueIds(rules)
    ensures (forall seen :: DrawnFrom(seen, streams) ==> RaisedOver(rules, seen) == RaisedInMemoryOver(rules, seen))
       <==> FedOnce(rules, streams)
  {
    if FedOnce(rules, streams) {
      forall seen | DrawnFrom(seen, streams) ensures RaisedOver(rules, seen) == RaisedInMemoryOver(rules, seen) {
        DrawnIsOneStream(rules, streams, seen);
        EvaluatorsAgree(rules, seen);
      }
    } else {
      var r, a, b :| r in rules && a in streams && b in streams && Feeds(r, a) && Feeds(r, b) &&
                       a.day == b.day && a != b;
      var x := Observed(a.profile, a.group, a.project, a.day, 100.0, 0, false);
      var y := Observed(b.profile, b.group, b.project, b.day, 100.0, 0, true);
      assert DrawnFrom([x, y], streams);
      SeveralProjectsDisagree(rules, r, x, y);
    }
  }

  lemma DrawnIsOneStream(rules: seq<AlertRule>, streams: set<StreamKey>, seen: seq<Observation>)
    requires FedOnce(rules, streams) && DrawnFrom(seen, streams)
    ensures OneStream(rules, seen)
  {
    forall r, o, p | r in rules && o in seen && p in seen && Matches(r, o) && Matches(r, p) && o.day == p.day
      ensures o.project == p.project
    {
      assert Feeds(r, StreamOf(o)) && Feeds(r, StreamOf(p));
    }
  }

  /** Two projects feed a rule on one day; the first observation is stale, the second fresh, and both reach the
      threshold. Only the evaluator in memory alerts: the persistent one already remembers the other project's usage. */
  lemma SeveralProjectsDisagree(rules: seq<AlertRule>, r: AlertRule, a: Observation, b: Observation)
    requires UniqueIds(rules) && r in rules && Matches(r, a) && Matches(r, b) && a.day == b.day
    requires a.project != b.project
    requires !a.recent && b.recent && a.percent >= r.threshold && b.percent >= r.threshold
    ensures CountOf(RaisedOver(rules, [a, b]), r.id) == 0 < CountOf(RaisedInMemoryOver(rules, [a, b]), r.id)
    ensures RaisedOver(rules, [a, b]) != RaisedInMemoryOver(rules, [a, b])
  {
    var sorted := ByThreshold(rules);
    NoTwin(rules, r);
    OnlyInMemory(sorted, r, a, b);
    StaleThenFresh(rules, a, b);
    OnlyOneSideRaises(Raised(RowsAfter(map[], a, sorted), b, sorted), RaisedInMemory({}, 0.0, b, sorted), r.id);
  }

  lemma NoTwin(rules: seq<AlertRule>, r: AlertRule)
    requires UniqueIds(rules) && r in rules
    ensures r in ByThreshold(rules) && forall q :: q in ByThreshold(rules) && q.id == r.id ==> q == r
  {
    SortKeepsMembers(rules);
    NoTwinAmong(rules, ByThreshold(rules), r);
  }

  lemma NoTwinAmong(rules: seq<AlertRule>, others: seq<AlertRule>, r: AlertRule)
    requires UniqueIds(rules) && r in rules && forall q :: q in others ==> q in rules
    ensures forall q :: q in others && q.id == r.id ==> q == r
  {
    forall q | q in others && q.id == r.id ensures q == r { assert q in rules; }
  }

  /** What both evaluators raise on a stale observation followed by a fresh one of another project. */
  lemma StaleThenFresh(rules: seq<AlertRule>, a: Observation, b: Observation)
    requires !a.recent && b.recent && a.project != b.project
    ensures RaisedOver(rules, [a, b]) == Raised(RowsAfter(map[], a, ByThreshold(rules)), b, ByThreshold(rules))
    ensures RaisedInMemoryOver(rules, [a, b]) == RaisedInMemory({}, 0.0, b, ByThreshold(rules))
  {
    OverTwo(rules, a, b);
    MemoryOfTwo(rules, a, b);
    StaleSendsNothing(map[], a, ByThreshold(rules), DayKey("", "", 0));
  }

  lemma OnlyOneSideRaises(persistent: seq<Event>, memory: seq<Event>, id: string)
    requires CountOf(persistent, id) == 0 < CountOf(memory, id)
    ensures persistent != memory
  {
  }

  lemma MemoryOfTwo(rules: seq<AlertRule>, a: Observation, b: Observation)
    requires !a.recent && b.recent && a.project != b.project
    ensures EventsInMemory(Memory(map[], {}), a, rules) == []
    ensures EventsInMemory(MemoryAfter(Memory(map[], {}), a, rules), b, rules) ==
      RaisedInMemory({}, 0.0, b, ByThreshold(rules))
  {
    assert StreamOf(a) != StreamOf(b);
  }

  lemma OverTwo(rules: seq<AlertRule>, a: Observation, b: Observation)
    ensures RaisedOver(rules, [a, b]) ==
            Raised(map[], a, ByThreshold(rules)) +
            Raised(RowsAfter(map[], a, ByThreshold(rules)), b, ByThreshold(rules))
    ensures RaisedInMemoryOver(rules, [a, b]) ==
            EventsInMemory(Memory(map[], {}), a, rules) +
            EventsInMemory(MemoryAfter(Memory(map[], {}), a, rules), b, rules)
  {
    OverOne(rules, a);
    assert [a, b][..1] == [a];
  }

  lemma OverOne(rules: seq<AlertRule>, a: Observation)
    ensures RaisedOver(rules, [a]) == Raised(map[], a, ByThreshold(rules))
    ensures RowsOver(rules, [a]) == RowsAfter(map[], a, ByThreshold(rules))
    ensures RaisedInMemoryOver(rules, [a]) == EventsInMemory(Memory(map[], {}), a, rules)
    ensures MemoryOver(rules, [a]) == MemoryAfter(Memory(map[], {}), a, rules)
  {
    assert [a][..0] == [];
    assert RaisedOver(rules, []) == [] && RaisedInMemoryOver(rules, []) == [];
    assert RowsOver(rules, []) == map[] && MemoryOver(rules, []) == Memory(map[], {});
  }

  lemma OnlyInMemory(sorted: seq<AlertRule>, r: AlertRule, a: Observation, b: Observation)
    requires r in sorted && (forall q :: q in sorted && q.id == r.id ==> q == r)
    requires Matches(r, a) && Matches(r, b) && a.day == b.day && a.project != b.project
    requires !a.recent && b.recent && a.percent >= r.threshold && b.percent >= r.threshold
    ensures Raised(map[], a, sorted) == [] && CountOf(Raised(RowsAfter(map[], a, sorted), b, sorted), r.id) == 0
    ensures CountOf(RaisedInMemory({}, 0.0, b, sorted), r.id) > 0
  {
    StaleSendsNothing(map[], a, sorted, KeyOf(r, a));
    RowsPrevious(map[], a, sorted, r);
    RememberedTooHigh(RowsAfter(map[], a, sorted), b, sorted, r);
    FirstOfItsStream({}, 0.0, b, sorted, r);
  }

  lemma {:induction false} RememberedTooHigh(d: Dedup, o: Observation, rules: seq<AlertRule>, r: AlertRule)
    requires Previous(d, KeyOf(r, o)) >= r.threshold && o.percent >= r.threshold && Matches(r, o)
    requires forall q :: q in rules && q.id == r.id ==> q == r
    ensures CountOf(Raised(d, o, rules), r.id) == 0
    decreases |rules|
  {
    if rules != [] {
      CountSplits(FiredBy(d, o, rules[0]), Raised(Visited(d, o, rules[0]), o, rules[1..]), r.id);
      RememberedTooHigh(Visited(d, o, rules[0]), o, rules[1..], r);
    }
  }

  lemma {:induction false} FirstOfItsStream(sent: set<SentKey>, previous: real, o: Observation, rules: seq<AlertRule>,
                                            r: AlertRule)
    requires r in rules && Matches(r, o) && SentKey(o.day, r.id) !in sent && previous < r.threshold <= o.percent
    requires forall q :: q in rules && q.id == r.id ==> q == r
    ensures CountOf(RaisedInMemory(sent, previous, o, rules), r.id) > 0
    decreases |rules|
  {
    var q, rest := rules[0], rules[1..];
    if FiresInMemory(sent, previous, o, q) {
      CountSplits([EventOf(q, o)], RaisedInMemory(sent + {SentKey(o.day, q.id)}, previous, o, rest), r.id);
      if q != r { FirstOfItsStream(sent + {SentKey(o.day, q.id)}, previous, o, rest, r); }
    } else {
      FirstOfItsStream(sent, previous, o, rest, r);
    }
  }

  // ---------------------------------------------------------------- fresh observations only

  /** Nothing that either evaluator remembers of an unsent rule has reached its threshold. */
  ghost predicate BothBelow(d: Dedup, m: Memory, r: AlertRule, o: Observation) {
    Matches(r, o) ==>
      && (SentAt(d, KeyOf(r, o)).Some? <==> SentKey(o.day, r.id) in m.sent)
      && (SentAt(d, KeyOf(r, o)).None? ==> Previous(d, KeyOf(r, o)) < r.threshold && Recalled(m, o) < r.threshold)
  }

  ghost predicate AllBelow(d: Dedup, m: Memory, rules: seq<AlertRule>, all: seq<Observation>) {
    forall r, o :: r in rules && o in all ==> BothBelow(d, m, r, o)
  }

  lemma UniqueIsOnlyOne(rules: seq<AlertRule>, r: AlertRule)
    requires UniqueIds(rules) && r in rules
    ensures OnlyOne(ByThreshold(rules), r)
  {
    SortKeepsMembers(rules);
    assert multiset(ByThreshold(rules))[r] == multiset(rules)[r] == 1;
  }

  lemma FreshFedStaysBelow(d: Dedup, m: Memory, rules: seq<AlertRule>, seen: Observation, r: AlertRule, o: Observation)
    requires UniqueIds(rules) && r in rules && seen.recent && Matches(r, seen) && Matches(r, o) && o.day == seen.day
    requires BothBelow(d, m, r, seen) && BothBelow(d, m, r, o)
    ensures BothBelow(RowsAfter(d, seen, ByThreshold(rules)), MemoryAfter(m, seen, rules), r, o)
  {
    SortedIsDistinct(rules);
    UniqueIsOnlyOne(rules, r);
    AloneInTable(d, seen, ByThreshold(rules), r);
    SentAgree(d, Recalled(m, seen), m.sent, seen, ByThreshold(rules), r);
  }

  lemma FreshUnfedStaysBelow(d: Dedup, m: Memory, rules: seq<AlertRule>, seen: Observation, r: AlertRule,
                             o: Observation)
    requires UniqueIds(rules) && r in rules && !(Matches(r, seen) && o.day == seen.day) && BothBelow(d, m, r, o)
    ensures BothBelow(RowsAfter(d, seen, ByThreshold(rules)), MemoryAfter(m, seen, rules), r, o)
  {
    if Matches(r, o) {
      SortedIsDistinct(rules);
      OtherRowsStay(d, seen, ByThreshold(rules), KeyOf(r, o));
      SentStays(m.sent, Recalled(m, seen), seen, ByThreshold(rules), SentKey(o.day, r.id));
      assert StreamOf(o) != StreamOf(seen);
    }
  }

  lemma FreshStaysBelow(d: Dedup, m: Memory, rules: seq<AlertRule>, seen: Observation, all: seq<Observation>)
    requires UniqueIds(rules) && seen.recent && seen in all && AllBelow(d, m, rules, all)
    ensures AllBelow(RowsAfter(d, seen, ByThreshold(rules)), MemoryAfter(m, seen, rules), rules, all)
  {
    forall r, o | r in rules && o in all
      ensures BothBelow(RowsAfter(d, seen, ByThreshold(rules)), MemoryAfter(m, seen, rules), r, o)
    {
      assert BothBelow(d, m, r, o) && BothBelow(d, m, r, seen);
      if Matches(r, seen) && o.day == seen.day {
        if Matches(r, o) { FreshFedStaysBelow(d, m, rules, seen, r, o); }
      } else {
        FreshUnfedStaysBelow(d, m, rules, seen, r, o);
      }
    }
  }

  /** As long as all observations are fresh, the evaluators agree however many projects feed a rule. */
  lemma {:induction false} FreshEvaluatorsAgree(rules: seq<AlertRule>, seen: seq<Observation>, all: seq<Observation>)
    requires UniqueIds(rules) && (forall o :: o in seen ==> o.recent && o in all)
    ensures RaisedOver(rules, seen) == RaisedInMemoryOver(rules, seen)
    ensures AllBelow(RowsOver(rules, seen), MemoryOver(rules, seen), rules, all)
    decreases |seen|
  {
    if seen != [] {
      var before, last := seen[..|seen| - 1], seen[|seen| - 1];
      FreshEvaluatorsAgree(rules, before, all);
      var d, m := RowsOver(rules, before), MemoryOver(rules, before);
      SortedIsDistinct(rules);
      forall r | r in ByThreshold(rules) ensures Alike(d, Recalled(m, last), m.sent, r, last) {
        assert r in rules && BothBelow(d, m, r, last);
      }
      SameEvents(d, Recalled(m, last), m.sent, last, ByThreshold(rules));
      FreshStaysBelow(d, m, rules, last, all);
    }
  }
}
