/**
 * The persisted rows of the fitness database and the store that holds them.
 *
 * `Database.committed` is what a new session sees. A request handler copies it
 * into a local `Tables` value (its session), stages writes there, and makes them
 * durable by assigning the copy back (a commit); dropping the copy is a rollback.
 * Row ids come from one counter, `nextId`, which a rollback restores with the rest.
 */
module Entities {
  import opened Wrappers

  datatype User = User(
    name: string, email: Option<string>, age: Option<int>, gender: Option<string>,
    fitnessLevel: Option<string>, goals: Option<string>, createdAt: int)

  datatype ExerciseType = ExerciseType(
    name: string, primaryMuscle: Option<string>, equipmentNeeded: Option<bool>,
    defaultSets: int, defaultReps: int, notes: Option<string>)

  datatype Plan = Plan(
    userId: int, title: string, description: Option<string>, totalDays: int,
    isActive: bool, createdAt: int)

  datatype PlanDay = PlanDay(planId: nat, dayNumber: int, title: Option<string>, restDay: bool)

  datatype ExerciseInstance = ExerciseInstance(
    planDayId: nat, exerciseTypeId: nat, orderIndex: nat,
    targetSets: int, targetReps: int, currentSets: Option<int>, currentReps: Option<int>,
    restSeconds: Option<int>, notes: Option<string>, lastRpe: Option<real>, lastUpdated: Option<int>)

  datatype SessionReport = SessionReport(
    userId: nat, planId: nat, instanceId: nat, date: int, rpe: real,
    repsCompleted: int, setsCompleted: int, success: bool, durationSeconds: Option<int>)

  /** All tables of the database, keyed by row id. */
  datatype Tables = Tables(
    users: map<nat, User>,
    exerciseTypes: map<nat, ExerciseType>,
    plans: map<nat, Plan>,
    planDays: map<nat, PlanDay>,
    instances: map<nat, ExerciseInstance>,
    reports: map<nat, SessionReport>,
    nextId: nat)
  {
    /** The ids of all rows. */
    function Ids(): set<nat> {
      users.Keys + exerciseTypes.Keys + plans.Keys + planDays.Keys + instances.Keys + reports.Keys
    }

    /** Every row id in use is below the id counter, so `nextId` is always fresh. */
    ghost predicate Valid() {
      forall k :: k in Ids() ==> k < nextId
    }
  }

  const EmptyTables := Tables(map[], map[], map[], map[], map[], map[], 1)

  /** The durable state of the database. */
  class Database {
    var committed: Tables

    constructor ()
      ensures committed == EmptyTables
    {
      committed := EmptyTables;
    }
  }

  /** `session.get(User, user_id)`: store ids are natural numbers, so a negative id finds nothing. */
  function FindUser(t: Tables, userId: int): (r: Option<User>)
    ensures r.Some? <==> 0 <= userId && userId as nat in t.users
    ensures r.Some? ==> r.value == t.users[userId as nat]
  {
    if 0 <= userId && userId as nat in t.users then Some(t.users[userId as nat]) else None
  }

  /** `session.get(Plan, plan_id)`. */
  function FindPlan(t: Tables, planId: int): (r: Option<Plan>)
    ensures r.Some? <==> 0 <= planId && planId as nat in t.plans
    ensures r.Some? ==> r.value == t.plans[planId as nat]
  {
    if 0 <= planId && planId as nat in t.plans then Some(t.plans[planId as nat]) else None
  }

  /** `a` is contained in `b`, row for row. */
  ghost predicate SubMap<K, V>(a: map<K, V>, b: map<K, V>) {
    forall k :: k in a ==> k in b && b[k] == a[k]
  }

  /** No id occurs twice. */
  predicate Distinct(s: seq<nat>) {
    forall i, j :: 0 <= i < j < |s| ==> s[i] != s[j]
  }

  function Elems(s: seq<nat>): (r: set<nat>)
    ensures forall x :: x in r <==> x in s
  {
    set x | x in s
  }

  /** The concatenation of `ss`, in order. */
  function Flatten(ss: seq<seq<nat>>): (r: seq<nat>)
    ensures ss == [] ==> r == []
  {
    if ss == [] then [] else Flatten(ss[..|ss| - 1]) + ss[|ss| - 1]
  }

  /** The instance `id` exists and sits on a day of plan `planId` (the join of the report coordinator). */
  predicate InstanceInPlan(t: Tables, id: nat, planId: nat) {
    && id in t.instances
    && t.instances[id].planDayId in t.planDays
    && t.planDays[t.instances[id].planDayId].planId == planId
  }

  /**
   * Every reference between rows resolves: a day's plan, an instance's day,
   * and a report's plan and its instance, which sits on a day of that plan.
   */
  ghost predicate Linked(t: Tables) {
    && (forall d :: d in t.planDays ==> t.planDays[d].planId in t.plans)
    && (forall i :: i in t.instances ==> t.instances[i].planDayId in t.planDays)
    && (forall r :: r in t.reports ==>
          t.reports[r].planId in t.plans && InstanceInPlan(t, t.reports[r].instanceId, t.reports[r].planId))
  }

  /** The `date` column of the reports, as a sort key. */
  function ReportDates(t: Tables): (key: map<nat, int>)
    ensures key.Keys == t.reports.Keys
    ensures forall k :: k in key ==> key[k] == t.reports[k].date
  {
    map k | k in t.reports :: t.reports[k].date
  }

  /** `r` lists distinct ids in descending order of `key`. */
  ghost predicate SortedDesc(r: seq<nat>, key: map<nat, int>) {
    && (forall i :: 0 <= i < |r| ==> r[i] in key)
    && (forall i, j :: 0 <= i < j < |r| ==> r[i] != r[j] && key[r[j]] <= key[r[i]])
  }

  /**
   * `r` is what `ORDER BY key DESC LIMIT limit` returns from the rows `s`: the
   * first `min(limit, |s|)` rows in descending key order, every row left out
   * being no greater than every row returned. Ties are returned in any order.
   */
  ghost predicate TopByKey(s: set<nat>, key: map<nat, int>, limit: nat, r: seq<nat>) {
    && s <= key.Keys
    && |r| == (if limit <= |s| then limit else |s|)
    && (forall i :: 0 <= i < |r| ==> r[i] in s)
    && SortedDesc(r, key)
    && (forall x, i :: x in s && x !in r && 0 <= i < |r| ==> key[x] <= key[r[i]])
  }

  /** The first `m` rows of an ordered query are what the same query limited to `m` returns. */
  lemma TopPrefix(s: set<nat>, key: map<nat, int>, limit: nat, r: seq<nat>, m: nat)
    requires TopByKey(s, key, limit, r)
    requires m <= |r|
    ensures TopByKey(s, key, m, r[..m])
  {
    var p := r[..m];
    forall x, i | x in s && x !in p && 0 <= i < |p|
      ensures key[x] <= key[p[i]]
    {
      if j :| 0 <= j < |r| && r[j] == x {
        assert m <= j;
      }
    }
  }

  /** Some element of a non-empty finite set has the greatest key. */
  lemma {:induction false} GreatestExists(s: set<nat>, key: map<nat, int>)
    requires s != {} && s <= key.Keys
    ensures exists x :: x in s && forall y :: y in s ==> key[y] <= key[x]
    decreases |s|
  {
    var z :| z in s;
    if s != {z} {
      var rest := s - {z};
      GreatestExists(rest, key);
      var x :| x in rest && forall y :: y in rest ==> key[y] <= key[x];
      if key[z] <= key[x] {
        assert forall y :: y in s ==> key[y] <= key[x];
      } else {
        assert forall y :: y in s ==> key[y] <= key[z];
      }
    }
  }

  /**
   * The store's ordered, limited range query over the rows `s`, picking the
   * greatest remaining key each time.
   */
  method SelectTopByKey(s: set<nat>, key: map<nat, int>, limit: nat) returns (r: seq<nat>)
    requires s <= key.Keys
    ensures TopByKey(s, key, limit, r)
  {
    r := [];
    var rest := s;
    while |r| < limit && rest != {}
      invariant rest <= s
      invariant |r| + |rest| == |s|
      invariant |r| <= limit
      invariant forall i :: 0 <= i < |r| ==> r[i] in s && r[i] !in rest
      invariant forall x :: x in s && x !in rest ==> x in r
      invariant SortedDesc(r, key)
      invariant forall x, i :: x in rest && 0 <= i < |r| ==> key[x] <= key[r[i]]
      decreases |rest|
    {
      GreatestExists(rest, key);
      var x :| x in rest && forall y :: y in rest ==> key[y] <= key[x];
      r := r + [x];
      rest := rest - {x};
    }
  }
}
