/**
 * `report_workout_session`: a batch of session reports for one plan. Every
 * entry is checked and staged in one session that is committed once, after
 * the last entry, so a batch is recorded whole or not at all. Each entry adds
 * a report row and sets its instance's latest exertion; one adjustment is
 * scheduled per entry.
 */
module Reporting {
  import opened Wrappers
  import opened Entities
  import opened Validators
  import opened Adjustment
  import opened Engine

  /** The instance `id` (a request value, possibly negative) exists and sits on a day of plan `planId`. */
  predicate InPlan(t: Tables, id: int, planId: nat) {
    0 <= id && InstanceInPlan(t, id as nat, planId)
  }

  /** The report row an entry becomes, dated `now`. */
  function ReportRow(userId: nat, planId: nat, e: ReportInput, now: int): SessionReport
    requires 0 <= e.instanceId
  {
    SessionReport(userId, planId, e.instanceId as nat, now, e.rpe, e.repsCompleted, e.setsCompleted,
                  e.success, e.durationSeconds)
  }

  /** `b` has the days of `a` and the same instances, each on the same day. */
  ghost predicate SameLayout(a: Tables, b: Tables) {
    && a.planDays == b.planDays && a.instances.Keys == b.instances.Keys
    && forall k :: k in a.instances ==> b.instances[k].planDayId == a.instances[k].planDayId
  }

  /** An instance named by an entry: its latest exertion is the entry's, updated at `now`. */
  function Touch(i: ExerciseInstance, rpe: real, now: int): ExerciseInstance {
    i.(lastRpe := Some(rpe), lastUpdated := Some(now))
  }

  /** The instances after one entry: the one it names, when there is one, is touched. */
  function TouchAt(m: map<nat, ExerciseInstance>, id: int, rpe: real, now: int): map<nat, ExerciseInstance> {
    if 0 <= id && id as nat in m then m[id as nat := Touch(m[id as nat], rpe, now)] else m
  }

  /** The instances after the first `n` entries of `batch`: the same rows on the same days. */
  function InstancesAfter(m: map<nat, ExerciseInstance>, batch: seq<ReportInput>, n: nat, now: int)
    : (r: map<nat, ExerciseInstance>)
    requires n <= |batch|
    ensures r.Keys == m.Keys
    ensures forall k :: k in m ==> r[k].planDayId == m[k].planDayId
  {
    if n == 0 then m
    else TouchAt(InstancesAfter(m, batch, n - 1, now), batch[n - 1].instanceId, batch[n - 1].rpe, now)
  }

  /** The first `n` entries of `batch` name an instance id that can exist. */
  predicate KnownIds(batch: seq<ReportInput>, n: nat) {
    forall j :: 0 <= j < n && j < |batch| ==> 0 <= batch[j].instanceId
  }

  /** The report rows after the first `n` entries of `batch`, the `j`-th under id `start + j`. */
  function ReportsAfter(reports: map<nat, SessionReport>, start: nat, userId: nat, planId: nat,
                        batch: seq<ReportInput>, n: nat, now: int): map<nat, SessionReport>
    requires n <= |batch| && KnownIds(batch, n)
  {
    if n == 0 then reports
    else ReportsAfter(reports, start, userId, planId, batch, n - 1, now)[start + n - 1 := ReportRow(userId, planId, batch[n - 1], now)]
  }

  /** The first `n` entries of `batch` name instances of the plan. */
  predicate AllInPlan(t: Tables, batch: seq<ReportInput>, n: nat, planId: nat) {
    forall j :: 0 <= j < n && j < |batch| ==> InPlan(t, batch[j].instanceId, planId)
  }

  /**
   * The session after staging the first `n` entries of `batch`, in order: a
   * report row per entry and the exertion of the instances they name. The
   * layout and every other table are untouched.
   */
  function AfterBatch(t: Tables, userId: nat, planId: nat, batch: seq<ReportInput>, n: nat, now: int): (r: Tables)
    requires n <= |batch| && AllInPlan(t, batch, n, planId)
    ensures SameLayout(t, r)
    ensures r.users == t.users && r.plans == t.plans && r.exerciseTypes == t.exerciseTypes
    ensures r.nextId == t.nextId + n
  {
    t.(reports := ReportsAfter(t.reports, t.nextId, userId, planId, batch, n, now),
       instances := InstancesAfter(t.instances, batch, n, now),
       nextId := t.nextId + n)
  }

  /** One entry staged in the session: its report row under the next id, and its instance touched. */
  function Stage(s: Tables, userId: nat, planId: nat, e: ReportInput, now: int): (r: Tables)
    requires 0 <= e.instanceId
    ensures r.reports.Keys == s.reports.Keys + {s.nextId} && r.nextId == s.nextId + 1
    ensures forall k :: k in s.reports && k != s.nextId ==> r.reports[k] == s.reports[k]
    ensures r.instances.Keys == s.instances.Keys
    ensures forall k :: k in s.instances && k != e.instanceId as nat ==> r.instances[k] == s.instances[k]
    ensures r.users == s.users && r.plans == s.plans && r.planDays == s.planDays && r.exerciseTypes == s.exerciseTypes
  {
    s.(reports := s.reports[s.nextId := ReportRow(userId, planId, e, now)],
       instances := TouchAt(s.instances, e.instanceId, e.rpe, now),
       nextId := s.nextId + 1)
  }

  /** Staging one more entry of the plan extends the staged batch by that entry. */
  lemma StageOne(t: Tables, userId: nat, planId: nat, batch: seq<ReportInput>, n: nat, now: int)
    requires n < |batch| && AllInPlan(t, batch, n + 1, planId)
    ensures AfterBatch(t, userId, planId, batch, n + 1, now) ==
            Stage(AfterBatch(t, userId, planId, batch, n, now), userId, planId, batch[n], now)
  {
  }

  /** The position of the first entry whose instance is not in the plan, if any. */
  function FirstMissing(t: Tables, batch: seq<ReportInput>, planId: nat): (r: Option<nat>)
    ensures r.None? <==> AllInPlan(t, batch, |batch|, planId)
    ensures r.Some? ==> r.value < |batch| && !InPlan(t, batch[r.value].instanceId, planId)
    ensures r.Some? ==> AllInPlan(t, batch, r.value, planId)
  {
    if batch == [] then None
    else if !InPlan(t, batch[0].instanceId, planId) then Some(0)
    else match FirstMissing(t, batch[1..], planId)
      case None => None
      case Some(j) => Some(j + 1)
  }

  /** The first entry not in the plan, after entries that all are, is the first missing one. */
  lemma FirstMissingIs(t: Tables, batch: seq<ReportInput>, planId: nat, j: nat)
    requires j < |batch| && !InPlan(t, batch[j].instanceId, planId)
    requires AllInPlan(t, batch, j, planId)
    ensures FirstMissing(t, batch, planId) == Some(j)
  {
    var r := FirstMissing(t, batch, planId);
    assert !(r.value < j);
  }

  /** Some of the first `n` entries names instance `x`. */
  predicate Names(batch: seq<ReportInput>, n: nat, x: nat) {
    exists j :: 0 <= j < n && j < |batch| && batch[j].instanceId == x
  }

  /**
   * The exertion an instance carries after the first `n` entries: that of the
   * last of them naming it, or `prior` when none does.
   */
  function LastRpeFor(batch: seq<ReportInput>, n: nat, x: nat, prior: Option<real>): (r: Option<real>)
    requires n <= |batch|
    ensures !Names(batch, n, x) ==> r == prior
    ensures Names(batch, n, x) ==>
      exists j :: 0 <= j < n && batch[j].instanceId == x && r == Some(batch[j].rpe) &&
        forall k :: j < k < n ==> batch[k].instanceId != x
  {
    if n == 0 then prior
    else if batch[n - 1].instanceId == x then Some(batch[n - 1].rpe)
    else LastRpeFor(batch, n - 1, x, prior)
  }

  /** The report rows after a batch: the earlier ones, and one per entry under consecutive fresh ids. */
  lemma {:induction false} RowsAdded(reports: map<nat, SessionReport>, start: nat, userId: nat, planId: nat,
                                     batch: seq<ReportInput>, n: nat, now: int)
    requires forall k :: k in reports ==> k < start
    requires n <= |batch| && KnownIds(batch, n)
    ensures var r := ReportsAfter(reports, start, userId, planId, batch, n, now);
      && SubMap(reports, r)
      && (forall k :: k in r <==> k in reports || start <= k < start + n)
      && (forall j :: 0 <= j < n ==> r[start + j] == ReportRow(userId, planId, batch[j], now))
  {
    if n > 0 {
      RowsAdded(reports, start, userId, planId, batch, n - 1, now);
    }
  }

  /** The report rows after a batch: the earlier ones, and one per entry under consecutive fresh ids. */
  lemma BatchReports(t: Tables, userId: nat, planId: nat, batch: seq<ReportInput>, now: int)
    requires forall k :: k in t.reports ==> k < t.nextId
    requires AllInPlan(t, batch, |batch|, planId)
    ensures var r := AfterBatch(t, userId, planId, batch, |batch|, now);
      && SubMap(t.reports, r.reports)
      && (forall k :: k in r.reports <==> k in t.reports || t.nextId <= k < t.nextId + |batch|)
      && (forall j :: 0 <= j < |batch| ==> r.reports[t.nextId + j] == ReportRow(userId, planId, batch[j], now))
  {
    RowsAdded(t.reports, t.nextId, userId, planId, batch, |batch|, now);
  }

  /** The ids of a consistent store's report rows are below its counter. */
  lemma ReportIdsBelow(t: Tables)
    requires t.Valid()
    ensures forall k :: k in t.reports ==> k < t.nextId
  {
    forall k | k in t.reports
      ensures k < t.nextId
    {
      assert k in t.Ids();
    }
  }

  /** Rows added under fresh ids number one per entry. */
  lemma {:induction false} RowCount(reports: map<nat, SessionReport>, start: nat, userId: nat, planId: nat,
                                    batch: seq<ReportInput>, n: nat, now: int)
    requires forall k :: k in reports ==> k < start
    requires n <= |batch| && KnownIds(batch, n)
    ensures |ReportsAfter(reports, start, userId, planId, batch, n, now).Keys| == |reports.Keys| + n
  {
    if n > 0 {
      RowCount(reports, start, userId, planId, batch, n - 1, now);
      RowsAdded(reports, start, userId, planId, batch, n - 1, now);
      assert start + n - 1 !in ReportsAfter(reports, start, userId, planId, batch, n - 1, now);
    }
  }

  /** Hence a batch adds exactly one report row per entry. */
  lemma BatchCount(t: Tables, userId: nat, planId: nat, batch: seq<ReportInput>, now: int)
    requires t.Valid()
    requires AllInPlan(t, batch, |batch|, planId)
    ensures |AfterBatch(t, userId, planId, batch, |batch|, now).reports.Keys| == |t.reports.Keys| + |batch|
  {
    ReportIdsBelow(t);
    RowCount(t.reports, t.nextId, userId, planId, batch, |batch|, now);
  }

  /** A batch keeps the store consistent: every id, old or new, stays below the counter. */
  lemma BatchValid(t: Tables, userId: nat, planId: nat, batch: seq<ReportInput>, now: int)
    requires t.Valid()
    requires AllInPlan(t, batch, |batch|, planId)
    ensures AfterBatch(t, userId, planId, batch, |batch|, now).Valid()
  {
    ReportIdsBelow(t);
    RowsAdded(t.reports, t.nextId, userId, planId, batch, |batch|, now);
    var r := AfterBatch(t, userId, planId, batch, |batch|, now);
    forall k | k in r.Ids()
      ensures k < r.nextId
    {
      if k !in r.reports {
        assert k in t.Ids();
      }
    }
  }

  /** After the first `n` entries, instance `x` carries the exertion of the last of them naming it. */
  lemma {:induction false} RpeAfter(m: map<nat, ExerciseInstance>, batch: seq<ReportInput>, n: nat, now: int, x: nat)
    requires n <= |batch| && x in m
    ensures InstancesAfter(m, batch, n, now)[x].lastRpe == LastRpeFor(batch, n, x, m[x].lastRpe)
  {
    if n > 0 {
      RpeAfter(m, batch, n - 1, now, x);
    }
  }

  /** After the first `n` entries, instance `x` was updated at `now` exactly when one of them names it. */
  lemma {:induction false} StampAfter(m: map<nat, ExerciseInstance>, batch: seq<ReportInput>, n: nat, now: int, x: nat)
    requires n <= |batch| && x in m
    ensures InstancesAfter(m, batch, n, now)[x].lastUpdated == if Names(batch, n, x) then Some(now) else m[x].lastUpdated
  {
    if n > 0 {
      StampAfter(m, batch, n - 1, now, x);
      assert Names(batch, n, x) <==> batch[n - 1].instanceId == x || Names(batch, n - 1, x);
    }
  }

  /** Entries change nothing of an instance but its latest exertion and update time. */
  lemma {:induction false} RestAfter(m: map<nat, ExerciseInstance>, batch: seq<ReportInput>, n: nat, now: int, x: nat)
    requires n <= |batch| && x in m
    ensures var i := InstancesAfter(m, batch, n, now)[x];
      i == m[x].(lastRpe := i.lastRpe, lastUpdated := i.lastUpdated)
  {
    if n > 0 {
      RestAfter(m, batch, n - 1, now, x);
    }
  }

  /** Every instance after a batch: only its latest exertion and update time can differ. */
  lemma BatchInstances(t: Tables, userId: nat, planId: nat, batch: seq<ReportInput>, now: int)
    requires AllInPlan(t, batch, |batch|, planId)
    ensures var r := AfterBatch(t, userId, planId, batch, |batch|, now);
      forall x :: x in t.instances ==>
        r.instances[x] == t.instances[x].(
          lastRpe := LastRpeFor(batch, |batch|, x, t.instances[x].lastRpe),
          lastUpdated := if Names(batch, |batch|, x) then Some(now) else t.instances[x].lastUpdated)
  {
    forall x | x in t.instances
      ensures AfterBatch(t, userId, planId, batch, |batch|, now).instances[x] == t.instances[x].(
                lastRpe := LastRpeFor(batch, |batch|, x, t.instances[x].lastRpe),
                lastUpdated := if Names(batch, |batch|, x) then Some(now) else t.instances[x].lastUpdated)
    {
      RpeAfter(t.instances, batch, |batch|, now, x);
      StampAfter(t.instances, batch, |batch|, now, x);
      RestAfter(t.instances, batch, |batch|, now, x);
    }
  }

  /** Recording a batch never touches a prescription: targets stay, and so does the repetition band. */
  lemma BatchKeepsTargets(t: Tables, userId: nat, planId: nat, batch: seq<ReportInput>, now: int)
    requires AllInPlan(t, batch, |batch|, planId)
    ensures TargetsKept(t, AfterBatch(t, userId, planId, batch, |batch|, now))
    ensures InBand(t) ==> InBand(AfterBatch(t, userId, planId, batch, |batch|, now))
  {
    BatchInstances(t, userId, planId, batch, now);
  }

  /** The HTTP reply of the report endpoint. */
  datatype ReportReply =
    | Recorded(count: nat)                       // `"status": "recorded"`, `"adjustments_scheduled": true`
    | Unprocessable(errors: seq<seq<Field>>)     // 422
    | UserNotFound                               // 404 "User not found"
    | PlanNotFound                               // 404 "Plan not found"
    | Forbidden                                  // 403 "Plan does not belong to user"
    | InstanceNotFound(instanceId: int)          // 404 "Exercise instance {id} not found in plan"

  /** The user and the plan exist and the plan is the user's. */
  predicate Owned(t: Tables, userId: int, planId: int) {
    FindUser(t, userId).Some? && FindPlan(t, planId).Some? && FindPlan(t, planId).value.userId == userId
  }

  /** The reply given before any entry is looked at, if the request stops there. */
  function Gate(t: Tables, userId: int, planId: int, body: seq<ReportInput>): (r: Option<ReportReply>)
    ensures r.None? <==> ValidateReports(body).Ok? && Owned(t, userId, planId)
    ensures ValidateReports(body).Err? ==> r == Some(Unprocessable(ValidateReports(body).error))
    ensures ValidateReports(body).Ok? && FindUser(t, userId).None? ==> r == Some(UserNotFound)
    ensures ValidateReports(body).Ok? && FindUser(t, userId).Some? && FindPlan(t, planId).None? ==> r == Some(PlanNotFound)
    ensures (ValidateReports(body).Ok? && FindUser(t, userId).Some? && FindPlan(t, planId).Some? &&
             FindPlan(t, planId).value.userId != userId) ==> r == Some(Forbidden)
  {
    if ValidateReports(body).Err? then Some(Unprocessable(ValidateReports(body).error))
    else if FindUser(t, userId).None? then Some(UserNotFound)
    else if FindPlan(t, planId).None? then Some(PlanNotFound)
    else if FindPlan(t, planId).value.userId != userId then Some(Forbidden)
    else None
  }

  /**
   * `POST /users/{user_id}/plans/{plan_id}/session`. Returns the reply and the
   * instance ids of the scheduled adjustments, one per entry in entry order.
   * Any refusal writes nothing; otherwise the whole batch is committed.
   */
  method ReportSession(db: Database, userId: int, planId: int, body: seq<ReportInput>, now: int)
    returns (reply: ReportReply, scheduled: seq<nat>)
    modifies db
    ensures var t := old(db.committed);
      Gate(t, userId, planId, body).Some? ==>
        reply == Gate(t, userId, planId, body).value && scheduled == [] && db.committed == t
    ensures var t := old(db.committed);
      Gate(t, userId, planId, body).None? && FirstMissing(t, body, planId as nat).Some? ==>
        && reply == InstanceNotFound(body[FirstMissing(t, body, planId as nat).value].instanceId)
        && scheduled == [] && db.committed == t
    ensures var t := old(db.committed);
      Gate(t, userId, planId, body).None? && FirstMissing(t, body, planId as nat).None? ==>
        && reply == Recorded(|body|)
        && db.committed == AfterBatch(t, userId as nat, planId as nat, body, |body|, now)
        && |scheduled| == |body|
        && forall j :: 0 <= j < |body| ==> scheduled[j] == body[j].instanceId
  {
    scheduled := [];
    var t0 := db.committed;
    var gate := Gate(t0, userId, planId, body);
    if gate.Some? {
      reply := gate.value;
      return;
    }
    var user, plan := userId as nat, planId as nat;
    var work := t0;
    var created := [];
    var j := 0;
    while j < |body|
      invariant 0 <= j <= |body|
      invariant AllInPlan(t0, body, j, plan)
      invariant work == AfterBatch(t0, user, plan, body, j, now)
      invariant |created| == j && forall i :: 0 <= i < j ==> created[i] == body[i].instanceId
      invariant db.committed == t0
    {
      if !InPlan(work, body[j].instanceId, plan) {
        assert FirstMissing(t0, body, plan) == Some(j) by {
          FirstMissingIs(t0, body, plan, j);
        }
        reply := InstanceNotFound(body[j].instanceId);
        return;
      }
      StageOne(t0, user, plan, body, j, now);
      work := Stage(work, user, plan, body[j], now);
      created := created + [body[j].instanceId as nat];
      j := j + 1;
    }
    db.committed := work;
    scheduled := created;
    reply := Recorded(|created|);
  }
}
