/**
 * Changing and removing a plan: the partial update of `PUT /plans/{plan_id}`
 * and of the `update_plan` tool, and the cascade delete shared by
 * `DELETE /plans/{plan_id}` and the `delete_plan` tool.
 */
module PlanAdmin {
  import opened Wrappers
  import opened Json
  import opened Entities
  import opened Validators

  // ---------------------------------------------------------------------------
  // Partial update
  // ---------------------------------------------------------------------------

  /**
   * The plan after `setattr` of every supplied field of an update body, or
   * `None` when a supplied null lands in a NOT NULL column (the title or the
   * active flag), which makes the commit fail.
   */
  function Patched(p: Plan, patch: PlanPatch): (r: Option<Plan>)
    ensures r.None? <==> patch.title == Some(None) || patch.isActive == Some(None)
    ensures r.Some? ==> r.value.userId == p.userId && r.value.totalDays == p.totalDays && r.value.createdAt == p.createdAt
  {
    if patch.title == Some(None) || patch.isActive == Some(None) then None
    else
      var titled := if patch.title.Some? then p.(title := patch.title.value.value) else p;
      var described := if patch.description.Some? then titled.(description := patch.description.value) else titled;
      Some(if patch.isActive.Some? then described.(isActive := patch.isActive.value.value) else described)
  }

  /** A body that supplies nothing leaves the plan as it is. */
  lemma PatchNothing(p: Plan)
    ensures Patched(p, PlanPatch(None, None, None)) == Some(p)
  {
  }

  /** Every supplied value is the one read back; every other field keeps its value. */
  lemma PatchWrites(p: Plan, patch: PlanPatch)
    requires Patched(p, patch).Some?
    ensures var q := Patched(p, patch).value;
      && q.title == (if patch.title.Some? then patch.title.value.value else p.title)
      && q.description == (if patch.description.Some? then patch.description.value else p.description)
      && q.isActive == (if patch.isActive.Some? then patch.isActive.value.value else p.isActive)
  {
  }

  /** Sending the same body twice changes nothing the second time. */
  lemma PatchIdempotent(p: Plan, patch: PlanPatch)
    requires Patched(p, patch).Some?
    ensures Patched(Patched(p, patch).value, patch) == Patched(p, patch)
  {
  }

  /** The HTTP reply of the plan update. */
  datatype UpdateReply =
    | Updated(plan: Plan)                 // the refreshed plan row
    | Unprocessable(errors: seq<Field>)   // 422
    | PlanNotFound                        // 404 "Plan not found"
    | ServerError                         // 500: the commit raised

  /**
   * `PUT /plans/{plan_id}`: the body is validated before the plan is looked
   * up; a failing commit leaves the store as it was.
   */
  method UpdatePlan(db: Database, planId: int, body: PlanPatch) returns (reply: UpdateReply)
    modifies db
    ensures ValidatePlanUpdate(body).Err? ==>
      reply == Unprocessable(PatchErrors(body)) && db.committed == old(db.committed)
    ensures ValidatePlanUpdate(body).Ok? && FindPlan(old(db.committed), planId).None? ==>
      reply == PlanNotFound && db.committed == old(db.committed)
    ensures ValidatePlanUpdate(body).Ok? && FindPlan(old(db.committed), planId).Some? ==>
      var q := Patched(FindPlan(old(db.committed), planId).value, body);
      && (q.None? ==> reply == ServerError && db.committed == old(db.committed))
      && (q.Some? ==> reply == Updated(q.value) &&
                      db.committed == old(db.committed).(plans := old(db.committed).plans[planId as nat := q.value]))
  {
    var t := db.committed;
    var checked := ValidatePlanUpdate(body);
    if checked.Err? {
      return Unprocessable(checked.error);
    }
    var found := FindPlan(t, planId);
    if found.None? {
      return PlanNotFound;
    }
    var q := Patched(found.value, body);
    if q.None? {
      return ServerError;
    }
    db.committed := t.(plans := t.plans[planId as nat := q.value]);
    reply := Updated(q.value);
  }

  /** The plan columns a tool call can write. */
  datatype Column = UserIdCol | TitleCol | DescriptionCol | TotalDaysCol | IsActiveCol

  /** The attribute name of a column. */
  function ColumnName(c: Column): string {
    match c
    case UserIdCol => "user_id"
    case TitleCol => "title"
    case DescriptionCol => "description"
    case TotalDaysCol => "total_days"
    case IsActiveCol => "is_active"
  }

  /** The column an attribute name denotes, if any. */
  function ColumnNamed(key: string): (r: Option<Column>)
    ensures r.Some? ==> ColumnName(r.value) == key
    ensures forall c :: ColumnName(c) == key ==> r == Some(c)
  {
    if key == "user_id" then Some(UserIdCol)
    else if key == "title" then Some(TitleCol)
    else if key == "description" then Some(DescriptionCol)
    else if key == "total_days" then Some(TotalDaysCol)
    else if key == "is_active" then Some(IsActiveCol)
    else None
  }

  /** The value of a column as it reads back in JSON. */
  function FieldOf(p: Plan, c: Column): Json {
    match c
    case UserIdCol => JNum(p.userId)
    case TitleCol => JStr(p.title)
    case DescriptionCol => if p.description.Some? then JStr(p.description.value) else JNull
    case TotalDaysCol => JNum(p.totalDays)
    case IsActiveCol => JBool(p.isActive)
  }

  /** `v` has the column's type (null only where the column allows it), so the commit accepts it. */
  predicate Fits(c: Column, v: Json) {
    match c
    case UserIdCol => v.JNum?
    case TitleCol => v.JStr?
    case DescriptionCol => v.JStr? || v.JNull?
    case TotalDaysCol => v.JNum?
    case IsActiveCol => v.JBool?
  }

  /** Whether `setattr(plan, key, v)` and the commit after it succeed. */
  predicate Settable(key: string, v: Json) {
    ColumnNamed(key).Some? && Fits(ColumnNamed(key).value, v)
  }

  /** `setattr(plan, name, v)`: column `c` reads back as `v`, and nothing else changes. */
  function SetAttr(p: Plan, c: Column, v: Json): (r: Plan)
    requires Fits(c, v)
    ensures FieldOf(r, c) == v
    ensures forall d :: d != c ==> FieldOf(r, d) == FieldOf(p, d)
    ensures r.createdAt == p.createdAt
  {
    match c
    case UserIdCol => p.(userId := v.n)
    case TitleCol => p.(title := v.s)
    case DescriptionCol => p.(description := if v.JStr? then Some(v.s) else None)
    case TotalDaysCol => p.(totalDays := v.n)
    case IsActiveCol => p.(isActive := v.b)
  }

  /** A plan is determined by its writable columns and its creation time. */
  lemma ColumnsDetermine(p: Plan, q: Plan)
    requires forall c :: FieldOf(p, c) == FieldOf(q, c)
    requires p.createdAt == q.createdAt
    ensures p == q
  {
    assert FieldOf(p, UserIdCol) == FieldOf(q, UserIdCol);
    assert FieldOf(p, TitleCol) == FieldOf(q, TitleCol);
    assert FieldOf(p, DescriptionCol) == FieldOf(q, DescriptionCol);
    assert FieldOf(p, TotalDaysCol) == FieldOf(q, TotalDaysCol);
    assert FieldOf(p, IsActiveCol) == FieldOf(q, IsActiveCol);
  }

  /** The value column `c` holds once every key of `written` has been set from `updates`. */
  function Expected(p: Plan, updates: map<string, Json>, written: set<string>, c: Column): Json {
    if ColumnName(c) in updates && ColumnName(c) in written then updates[ColumnName(c)] else FieldOf(p, c)
  }

  /**
   * The `setattr` loop of the `update_plan` tool and its commit, over the
   * arguments other than `plan_id`: `None` exactly when some entry is not
   * settable (setattr or the commit raises); otherwise every supplied column
   * reads back as supplied and every other keeps its value.
   */
  method ApplyUpdates(p: Plan, updates: map<string, Json>) returns (r: Option<Plan>)
    ensures r.Some? <==> forall k :: k in updates ==> Settable(k, updates[k])
    ensures r.Some? ==> forall c :: FieldOf(r.value, c) == if ColumnName(c) in updates then updates[ColumnName(c)] else FieldOf(p, c)
    ensures r.Some? ==> r.value.createdAt == p.createdAt
  {
    var left := updates.Keys;
    var q := p;
    while left != {}
      invariant left <= updates.Keys
      invariant forall k :: k in updates && k !in left ==> Settable(k, updates[k])
      invariant forall c :: FieldOf(q, c) == Expected(p, updates, updates.Keys - left, c)
      invariant q.createdAt == p.createdAt
      decreases left
    {
      var k :| k in left;
      if !Settable(k, updates[k]) {
        return None;
      }
      var col := ColumnNamed(k).value;
      ghost var before := q;
      q := SetAttr(q, col, updates[k]);
      left := left - {k};
      forall c
        ensures FieldOf(q, c) == Expected(p, updates, updates.Keys - left, c)
      {
        if c != col {
          assert ColumnName(c) != k;
        }
      }
    }
    r := Some(q);
  }

  /** A call that supplies no column leaves the plan as it is. */
  lemma NoUpdates(p: Plan, q: Plan, updates: map<string, Json>)
    requires forall c :: ColumnName(c) !in updates
    requires forall c :: FieldOf(q, c) == if ColumnName(c) in updates then updates[ColumnName(c)] else FieldOf(p, c)
    requires q.createdAt == p.createdAt
    ensures q == p
  {
    ColumnsDetermine(p, q);
  }

  // ---------------------------------------------------------------------------
  // Cascade delete
  // ---------------------------------------------------------------------------

  /** The ids of the days of plan `planId` (`select(PlanDay.id).where(PlanDay.plan_id == plan_id)`). */
  function DaysOf(t: Tables, planId: nat): (r: set<nat>)
    ensures forall d :: d in r <==> d in t.planDays && t.planDays[d].planId == planId
  {
    set d | d in t.planDays && t.planDays[d].planId == planId
  }

  /** `delete(SessionReport).where(SessionReport.plan_id == plan_id)`. */
  function DropReports(t: Tables, planId: nat): Tables {
    t.(reports := map k | k in t.reports && t.reports[k].planId != planId :: t.reports[k])
  }

  /** `delete(ExerciseInstance).where(ExerciseInstance.plan_day_id == day_id)` for every day in `days`. */
  function DropInstances(t: Tables, days: set<nat>): Tables {
    t.(instances := map k | k in t.instances && t.instances[k].planDayId !in days :: t.instances[k])
  }

  /** `delete(PlanDay).where(PlanDay.plan_id == plan_id)` and `session.delete(plan)`. */
  function DropPlan(t: Tables, planId: nat): Tables {
    t.(planDays := map d | d in t.planDays && t.planDays[d].planId != planId :: t.planDays[d],
       plans := t.plans - {planId})
  }

  /** The four deletes of the cascade, in the source's order. */
  function Cascade(t: Tables, planId: nat): (r: Tables)
    ensures planId !in r.plans
    ensures SubMap(r.reports, t.reports) && SubMap(r.instances, t.instances)
    ensures SubMap(r.planDays, t.planDays) && SubMap(r.plans, t.plans)
    ensures r.users == t.users && r.exerciseTypes == t.exerciseTypes && r.nextId == t.nextId
  {
    DropPlan(DropInstances(DropReports(t, planId), DaysOf(t, planId)), planId)
  }

  /**
   * After the cascade there is no report of the plan, no instance on one of
   * its days, no day of it and no plan row; every other row is kept as it was.
   */
  lemma CascadeRemoves(t: Tables, planId: nat)
    ensures var r := Cascade(t, planId);
      && planId !in r.plans
      && (forall k :: k in r.reports <==> k in t.reports && t.reports[k].planId != planId)
      && (forall k :: k in r.instances <==> k in t.instances && t.instances[k].planDayId !in DaysOf(t, planId))
      && (forall d :: d in r.planDays <==> d in t.planDays && t.planDays[d].planId != planId)
      && SubMap(r.reports, t.reports) && SubMap(r.instances, t.instances) && SubMap(r.planDays, t.planDays)
      && SubMap(r.plans, t.plans) && (forall p :: p in t.plans && p != planId ==> p in r.plans)
      && r.users == t.users && r.exerciseTypes == t.exerciseTypes && r.nextId == t.nextId
  {
  }

  /** The cascade keeps every reference resolvable: nothing left behind points at a deleted row. */
  lemma CascadeLinked(t: Tables, planId: nat)
    requires Linked(t)
    ensures Linked(Cascade(t, planId))
  {
    var r := Cascade(t, planId);
    var days := DaysOf(t, planId);
    CascadeRemoves(t, planId);
    forall k | k in r.reports
      ensures r.reports[k].planId in r.plans && InstanceInPlan(r, r.reports[k].instanceId, r.reports[k].planId)
    {
      var row := t.reports[k];
      var i := row.instanceId;
      assert InstanceInPlan(t, i, row.planId);
      assert t.instances[i].planDayId !in days;
    }
    forall i | i in r.instances
      ensures r.instances[i].planDayId in r.planDays
    {
      assert t.instances[i].planDayId in t.planDays;
    }
  }

  /** The statements the cascade issues: the report delete, the day query, one delete per day, the day delete, the plan delete and the commit. */
  function Statements(t: Tables, planId: nat): nat {
    |DaysOf(t, planId)| + 5
  }

  /** The delete failed at a statement the cascade reaches. */
  predicate FailsAt(fault: Option<nat>, t: Tables, planId: nat) {
    fault.Some? && fault.value < Statements(t, planId)
  }

  /**
   * The cascade of an existing plan in one session. `fault` is the position
   * of the statement the database refuses, if any: then the session is rolled
   * back and the store is as it was; otherwise it holds `Cascade`.
   */
  method DeleteCascade(db: Database, planId: nat, fault: Option<nat>) returns (deleted: bool)
    modifies db
    ensures deleted <==> !FailsAt(fault, old(db.committed), planId)
    ensures deleted ==> db.committed == Cascade(old(db.committed), planId)
    ensures !deleted ==> db.committed == old(db.committed)
  {
    var t := db.committed;
    if fault == Some(0) {
      return false;
    }
    var work := DropReports(t, planId);
    if fault == Some(1) {
      return false;
    }
    var days := DaysOf(t, planId);
    var failed;
    work, failed := DropEachDay(work, days, fault, 2);
    if failed {
      return false;
    }
    var last := 2 + |days|;
    if fault == Some(last) || fault == Some(last + 1) || fault == Some(last + 2) {
      return false;
    }
    db.committed := DropPlan(work, planId);
    deleted := true;
  }

  /**
   * The loop over the plan's day ids, one instance delete per day, the first
   * issued as statement `start`; `failed` when one of them is the refused one.
   */
  method DropEachDay(base: Tables, days: set<nat>, fault: Option<nat>, start: nat) returns (work: Tables, failed: bool)
    ensures failed <==> fault.Some? && start <= fault.value < start + |days|
    ensures !failed ==> work == DropInstances(base, days)
  {
    work := base;
    var left := days;
    var step := start;
    while left != {}
      invariant left <= days
      invariant step + |left| == start + |days|
      invariant !(fault.Some? && start <= fault.value < step)
      invariant work == DropInstances(base, days - left)
      decreases left
    {
      var d :| d in left;
      if fault == Some(step) {
        return work, true;
      }
      DropStep(base, days - left, d);
      work := DropInstances(work, {d});
      assert (days - left) + {d} == days - (left - {d});
      left := left - {d};
      step := step + 1;
    }
    assert days - left == days;
    failed := false;
  }

  /** The HTTP reply of the plan delete. */
  datatype DeleteReply =
    | Deleted(planId: nat)   // `{"status": "deleted", "plan_id": ...}`
    | NoSuchPlan             // 404 "Plan not found"
    | DeleteFailed           // 500 "Failed to delete plan: ..."

  /**
   * `DELETE /plans/{plan_id}`: 404 for an unknown plan, else the cascade,
   * which either commits whole or is rolled back with a 500.
   */
  method DeletePlan(db: Database, planId: int, fault: Option<nat>) returns (reply: DeleteReply)
    modifies db
    ensures FindPlan(old(db.committed), planId).None? ==> reply == NoSuchPlan && db.committed == old(db.committed)
    ensures FindPlan(old(db.committed), planId).Some? ==>
      if FailsAt(fault, old(db.committed), planId as nat)
      then reply == DeleteFailed && db.committed == old(db.committed)
      else reply == Deleted(planId as nat) && db.committed == Cascade(old(db.committed), planId as nat)
  {
    if FindPlan(db.committed, planId).None? {
      return NoSuchPlan;
    }
    var deleted := DeleteCascade(db, planId as nat, fault);
    reply := if deleted then Deleted(planId as nat) else DeleteFailed;
  }

  /** Deleting the instances of one more day after those of a set of days is deleting those of both. */
  lemma DropStep(t: Tables, done: set<nat>, d: nat)
    ensures DropInstances(DropInstances(t, done), {d}) == DropInstances(t, done + {d})
  {
  }
}
