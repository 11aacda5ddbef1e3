/**
 * The plan-tree build of `generate_workout_plan`: the Plan row, then for each
 * day its PlanDay row, then for each exercise entry a find-or-create of the
 * ExerciseType by exact name and a new ExerciseInstance.
 *
 * The commit points are explicit: the Plan, every PlanDay and every newly
 * created ExerciseType are committed as soon as they are added, and each such
 * commit also makes durable the instances staged before it. On a failure the
 * handler rolls back, which drops only what was staged since the last commit.
 */
module PlanBuilder {
  import opened Wrappers
  import opened Entities
  import opened PlanDraft

  /** How a build ended: complete, stopped at an entry the source fails on, or stopped at an ambiguous name. */
  datatype Outcome = Built | Incomplete | AmbiguousType(name: string)

  /** The ids of the exercise types called `name`. */
  function TypesNamed(types: map<nat, ExerciseType>, name: string): (r: set<nat>)
    ensures forall k :: k in r <==> k in types && types[k].name == name
  {
    set k | k in types && types[k].name == name
  }

  /** The exercise type created for an entry whose name is not yet known. */
  function NewType(e: ExerciseEntry): (ty: ExerciseType)
    ensures ty.name == e.name
    ensures ty.defaultSets == e.sets.GetOr(DefaultTypeSets) && ty.defaultReps == e.reps.GetOr(DefaultTypeReps)
    ensures ty.notes.None?
  {
    ExerciseType(e.name, e.primaryMuscle, e.equipmentNeeded, e.sets.GetOr(DefaultTypeSets), e.reps.GetOr(DefaultTypeReps), None)
  }

  /** The position of the first entry of `seen` called `name`, or `|seen|` when there is none. */
  function FirstWith(seen: seq<ExerciseEntry>, name: string): (r: nat)
    ensures r <= |seen|
    ensures r < |seen| ==> seen[r].name == name
    ensures forall i :: 0 <= i < r ==> seen[i].name != name
  {
    if seen == [] then 0 else if seen[0].name == name then 0 else 1 + FirstWith(seen[1..], name)
  }

  /** One more entry changes the first position of a name only when the name was not there yet. */
  lemma FirstWithSnoc(seen: seq<ExerciseEntry>, e: ExerciseEntry, name: string)
    ensures FirstWith(seen + [e], name) ==
            if FirstWith(seen, name) < |seen| then FirstWith(seen, name)
            else if e.name == name then |seen| else |seen| + 1
  {
    var s := seen + [e];
    var q := FirstWith(seen, name);
    assert forall i :: 0 <= i < |seen| ==> s[i] == seen[i];
    if q < |seen| {
      assert s[q].name == name;
    } else {
      assert s[|seen|] == e;
    }
  }

  /**
   * Entry `e`, reached after the entries `seen`, creates a type: no type of its
   * name existed before the build, and no earlier entry had its name.
   */
  ghost predicate Creates(types0: map<nat, ExerciseType>, seen: seq<ExerciseEntry>, e: ExerciseEntry) {
    TypesNamed(types0, e.name) == {} && FirstWith(seen, e.name) == |seen|
  }

  /**
   * The exercise types of `t` are those of `t0` plus, for each name of the
   * entries `seen` that no type of `t0` has, exactly one new type made from
   * the first entry of that name; every name seen has exactly one type.
   */
  ghost predicate TypesFrom(t0: Tables, t: Tables, seen: seq<ExerciseEntry>) {
    && SubMap(t0.exerciseTypes, t.exerciseTypes)
    && NewNamesUnique(t0, t)
    && (forall k :: k in t.exerciseTypes && k !in t0.exerciseTypes ==>
          var p := FirstWith(seen, t.exerciseTypes[k].name);
          && p < |seen|
          && TypesNamed(t0.exerciseTypes, seen[p].name) == {}
          && t.exerciseTypes[k] == NewType(seen[p]))
    && (forall p :: 0 <= p < |seen| ==> |TypesNamed(t.exerciseTypes, seen[p].name)| == 1)
  }

  /** No name the build reached matched two types before it. */
  lemma SeenUnambiguous(t0: Tables, t: Tables, seen: seq<ExerciseEntry>)
    requires TypesFrom(t0, t, seen)
    ensures forall p :: 0 <= p < |seen| ==> |TypesNamed(t0.exerciseTypes, seen[p].name)| <= 1
  {
    forall p | 0 <= p < |seen|
      ensures |TypesNamed(t0.exerciseTypes, seen[p].name)| <= 1
    {
      SubsetCard(TypesNamed(t0.exerciseTypes, seen[p].name), TypesNamed(t.exerciseTypes, seen[p].name));
    }
  }

  /** The lookup of an entry's name finds nothing exactly when the entry creates a type. */
  lemma CreatesIff(t0: Tables, work: Tables, seen: seq<ExerciseEntry>, e: ExerciseEntry)
    requires TypesFrom(t0, work, seen)
    ensures Creates(t0.exerciseTypes, seen, e) <==> TypesNamed(work.exerciseTypes, e.name) == {}
  {
    var p := FirstWith(seen, e.name);
    if p < |seen| {
      assert |TypesNamed(work.exerciseTypes, seen[p].name)| == 1;
    }
    if TypesNamed(work.exerciseTypes, e.name) != {} {
      var k :| k in TypesNamed(work.exerciseTypes, e.name);
      if k in t0.exerciseTypes {
        assert k in TypesNamed(t0.exerciseTypes, e.name);
      } else {
        assert FirstWith(seen, work.exerciseTypes[k].name) < |seen|;
      }
    }
    if TypesNamed(t0.exerciseTypes, e.name) != {} {
      var k :| k in TypesNamed(t0.exerciseTypes, e.name);
      assert k in TypesNamed(work.exerciseTypes, e.name);
    }
  }

  /** An entry whose name already has exactly one type adds none. */
  lemma TypesFromReuse(t0: Tables, work: Tables, seen: seq<ExerciseEntry>, e: ExerciseEntry)
    requires TypesFrom(t0, work, seen) && |TypesNamed(work.exerciseTypes, e.name)| == 1
    ensures TypesFrom(t0, work, seen + [e])
  {
    var s := seen + [e];
    forall k | k in work.exerciseTypes && k !in t0.exerciseTypes
      ensures FirstWith(s, work.exerciseTypes[k].name) == FirstWith(seen, work.exerciseTypes[k].name)
    {
      FirstWithSnoc(seen, e, work.exerciseTypes[k].name);
    }
    forall p | 0 <= p < |s|
      ensures |TypesNamed(work.exerciseTypes, s[p].name)| == 1
    {
      if p < |seen| {
        assert s[p] == seen[p];
      }
    }
  }

  /** An entry whose name has no type adds the type made from it, under a fresh id. */
  lemma TypesFromCreate(t0: Tables, work: Tables, seen: seq<ExerciseEntry>, e: ExerciseEntry, next: Tables)
    requires TypesFrom(t0, work, seen) && TypesNamed(work.exerciseTypes, e.name) == {}
    requires work.nextId !in work.exerciseTypes
    requires next.exerciseTypes == work.exerciseTypes[work.nextId := NewType(e)]
    ensures TypesFrom(t0, next, seen + [e])
  {
    CreatesIff(t0, work, seen, e);
    AddTypeUnique(t0, work, NewType(e), next);
    CreatedTypesFirst(t0, work, seen, e, next);
    CreatedNamesOne(t0, work, seen, e, next);
  }

  lemma CreatedTypesFirst(t0: Tables, work: Tables, seen: seq<ExerciseEntry>, e: ExerciseEntry, next: Tables)
    requires TypesFrom(t0, work, seen) && Creates(t0.exerciseTypes, seen, e)
    requires next.exerciseTypes == work.exerciseTypes[work.nextId := NewType(e)]
    ensures forall k :: k in next.exerciseTypes && k !in t0.exerciseTypes ==>
      var p := FirstWith(seen + [e], next.exerciseTypes[k].name);
      p < |seen + [e]| && TypesNamed(t0.exerciseTypes, (seen + [e])[p].name) == {} && next.exerciseTypes[k] == NewType((seen + [e])[p])
  {
    var s := seen + [e];
    forall k | k in next.exerciseTypes && k !in t0.exerciseTypes
      ensures var p := FirstWith(s, next.exerciseTypes[k].name);
        p < |s| && TypesNamed(t0.exerciseTypes, s[p].name) == {} && next.exerciseTypes[k] == NewType(s[p])
    {
      FirstWithSnoc(seen, e, next.exerciseTypes[k].name);
      if k != work.nextId {
        var p := FirstWith(seen, work.exerciseTypes[k].name);
        assert s[p] == seen[p];
      } else {
        assert s[|seen|] == e;
      }
    }
  }

  lemma CreatedNamesOne(t0: Tables, work: Tables, seen: seq<ExerciseEntry>, e: ExerciseEntry, next: Tables)
    requires TypesFrom(t0, work, seen) && TypesNamed(work.exerciseTypes, e.name) == {}
    requires work.nextId !in work.exerciseTypes
    requires next.exerciseTypes == work.exerciseTypes[work.nextId := NewType(e)]
    ensures forall p :: 0 <= p < |seen + [e]| ==> |TypesNamed(next.exerciseTypes, (seen + [e])[p].name)| == 1
  {
    var s := seen + [e];
    forall p | 0 <= p < |s|
      ensures |TypesNamed(next.exerciseTypes, s[p].name)| == 1
    {
      if p < |seen| {
        assert s[p] == seen[p];
        assert |TypesNamed(work.exerciseTypes, seen[p].name)| == 1;
        assert seen[p].name != e.name;
        assert TypesNamed(next.exerciseTypes, seen[p].name) == TypesNamed(work.exerciseTypes, seen[p].name);
      } else {
        assert TypesNamed(next.exerciseTypes, e.name) == {work.nextId};
      }
    }
  }

  /**
   * The position of the last entry of `reached` that creates a type, or 0.
   * Committing that type makes durable the instances of the entries before it.
   */
  ghost function FlushPoint(types0: map<nat, ExerciseType>, seen: seq<ExerciseEntry>, reached: seq<ExerciseEntry>): (r: nat)
    ensures r <= |reached|
    decreases |reached|
  {
    if reached == [] then 0
    else
      var n := |reached| - 1;
      if Creates(types0, seen + reached[..n], reached[n]) then n else FlushPoint(types0, seen, reached[..n])
  }

  lemma FlushStep(types0: map<nat, ExerciseType>, seen: seq<ExerciseEntry>, entries: seq<ExerciseEntry>, i: nat)
    requires i < |entries|
    ensures FlushPoint(types0, seen, entries[..i + 1]) ==
            if Creates(types0, seen + entries[..i], entries[i]) then i else FlushPoint(types0, seen, entries[..i])
    ensures seen + entries[..i + 1] == (seen + entries[..i]) + [entries[i]]
  {
    assert entries[..i + 1][..i] == entries[..i];
    assert entries[..i + 1] == entries[..i] + [entries[i]];
  }

  /**
   * Instance `x` of `t` was built from entry `e` at position `i` of day `dayId`:
   * it refers to a type of the entry's name, takes the entry's sets and reps or
   * else the type's defaults, starts with current equal to target, and has no
   * history yet.
   */
  ghost predicate InstanceBuilt(t: Tables, x: nat, dayId: nat, i: nat, e: ExerciseEntry) {
    && x in t.instances
    && var inst := t.instances[x];
    && inst.exerciseTypeId in t.exerciseTypes
    && var ty := t.exerciseTypes[inst.exerciseTypeId];
    && ty.name == e.name
    && inst.planDayId == dayId
    && inst.orderIndex == i
    && inst.targetSets == e.sets.GetOr(ty.defaultSets)
    && inst.targetReps == e.reps.GetOr(ty.defaultReps)
    && inst.currentSets == Some(inst.targetSets)
    && inst.currentReps == Some(inst.targetReps)
    && inst.restSeconds == e.restSeconds
    && inst.notes == e.notes
    && inst.lastRpe.None? && inst.lastUpdated.None?
  }

  /** Day `dayId` of `t` is the row for entry `d` of plan `planId`. */
  ghost predicate DayRow(t: Tables, planId: nat, dayId: nat, d: DayEntry) {
    dayId in t.planDays && t.planDays[dayId] == PlanDay(planId, d.dayNumber, d.title, d.restDay)
  }

  /** Day `dayId` of `t` is the row for entry `d`, with one built instance per exercise entry, rest day or not. */
  ghost predicate DayBuilt(t: Tables, planId: nat, dayId: nat, d: DayEntry, ids: seq<nat>) {
    && DayRow(t, planId, dayId, d)
    && |ids| == |d.exercises|
    && forall i :: 0 <= i < |ids| ==> InstanceBuilt(t, ids[i], dayId, i, d.exercises[i])
  }

  /** The first `count` days of `days` are fully built in `t`. */
  ghost predicate DaysBuilt(t: Tables, planId: nat, days: seq<DayEntry>, dayIds: seq<nat>, instanceIds: seq<seq<nat>>, count: nat) {
    && count <= |days| && count <= |dayIds| && count <= |instanceIds|
    && forall k :: 0 <= k < count ==> DayBuilt(t, planId, dayIds[k], days[k], instanceIds[k])
  }

  /** Every exercise type added since `base` has a name no other type of `t` has. */
  ghost predicate NewNamesUnique(base: Tables, t: Tables) {
    forall k :: k in t.exerciseTypes && k !in base.exerciseTypes ==>
      TypesNamed(t.exerciseTypes, t.exerciseTypes[k].name) == {k}
  }

  /** The rows the build adds (types, days, instances) only ever get added. */
  ghost predicate Extends(a: Tables, b: Tables) {
    && SubMap(a.exerciseTypes, b.exerciseTypes) && SubMap(a.planDays, b.planDays) && SubMap(a.instances, b.instances)
    && a.nextId <= b.nextId
  }

  /** `b` differs from `a` at most in its exercise types, instances and id counter. */
  ghost predicate OnlyExercisesChanged(a: Tables, b: Tables) {
    b.users == a.users && b.plans == a.plans && b.planDays == a.planDays && b.reports == a.reports
  }

  /**
   * `committed` is `work` without some of its staged instances: every other
   * table agrees, since plans, days and types are committed as soon as added.
   */
  ghost predicate Pending(committed: Tables, work: Tables) {
    && committed.Valid() && committed.nextId <= work.nextId
    && committed.users == work.users && committed.exerciseTypes == work.exerciseTypes
    && committed.plans == work.plans && committed.planDays == work.planDays && committed.reports == work.reports
    && SubMap(committed.instances, work.instances)
  }

  lemma ExtendsTransitive(a: Tables, b: Tables, c: Tables)
    requires Extends(a, b) && Extends(b, c)
    ensures Extends(a, c)
  {
  }

  lemma DaysBuiltKept(a: Tables, b: Tables, planId: nat, days: seq<DayEntry>, dayIds: seq<nat>,
                      instanceIds: seq<seq<nat>>, count: nat)
    requires Extends(a, b) && DaysBuilt(a, planId, days, dayIds, instanceIds, count)
    ensures DaysBuilt(b, planId, days, dayIds, instanceIds, count)
  {
    forall k | 0 <= k < count
      ensures DayBuilt(b, planId, dayIds[k], days[k], instanceIds[k])
    {
      var ids, d := instanceIds[k], days[k];
      forall i | 0 <= i < |ids|
        ensures InstanceBuilt(b, ids[i], dayIds[k], i, d.exercises[i])
      {
        assert InstanceBuilt(a, ids[i], dayIds[k], i, d.exercises[i]);
      }
    }
  }

  lemma {:induction false} SubsetCard(a: set<nat>, b: set<nat>)
    requires a <= b
    ensures |a| <= |b|
    decreases |a|
  {
    if a != {} {
      var x :| x in a;
      SubsetCard(a - {x}, b - {x});
    }
  }

  lemma SingleMember(a: set<nat>, x: nat)
    requires |a| == 1 && x in a
    ensures a == {x}
  {
    forall k | k in a
      ensures k == x
    {
      if k != x {
        SubsetCard({k, x}, a);
      }
    }
  }

  /**
   * A name that matches two or more types during the build already matched two
   * or more before it, since the build only creates types under new names.
   */
  lemma AmbiguityIsInherited(base: Tables, t: Tables, name: string)
    requires SubMap(base.exerciseTypes, t.exerciseTypes) && NewNamesUnique(base, t)
    requires |TypesNamed(t.exerciseTypes, name)| >= 2
    ensures |TypesNamed(base.exerciseTypes, name)| >= 2
  {
    var all := TypesNamed(t.exerciseTypes, name);
    var a :| a in all;
    assert |all - {a}| == |all| - 1;
    var b :| b in all - {a};
    assert a in base.exerciseTypes && b in base.exerciseTypes;
    var before := TypesNamed(base.exerciseTypes, name);
    assert {a, b} <= before;
    assert |{a, b}| == 2;
    SubsetCard({a, b}, before);
  }

  lemma DistinctConcat(a: seq<nat>, b: seq<nat>)
    requires Distinct(a) && Distinct(b)
    requires forall x :: x in b ==> x !in a
    ensures Distinct(a + b)
  {
    forall i, j | 0 <= i < j < |a + b|
      ensures (a + b)[i] != (a + b)[j]
    {
      if j < |a| {
        assert (a + b)[i] == a[i] && (a + b)[j] == a[j];
      } else if i < |a| {
        assert (a + b)[i] == a[i] && (a + b)[j] == b[j - |a|] && b[j - |a|] in b;
      } else {
        assert (a + b)[i] == b[i - |a|] && (a + b)[j] == b[j - |a|];
      }
    }
  }

  /** Creating a type under a name no type has keeps new names unique. */
  lemma AddTypeUnique(base: Tables, work: Tables, ty: ExerciseType, next: Tables)
    requires SubMap(base.exerciseTypes, work.exerciseTypes) && NewNamesUnique(base, work)
    requires TypesNamed(work.exerciseTypes, ty.name) == {} && work.nextId !in work.exerciseTypes
    requires next.exerciseTypes == work.exerciseTypes[work.nextId := ty]
    ensures SubMap(base.exerciseTypes, next.exerciseTypes) && NewNamesUnique(base, next)
  {
    forall k | k in next.exerciseTypes && k !in base.exerciseTypes
      ensures TypesNamed(next.exerciseTypes, next.exerciseTypes[k].name) == {k}
    {
      var name := next.exerciseTypes[k].name;
      if k == work.nextId {
        assert forall j :: j in TypesNamed(next.exerciseTypes, name) ==> j == k;
      } else {
        assert TypesNamed(work.exerciseTypes, name) == {k};
        assert name != ty.name;
        assert TypesNamed(next.exerciseTypes, name) == TypesNamed(work.exerciseTypes, name);
      }
    }
  }

  /** Creating a type under the next id keeps the tables valid. */
  lemma AddTypeKeeps(work: Tables, ty: ExerciseType, next: Tables)
    requires work.Valid()
    requires next == work.(exerciseTypes := work.exerciseTypes[work.nextId := ty], nextId := work.nextId + 1)
    ensures next.Valid() && Extends(work, next) && OnlyExercisesChanged(work, next)
    ensures work.nextId !in work.exerciseTypes
  {
    assert next.Ids() == work.Ids() + {work.nextId};
  }

  /** Staging an instance under the next id keeps the tables valid. */
  lemma AddInstanceKeeps(work: Tables, inst: ExerciseInstance, next: Tables)
    requires work.Valid()
    requires next == work.(instances := work.instances[work.nextId := inst], nextId := work.nextId + 1)
    ensures next.Valid() && Extends(work, next) && OnlyExercisesChanged(work, next)
    ensures next.instances.Keys == work.instances.Keys + {work.nextId} && work.nextId !in work.instances
  {
    assert next.Ids() == work.Ids() + {work.nextId};
  }

  /** The instance staged for entry `e` at position `i` of day `dayId`, of type `typeId` of `t`. */
  function NewInstance(t: Tables, typeId: nat, dayId: nat, i: nat, e: ExerciseEntry): (inst: ExerciseInstance)
    requires typeId in t.exerciseTypes
    ensures inst.currentSets == Some(inst.targetSets) && inst.currentReps == Some(inst.targetReps)
  {
    var ty := t.exerciseTypes[typeId];
    var sets, reps := e.sets.GetOr(ty.defaultSets), e.reps.GetOr(ty.defaultReps);
    ExerciseInstance(dayId, typeId, i, sets, reps, Some(sets), Some(reps), e.restSeconds, e.notes, None, None)
  }

  /** Staging the instance for an entry whose type is `typeId` builds it from the entry. */
  lemma StageInstanceKeeps(base: Tables, work: Tables, typed: Tables, typeId: nat, dayId: nat, i: nat, e: ExerciseEntry)
    requires typed.Valid() && Extends(work, typed) && OnlyExercisesChanged(work, typed)
    requires SubMap(base.exerciseTypes, typed.exerciseTypes) && NewNamesUnique(base, typed)
    requires typed.instances == work.instances
    requires typeId in typed.exerciseTypes && typed.exerciseTypes[typeId].name == e.name
    ensures var next := typed.(instances := typed.instances[typed.nextId := NewInstance(typed, typeId, dayId, i, e)],
                               nextId := typed.nextId + 1);
      && next.Valid() && Extends(work, next) && OnlyExercisesChanged(work, next)
      && SubMap(base.exerciseTypes, next.exerciseTypes) && NewNamesUnique(base, next)
      && typed.nextId !in work.instances && next.instances.Keys == work.instances.Keys + {typed.nextId}
      && InstanceBuilt(next, typed.nextId, dayId, i, e)
  {
    var next := typed.(instances := typed.instances[typed.nextId := NewInstance(typed, typeId, dayId, i, e)],
                       nextId := typed.nextId + 1);
    AddInstanceKeeps(typed, NewInstance(typed, typeId, dayId, i, e), next);
    ExtendsTransitive(work, typed, next);
  }

  /** Staging one more instance keeps the committed tables a prefix of the staged ones. */
  lemma PendingStaged(c0: Tables, c: Tables, work: Tables, typed: Tables, inst: ExerciseInstance)
    requires Pending(c0, work) && typed.Valid() && Extends(work, typed) && OnlyExercisesChanged(work, typed)
    requires (c == c0 && typed == work) || c == typed
    ensures Pending(c, typed.(instances := typed.instances[typed.nextId := inst], nextId := typed.nextId + 1))
  {
    assert typed.nextId !in typed.instances by {
      assert typed.nextId !in typed.Ids();
    }
  }

  /**
   * The find-or-create of an entry's exercise type (main.py:482-497), the
   * entries `seen` having been reached before it: one type of the entry's name
   * is reused and nothing is committed, or, when the name has none, a new type
   * is created and committed at once, which makes everything staged so far
   * durable. Fails, writing nothing, on a name that matches more than one type.
   */
  method ResolveType(db: Database, work: Tables, e: ExerciseEntry, ghost base: Tables, ghost seen: seq<ExerciseEntry>)
    returns (typed: Tables, typeId: nat, ambiguous: bool)
    modifies db
    requires work.Valid() && Pending(db.committed, work)
    requires TypesFrom(base, work, seen)
    ensures ambiguous <==> |TypesNamed(work.exerciseTypes, e.name)| >= 2
    ensures ambiguous ==> |TypesNamed(base.exerciseTypes, e.name)| >= 2 && db.committed == old(db.committed)
    ensures !ambiguous && !Creates(base.exerciseTypes, seen, e) ==>
      typed == work && db.committed == old(db.committed) && TypesNamed(work.exerciseTypes, e.name) == {typeId}
    ensures !ambiguous && Creates(base.exerciseTypes, seen, e) ==>
      && typeId == work.nextId
      && typed == work.(exerciseTypes := work.exerciseTypes[typeId := NewType(e)], nextId := work.nextId + 1)
      && db.committed == typed
    ensures !ambiguous ==>
      && typed.Valid() && Extends(work, typed) && OnlyExercisesChanged(work, typed) && typed.instances == work.instances
      && TypesFrom(base, typed, seen + [e]) && typeId in typed.exerciseTypes && typed.exerciseTypes[typeId].name == e.name
  {
    var matches := TypesNamed(work.exerciseTypes, e.name);
    typed := work;
    CreatesIff(base, work, seen, e);
    if |matches| >= 2 {
      AmbiguityIsInherited(base, work, e.name);
      return work, 0, true;
    } else if |matches| == 1 {
      typeId :| typeId in matches;
      SingleMember(matches, typeId);
      TypesFromReuse(base, work, seen, e);
    } else {
      typeId := work.nextId;
      typed := work.(exerciseTypes := work.exerciseTypes[typeId := NewType(e)], nextId := work.nextId + 1);
      AddTypeKeeps(work, NewType(e), typed);
      TypesFromCreate(base, work, seen, e, typed);
      db.committed := typed;
    }
    ambiguous := false;
  }

  /**
   * One exercise entry (main.py:482-511), reached after the entries `seen` of
   * the build: its type is found or created as `ResolveType` says, then its
   * instance is staged. Fails, writing nothing, on a name that matches more
   * than one type.
   */
  method StageExercise(db: Database, work: Tables, dayId: nat, i: nat, e: ExerciseEntry, ghost base: Tables,
                       ghost seen: seq<ExerciseEntry>)
    returns (next: Tables, x: nat, ambiguous: bool)
    modifies db
    requires work.Valid() && Pending(db.committed, work)
    requires TypesFrom(base, work, seen)
    ensures ambiguous <==> |TypesNamed(work.exerciseTypes, e.name)| >= 2
    ensures ambiguous ==> |TypesNamed(base.exerciseTypes, e.name)| >= 2 && db.committed == old(db.committed)
    ensures !ambiguous && !Creates(base.exerciseTypes, seen, e) ==> db.committed == old(db.committed)
    ensures !ambiguous && Creates(base.exerciseTypes, seen, e) ==>
      db.committed == work.(exerciseTypes := work.exerciseTypes[work.nextId := NewType(e)], nextId := work.nextId + 1)
    ensures !ambiguous ==> next.Valid() && Extends(work, next) && OnlyExercisesChanged(work, next)
    ensures !ambiguous ==> TypesFrom(base, next, seen + [e])
    ensures !ambiguous ==> Pending(db.committed, next) && Extends(old(db.committed), db.committed)
    ensures !ambiguous ==> x !in work.instances && next.instances.Keys == work.instances.Keys + {x}
    ensures !ambiguous ==> InstanceBuilt(next, x, dayId, i, e)
  {
    var typed, typeId;
    typed, typeId, ambiguous := ResolveType(db, work, e, base, seen);
    if ambiguous {
      return work, 0, true;
    }
    StageInstanceKeeps(base, work, typed, typeId, dayId, i, e);
    PendingStaged(old(db.committed), db.committed, work, typed, NewInstance(typed, typeId, dayId, i, e));
    x := typed.nextId;
    next := typed.(instances := typed.instances[x := NewInstance(typed, typeId, dayId, i, e)], nextId := typed.nextId + 1);
    TypesFromSame(base, typed, next, seen + [e]);
  }

  /**
   * `ids` are the instances staged in `work` since `work0` for the first
   * `|ids|` entries of day `dayId`, each built from its entry.
   */
  ghost predicate Staged(work0: Tables, work: Tables, dayId: nat, entries: seq<ExerciseEntry>, ids: seq<nat>) {
    && |ids| <= |entries|
    && Distinct(ids)
    && work.instances.Keys == work0.instances.Keys + Elems(ids)
    && forall j :: 0 <= j < |ids| ==> ids[j] !in work0.instances && InstanceBuilt(work, ids[j], dayId, j, entries[j])
  }

  lemma StagedStep(work0: Tables, before: Tables, work: Tables, dayId: nat, entries: seq<ExerciseEntry>, ids: seq<nat>, x: nat)
    requires Staged(work0, before, dayId, entries, ids) && |ids| < |entries|
    requires Extends(work0, before) && Extends(before, work)
    requires x !in before.instances && work.instances.Keys == before.instances.Keys + {x}
    requires InstanceBuilt(work, x, dayId, |ids|, entries[|ids|])
    ensures Staged(work0, work, dayId, entries, ids + [x])
  {
    forall j | 0 <= j < |ids|
      ensures InstanceBuilt(work, ids[j], dayId, j, entries[j])
    {
      assert InstanceBuilt(before, ids[j], dayId, j, entries[j]);
    }
    DistinctConcat(ids, [x]);
  }

  /** The staged tables of a day build, seen from the day's start `work0`. */
  ghost predicate DayProgress(work0: Tables, work: Tables, base: Tables) {
    && work.Valid() && Extends(work0, work) && OnlyExercisesChanged(work0, work)
    && SubMap(base.exerciseTypes, work.exerciseTypes) && NewNamesUnique(base, work)
  }

  /**
   * The exercises of one day, in order (main.py:480-511), staged after the
   * day's own row was committed and after the entries `seen` of earlier days.
   * Stops at the first name that matches more than one type. Either way the
   * committed instances are the day's start plus those staged before the
   * day's last new type, and the types are those the entries reached call for.
   */
  method AddExercises(db: Database, work0: Tables, dayId: nat, entries: seq<ExerciseEntry>, ghost base: Tables,
                      ghost seen: seq<ExerciseEntry>)
    returns (work: Tables, ids: seq<nat>, ambiguous: Option<string>)
    modifies db
    requires db.committed == work0 && work0.Valid()
    requires TypesFrom(base, work0, seen)
    ensures |ids| <= |entries|
    ensures ambiguous.Some? ==>
      && |ids| < |entries| && ambiguous.value == entries[|ids|].name
      && |TypesNamed(base.exerciseTypes, ambiguous.value)| >= 2
    ensures ambiguous.None? ==> |ids| == |entries|
    ensures DayState(work0, base, seen, dayId, entries, db.committed, work, ids)
  {
    work, ids, ambiguous := work0, [], None;
    assert entries[..0] == [] && seen + [] == seen;
    for i := 0 to |entries|
      invariant |ids| == i
      invariant DayState(work0, base, seen, dayId, entries, db.committed, work, ids)
    {
      var next, x, failed := StageNext(db, work0, work, dayId, entries, i, ids, base, seen);
      if failed {
        return work, ids, Some(entries[i].name);
      }
      work, ids := next, ids + [x];
    }
  }

  /**
   * Within a day's build: `work` has staged the instances `ids` for the first
   * `|ids|` entries, and `committed` holds the types those entries call for
   * and the instances staged before the day's last new type.
   */
  ghost predicate DayState(work0: Tables, base: Tables, seen: seq<ExerciseEntry>, dayId: nat, entries: seq<ExerciseEntry>,
                           committed: Tables, work: Tables, ids: seq<nat>) {
    && |ids| <= |entries|
    && DayProgress(work0, work, base) && DayProgress(work0, committed, base) && Pending(committed, work)
    && Staged(work0, work, dayId, entries, ids)
    && TypesFrom(base, committed, seen + entries[..|ids|])
    && committed.instances.Keys == work0.instances.Keys + Elems(ids[..FlushPoint(base.exerciseTypes, seen, entries[..|ids|])])
  }

  /** The next entry of the day, staged by `StageExercise`, in the terms of `DayState`. */
  method StageNext(db: Database, ghost work0: Tables, work: Tables, dayId: nat, entries: seq<ExerciseEntry>, i: nat,
                   ghost ids: seq<nat>, ghost base: Tables, ghost seen: seq<ExerciseEntry>)
    returns (next: Tables, x: nat, failed: bool)
    modifies db
    requires DayState(work0, base, seen, dayId, entries, db.committed, work, ids) && i == |ids| < |entries|
    ensures failed ==> db.committed == old(db.committed) && |TypesNamed(base.exerciseTypes, entries[i].name)| >= 2
    ensures !failed ==> DayState(work0, base, seen, dayId, entries, db.committed, next, ids + [x])
  {
    ghost var c0 := db.committed;
    TypesFromSame(base, db.committed, work, seen + entries[..i]);
    next, x, failed := StageExercise(db, work, dayId, i, entries[i], base, seen + entries[..i]);
    if !failed {
      DayStateStep(work0, base, seen, dayId, entries, c0, work, db.committed, next, ids, x);
    }
  }

  /** Staging the next entry of the day, as `StageExercise` does, keeps `DayState`. */
  lemma DayStateStep(work0: Tables, base: Tables, seen: seq<ExerciseEntry>, dayId: nat, entries: seq<ExerciseEntry>,
                     c0: Tables, before: Tables, c: Tables, work: Tables, ids: seq<nat>, x: nat)
    requires DayState(work0, base, seen, dayId, entries, c0, before, ids) && |ids| < |entries|
    requires var e, reached := entries[|ids|], seen + entries[..|ids|];
      && (!Creates(base.exerciseTypes, reached, e) ==> c == c0)
      && (Creates(base.exerciseTypes, reached, e) ==>
            c == before.(exerciseTypes := before.exerciseTypes[before.nextId := NewType(e)], nextId := before.nextId + 1))
      && work.Valid() && Extends(before, work) && OnlyExercisesChanged(before, work)
      && TypesFrom(base, work, reached + [e])
      && Pending(c, work) && Extends(c0, c)
      && x !in before.instances && work.instances.Keys == before.instances.Keys + {x}
      && InstanceBuilt(work, x, dayId, |ids|, e)
    ensures DayState(work0, base, seen, dayId, entries, c, work, ids + [x])
  {
    var i := |ids|;
    FlushStep(base.exerciseTypes, seen, entries, i);
    assert (ids + [x])[..i] == ids;
    assert entries[..|ids + [x]|] == entries[..i + 1];
    TypesFromSame(base, work, c, seen + entries[..i + 1]);
    FlushedStep(work0, before, c0, c, ids, x, i, FlushPoint(base.exerciseTypes, seen, entries[..i]),
                Creates(base.exerciseTypes, seen + entries[..i], entries[i]));
    ExerciseStepKeeps(work0, base, before, c0, work, c);
    StagedStep(work0, before, work, dayId, entries, ids, x);
  }

  /** One more staged entry keeps both the staged and the committed tables in step with the day's start. */
  lemma ExerciseStepKeeps(work0: Tables, base: Tables, before: Tables, c0: Tables, work: Tables, c: Tables)
    requires DayProgress(work0, before, base) && DayProgress(work0, c0, base)
    requires work.Valid() && Extends(before, work) && OnlyExercisesChanged(before, work)
    requires Pending(c, work) && Extends(c0, c)
    requires SubMap(base.exerciseTypes, work.exerciseTypes) && NewNamesUnique(base, work)
    ensures DayProgress(work0, work, base) && DayProgress(work0, c, base)
    ensures Extends(work0, before) && Extends(before, work)
  {
    ExtendsTransitive(work0, before, work);
    ExtendsTransitive(work0, c0, c);
  }

  /** The committed instances after one more entry: all staged so far when it created a type, else as before. */
  lemma FlushedStep(work0: Tables, before: Tables, c0: Tables, c: Tables, ids: seq<nat>, x: nat, i: nat, f: nat,
                    created: bool)
    requires |ids| == i && f <= i
    requires before.instances.Keys == work0.instances.Keys + Elems(ids)
    requires c0.instances.Keys == work0.instances.Keys + Elems(ids[..f])
    requires created ==> c.instances == before.instances
    requires !created ==> c == c0
    ensures c.instances.Keys == work0.instances.Keys + Elems((ids + [x])[..if created then i else f])
  {
    assert (ids + [x])[..i] == ids;
    assert (ids + [x])[..f] == ids[..f];
  }

  /**
   * What the plan build has made of `t0` in `t`: the plan row, the day rows of
   * `dayIds`, the first `count` days fully built, new type names unique, and
   * users and reports untouched.
   */
  ghost predicate Durable(t0: Tables, t: Tables, planId: nat, plan: Plan, days: seq<DayEntry>,
                          dayIds: seq<nat>, instanceIds: seq<seq<nat>>, count: nat) {
    && t.Valid() && Extends(t0, t) && t.users == t0.users && t.reports == t0.reports
    && planId !in t0.plans && t.plans == t0.plans[planId := plan]
    && NewNamesUnique(t0, t)
    && |dayIds| <= |days| && Distinct(dayIds) && t.planDays.Keys == t0.planDays.Keys + Elems(dayIds)
    && (forall k :: 0 <= k < |dayIds| ==> DayRow(t, planId, dayIds[k], days[k]))
    && DaysBuilt(t, planId, days, dayIds, instanceIds, count)
  }

  /** The instances of `t` are those of `t0` plus the distinct, new ids of `instanceIds`. */
  ghost predicate InstancesAdded(t0: Tables, t: Tables, instanceIds: seq<seq<nat>>) {
    && Distinct(Flatten(instanceIds))
    && t.instances.Keys == t0.instances.Keys + Elems(Flatten(instanceIds))
    && (forall x :: x in Flatten(instanceIds) ==> x !in t0.instances)
  }

  /** The number of days of `dayIds` other than the last one. */
  function AllButLast(dayIds: seq<nat>): nat {
    if dayIds == [] then 0 else |dayIds| - 1
  }

  /**
   * Between two days of the build: `work` holds every day so far fully built,
   * with exactly the instances `instanceIds` added, and `committed` holds all
   * of that except possibly the instances of the last day.
   */
  ghost predicate Building(t0: Tables, work: Tables, committed: Tables, planId: nat, plan: Plan, days: seq<DayEntry>,
                           dayIds: seq<nat>, instanceIds: seq<seq<nat>>) {
    && |dayIds| == |instanceIds| && Within(days, instanceIds)
    && Durable(t0, work, planId, plan, days, dayIds, instanceIds, |dayIds|)
    && InstancesAdded(t0, work, instanceIds)
    && Pending(committed, work) && SubMap(t0.instances, committed.instances) && t0.nextId <= committed.nextId
    && DaysBuilt(committed, planId, days, dayIds, instanceIds, AllButLast(dayIds))
    && TypesFrom(t0, work, Reached(days, instanceIds))
    && committed.instances.Keys == t0.instances.Keys + Elems(CommittedIds(t0.exerciseTypes, days, instanceIds))
  }

  /** At most one id list per day, none longer than its day's exercise entries. */
  ghost predicate Within(days: seq<DayEntry>, instanceIds: seq<seq<nat>>) {
    |instanceIds| <= |days| && forall k :: 0 <= k < |instanceIds| ==> |instanceIds[k]| <= |days[k].exercises|
  }

  /** The exercise entries the build reached, in order: of each day, one per instance id recorded for it. */
  ghost function Reached(days: seq<DayEntry>, instanceIds: seq<seq<nat>>): seq<ExerciseEntry>
    requires Within(days, instanceIds)
    decreases |instanceIds|
  {
    if instanceIds == [] then []
    else
      var n := |instanceIds| - 1;
      Reached(days, instanceIds[..n]) + days[n].exercises[..|instanceIds[n]|]
  }

  /** Where the last day reached was flushed: the instances staged before its last new type. */
  ghost function LastFlush(types0: map<nat, ExerciseType>, days: seq<DayEntry>, instanceIds: seq<seq<nat>>): (r: nat)
    requires Within(days, instanceIds) && instanceIds != []
    ensures r <= |instanceIds[|instanceIds| - 1]|
  {
    var n := |instanceIds| - 1;
    FlushPoint(types0, Reached(days, instanceIds[..n]), days[n].exercises[..|instanceIds[n]|])
  }

  /**
   * The instances durable at a stop: all of every day before the last one
   * reached (the next day's row commit flushed them), and of the last day
   * those staged before its last new type was committed.
   */
  ghost function CommittedIds(types0: map<nat, ExerciseType>, days: seq<DayEntry>, instanceIds: seq<seq<nat>>): seq<nat>
    requires Within(days, instanceIds)
  {
    if instanceIds == [] then []
    else Flatten(instanceIds[..|instanceIds| - 1]) + instanceIds[|instanceIds| - 1][..LastFlush(types0, days, instanceIds)]
  }

  /**
   * The committed tables `t` after a build from `t0` stopped: the plan row and
   * every day row reached, every day but the last fully built, exactly the
   * types the reached entries call for, and exactly the instances
   * `CommittedIds`, those of the last day built from their entries.
   */
  ghost predicate Stopped(t0: Tables, t: Tables, planId: nat, plan: Plan, days: seq<DayEntry>,
                          dayIds: seq<nat>, instanceIds: seq<seq<nat>>) {
    && |dayIds| == |instanceIds| && Within(days, instanceIds)
    && Durable(t0, t, planId, plan, days, dayIds, instanceIds, AllButLast(dayIds))
    && TypesFrom(t0, t, Reached(days, instanceIds))
    && t.instances.Keys == t0.instances.Keys + Elems(CommittedIds(t0.exerciseTypes, days, instanceIds))
    && (dayIds != [] ==>
          var n := |dayIds| - 1;
          forall j :: 0 <= j < LastFlush(t0.exerciseTypes, days, instanceIds) ==>
            InstanceBuilt(t, instanceIds[n][j], dayIds[n], j, days[n].exercises[j]))
  }

  lemma ElemsConcat(a: seq<nat>, b: seq<nat>)
    ensures Elems(a + b) == Elems(a) + Elems(b)
  {
  }

  /** One more day's id list extends the entries reached and the durable instances by that day's. */
  lemma ReachedSnoc(types0: map<nat, ExerciseType>, days: seq<DayEntry>, instanceIds: seq<seq<nat>>, ids: seq<nat>)
    requires Within(days, instanceIds) && |instanceIds| < |days| && |ids| <= |days[|instanceIds|].exercises|
    ensures Within(days, instanceIds + [ids])
    ensures Reached(days, instanceIds + [ids]) == Reached(days, instanceIds) + days[|instanceIds|].exercises[..|ids|]
    ensures LastFlush(types0, days, instanceIds + [ids]) ==
            FlushPoint(types0, Reached(days, instanceIds), days[|instanceIds|].exercises[..|ids|])
    ensures CommittedIds(types0, days, instanceIds + [ids]) == Flatten(instanceIds) + ids[..LastFlush(types0, days, instanceIds + [ids])]
  {
    assert (instanceIds + [ids])[..|instanceIds|] == instanceIds;
  }

  /**
   * After a day's exercises were staged from `work` (whose instances are those
   * of the earlier days): the id lists, the entries reached, the types and the
   * committed instances, in the terms of the whole build.
   */
  lemma DayReached(t0: Tables, work: Tables, committed: Tables, days: seq<DayEntry>, instanceIds: seq<seq<nat>>, ids: seq<nat>)
    requires Within(days, instanceIds) && |instanceIds| < |days| && |ids| <= |days[|instanceIds|].exercises|
    requires InstancesAdded(t0, work, instanceIds)
    requires TypesFrom(t0, committed, Reached(days, instanceIds) + days[|instanceIds|].exercises[..|ids|])
    requires committed.instances.Keys ==
             work.instances.Keys + Elems(ids[..FlushPoint(t0.exerciseTypes, Reached(days, instanceIds), days[|instanceIds|].exercises[..|ids|])])
    ensures Within(days, instanceIds + [ids])
    ensures TypesFrom(t0, committed, Reached(days, instanceIds + [ids]))
    ensures committed.instances.Keys == t0.instances.Keys + Elems(CommittedIds(t0.exerciseTypes, days, instanceIds + [ids]))
  {
    ReachedSnoc(t0.exerciseTypes, days, instanceIds, ids);
    var f := LastFlush(t0.exerciseTypes, days, instanceIds + [ids]);
    ElemsConcat(Flatten(instanceIds), ids[..f]);
  }

  /** A committed instance reads as the staged one, so it was built from the same entry. */
  lemma BuiltCommitted(committed: Tables, work: Tables, x: nat, dayId: nat, i: nat, e: ExerciseEntry)
    requires Pending(committed, work) && x in committed.instances && InstanceBuilt(work, x, dayId, i, e)
    ensures InstanceBuilt(committed, x, dayId, i, e)
  {
  }

  /** A build stopped between two days has committed what `Stopped` says. */
  lemma StoppedFromBuilding(t0: Tables, work: Tables, committed: Tables, planId: nat, plan: Plan, days: seq<DayEntry>,
                            dayIds: seq<nat>, instanceIds: seq<seq<nat>>)
    requires Building(t0, work, committed, planId, plan, days, dayIds, instanceIds)
    ensures Stopped(t0, committed, planId, plan, days, dayIds, instanceIds)
  {
    PendingDurable(t0, work, committed, planId, plan, days, dayIds, instanceIds);
    TypesFromSame(t0, work, committed, Reached(days, instanceIds));
    if dayIds != [] {
      var n := |dayIds| - 1;
      assert DayBuilt(work, planId, dayIds[n], days[n], instanceIds[n]);
      LastDayCommitted(t0, work, committed, days, dayIds, instanceIds);
    }
  }

  /** The types predicate reads only the type tables. */
  lemma TypesFromSame(t0: Tables, a: Tables, b: Tables, seen: seq<ExerciseEntry>)
    requires TypesFrom(t0, a, seen) && a.exerciseTypes == b.exerciseTypes
    ensures TypesFrom(t0, b, seen)
  {
    assert NewNamesUnique(t0, b);
  }

  /** The last day's instances staged before its last new type are among the durable ones. */
  lemma InCommittedIds(types0: map<nat, ExerciseType>, days: seq<DayEntry>, instanceIds: seq<seq<nat>>, j: nat)
    requires Within(days, instanceIds) && instanceIds != [] && j < LastFlush(types0, days, instanceIds)
    ensures instanceIds[|instanceIds| - 1][j] in Elems(CommittedIds(types0, days, instanceIds))
  {
    var n := |instanceIds| - 1;
    var a := Flatten(instanceIds[..n]);
    var b := instanceIds[n][..LastFlush(types0, days, instanceIds)];
    assert CommittedIds(types0, days, instanceIds) == a + b;
    assert (a + b)[|a| + j] == instanceIds[n][j];
  }

  /** The durable instances of the last day read as the staged ones, built from their entries. */
  lemma LastDayCommitted(t0: Tables, work: Tables, committed: Tables, days: seq<DayEntry>, dayIds: seq<nat>,
                         instanceIds: seq<seq<nat>>)
    requires Pending(committed, work) && Within(days, instanceIds) && |dayIds| == |instanceIds| && dayIds != []
    requires committed.instances.Keys == t0.instances.Keys + Elems(CommittedIds(t0.exerciseTypes, days, instanceIds))
    requires var n := |dayIds| - 1;
      forall j :: 0 <= j < |instanceIds[n]| ==> InstanceBuilt(work, instanceIds[n][j], dayIds[n], j, days[n].exercises[j])
    ensures var n := |dayIds| - 1;
      forall j :: 0 <= j < LastFlush(t0.exerciseTypes, days, instanceIds) ==>
        InstanceBuilt(committed, instanceIds[n][j], dayIds[n], j, days[n].exercises[j])
  {
    var n := |dayIds| - 1;
    forall j | 0 <= j < LastFlush(t0.exerciseTypes, days, instanceIds)
      ensures InstanceBuilt(committed, instanceIds[n][j], dayIds[n], j, days[n].exercises[j])
    {
      InCommittedIds(t0.exerciseTypes, days, instanceIds, j);
      BuiltCommitted(committed, work, instanceIds[n][j], dayIds[n], j, days[n].exercises[j]);
    }
  }

  /** What `committed` holds at a failure: the build so far, less the staged instances of the last day. */
  lemma PendingDurable(t0: Tables, work: Tables, committed: Tables, planId: nat, plan: Plan, days: seq<DayEntry>,
                       dayIds: seq<nat>, instanceIds: seq<seq<nat>>)
    requires Building(t0, work, committed, planId, plan, days, dayIds, instanceIds)
    ensures Durable(t0, committed, planId, plan, days, dayIds, instanceIds, AllButLast(dayIds))
  {
    forall k | 0 <= k < |dayIds|
      ensures DayRow(committed, planId, dayIds[k], days[k])
    {
      assert DayRow(work, planId, dayIds[k], days[k]);
    }
  }

  lemma DaysBuiltExtend(t: Tables, planId: nat, days: seq<DayEntry>, dayIds: seq<nat>, instanceIds: seq<seq<nat>>,
                        ids: seq<nat>)
    requires |dayIds| == |instanceIds| + 1 && |dayIds| <= |days|
    requires DaysBuilt(t, planId, days, dayIds, instanceIds, |instanceIds|)
    requires DayBuilt(t, planId, dayIds[|dayIds| - 1], days[|dayIds| - 1], ids)
    ensures DaysBuilt(t, planId, days, dayIds, instanceIds + [ids], |dayIds|)
  {
    var all := instanceIds + [ids];
    forall k | 0 <= k < |dayIds|
      ensures DayBuilt(t, planId, dayIds[k], days[k], all[k])
    {
      if k < |instanceIds| {
        assert all[k] == instanceIds[k];
      }
    }
  }

  lemma FlattenSnoc(ss: seq<seq<nat>>, s: seq<nat>)
    ensures Flatten(ss + [s]) == Flatten(ss) + s
  {
    assert (ss + [s])[..|ss|] == ss;
  }

  /** The instance ids of one more day extend a duplicate-free list of fresh ids. */
  lemma FreshIdsExtend(t0: Tables, start: Tables, next: Tables, instanceIds: seq<seq<nat>>, ids: seq<nat>)
    requires InstancesAdded(t0, start, instanceIds) && Distinct(ids)
    requires next.instances.Keys == start.instances.Keys + Elems(ids)
    requires forall i :: 0 <= i < |ids| ==> ids[i] !in start.instances
    ensures InstancesAdded(t0, next, instanceIds + [ids])
  {
    FlattenSnoc(instanceIds, ids);
    DistinctConcat(Flatten(instanceIds), ids);
  }

  /** The tables with a day row added under the next id. */
  function AddDay(work: Tables, planId: nat, d: DayEntry): (next: Tables)
    ensures next.nextId == work.nextId + 1 && work.nextId in next.planDays
  {
    work.(planDays := work.planDays[work.nextId := PlanDay(planId, d.dayNumber, d.title, d.restDay)],
          nextId := work.nextId + 1)
  }

  lemma AddDayKeeps(work: Tables, planId: nat, d: DayEntry)
    requires work.Valid()
    ensures AddDay(work, planId, d).Valid() && Extends(work, AddDay(work, planId, d))
    ensures AddDay(work, planId, d).instances == work.instances && work.nextId !in work.planDays
  {
    assert AddDay(work, planId, d).Ids() == work.Ids() + {work.nextId};
  }

  /** A day row under the next id keeps the build's facts, with one more day row. */
  lemma DurableAddDay(t0: Tables, work: Tables, planId: nat, plan: Plan, days: seq<DayEntry>,
                      dayIds: seq<nat>, instanceIds: seq<seq<nat>>, count: nat)
    requires Durable(t0, work, planId, plan, days, dayIds, instanceIds, count) && |dayIds| < |days|
    ensures Durable(t0, AddDay(work, planId, days[|dayIds|]), planId, plan, days, dayIds + [work.nextId], instanceIds, count)
  {
    var next := AddDay(work, planId, days[|dayIds|]);
    AddDayKeeps(work, planId, days[|dayIds|]);
    ExtendsTransitive(t0, work, next);
    DaysBuiltKept(work, next, planId, days, dayIds, instanceIds, count);
    DistinctConcat(dayIds, [work.nextId]);
    var ids := dayIds + [work.nextId];
    forall k | 0 <= k < |ids|
      ensures DayRow(next, planId, ids[k], days[k])
    {
      if k < |dayIds| {
        assert ids[k] == dayIds[k] && DayRow(work, planId, ids[k], days[k]);
      }
    }
  }

  lemma DurableExercisesAdded(t0: Tables, a: Tables, b: Tables, planId: nat, plan: Plan,
                              days: seq<DayEntry>, dayIds: seq<nat>, instanceIds: seq<seq<nat>>, count: nat)
    requires Durable(t0, a, planId, plan, days, dayIds, instanceIds, count)
    requires DayProgress(a, b, t0)
    ensures Durable(t0, b, planId, plan, days, dayIds, instanceIds, count)
  {
    ExtendsTransitive(t0, a, b);
    DaysBuiltKept(a, b, planId, days, dayIds, instanceIds, count);
    forall k | 0 <= k < |dayIds|
      ensures DayRow(b, planId, dayIds[k], days[k])
    {
      assert DayRow(a, planId, dayIds[k], days[k]);
    }
  }

  /** A day whose exercises were all staged extends the build by one fully built day. */
  lemma DayStaged(t0: Tables, work: Tables, withDay: Tables, committed: Tables, staged: Tables, planId: nat, plan: Plan,
                  days: seq<DayEntry>, dayIds: seq<nat>, instanceIds: seq<seq<nat>>, ids: seq<nat>)
    requires |dayIds| < |days| && |dayIds| == |instanceIds|
    requires Durable(t0, withDay, planId, plan, days, dayIds + [work.nextId], instanceIds, |dayIds|)
    requires InstancesAdded(t0, work, instanceIds) && withDay.instances == work.instances
    requires DayProgress(withDay, committed, t0) && DayProgress(withDay, staged, t0) && Pending(committed, staged)
    requires |ids| == |days[|dayIds|].exercises| && Staged(withDay, staged, work.nextId, days[|dayIds|].exercises, ids)
    requires Within(days, instanceIds + [ids]) && TypesFrom(t0, staged, Reached(days, instanceIds + [ids]))
    requires committed.instances.Keys == t0.instances.Keys + Elems(CommittedIds(t0.exerciseTypes, days, instanceIds + [ids]))
    ensures Building(t0, staged, committed, planId, plan, days, dayIds + [work.nextId], instanceIds + [ids])
  {
    var dayIds' := dayIds + [work.nextId];
    DurableExercisesAdded(t0, withDay, staged, planId, plan, days, dayIds', instanceIds, |dayIds|);
    DurableExercisesAdded(t0, withDay, committed, planId, plan, days, dayIds', instanceIds, |dayIds|);
    assert DayRow(staged, planId, dayIds'[|dayIds|], days[|dayIds|]);
    assert DayBuilt(staged, planId, work.nextId, days[|dayIds|], ids);
    DaysBuiltExtend(staged, planId, days, dayIds', instanceIds, ids);
    FreshIdsExtend(t0, withDay, staged, instanceIds, ids);
  }

  /** Instance ids recorded for a day beyond the first `count` do not affect the build's facts. */
  lemma DurableMoreIds(t0: Tables, t: Tables, planId: nat, plan: Plan, days: seq<DayEntry>, dayIds: seq<nat>,
                       instanceIds: seq<seq<nat>>, ids: seq<nat>, count: nat)
    requires Durable(t0, t, planId, plan, days, dayIds, instanceIds, count)
    ensures Durable(t0, t, planId, plan, days, dayIds, instanceIds + [ids], count)
  {
    forall k | 0 <= k < count
      ensures DayBuilt(t, planId, dayIds[k], days[k], (instanceIds + [ids])[k])
    {
      assert (instanceIds + [ids])[k] == instanceIds[k];
    }
  }

  /**
   * Why the build stopped at the last day of `instanceIds`: that day was cut
   * short with all its exercises staged, or its next entry names more than
   * one type of `types0`.
   */
  ghost predicate StopReason(types0: map<nat, ExerciseType>, days: seq<DayEntry>, instanceIds: seq<seq<nat>>, outcome: Outcome) {
    var n := |instanceIds| - 1;
    && 0 <= n < |days|
    && !outcome.Built?
    && (outcome.Incomplete? ==> !days[n].complete && |instanceIds[n]| == |days[n].exercises|)
    && (outcome.AmbiguousType? ==>
          && |instanceIds[n]| < |days[n].exercises| && days[n].exercises[|instanceIds[n]|].name == outcome.name
          && |TypesNamed(types0, outcome.name)| >= 2)
  }

  /**
   * One day of the build (main.py:468-511): its row is added and committed,
   * which makes every earlier day's instances durable, then its exercises are
   * staged. Reports a stop at the first ambiguous type name or, once its
   * exercises are staged, at a day the draft left incomplete; a stop leaves
   * committed what `Stopped` says, and `ids` are the instances staged for the
   * day.
   */
  method BuildDay(db: Database, work: Tables, ghost t0: Tables, planId: nat, ghost plan: Plan, ghost days: seq<DayEntry>,
                  ghost dayIds: seq<nat>, ghost instanceIds: seq<seq<nat>>, d: DayEntry)
    returns (next: Tables, dayId: nat, ids: seq<nat>, stop: Option<Outcome>)
    modifies db
    requires |dayIds| < |days| && d == days[|dayIds|]
    requires Building(t0, work, db.committed, planId, plan, days, dayIds, instanceIds)
    ensures stop.Some? ==> StopReason(t0.exerciseTypes, days, instanceIds + [ids], stop.value)
    ensures stop.Some? ==> Stopped(t0, db.committed, planId, plan, days, dayIds + [dayId], instanceIds + [ids])
    ensures stop.None? ==> d.complete
    ensures stop.None? ==> Building(t0, next, db.committed, planId, plan, days, dayIds + [dayId], instanceIds + [ids])
  {
    dayId := work.nextId;
    var withDay := AddDay(work, planId, d);
    DurableAddDay(t0, work, planId, plan, days, dayIds, instanceIds, |dayIds|);
    db.committed := withDay;
    var staged, ambiguous;
    staged, ids, ambiguous := AddExercises(db, withDay, dayId, d.exercises, t0, Reached(days, instanceIds));
    DayReached(t0, work, db.committed, days, instanceIds, ids);
    assert (instanceIds + [ids])[|instanceIds|] == ids;
    if ambiguous.Some? {
      AmbiguousStop(t0, work, withDay, db.committed, staged, planId, plan, days, dayIds, instanceIds, ids);
      return work, dayId, ids, Some(AmbiguousType(ambiguous.value));
    }
    next := staged;
    DayStaged(t0, work, withDay, db.committed, next, planId, plan, days, dayIds, instanceIds, ids);
    if !d.complete {
      StoppedFromBuilding(t0, next, db.committed, planId, plan, days, dayIds + [dayId], instanceIds + [ids]);
      return next, dayId, ids, Some(Incomplete);
    }
    stop := None;
  }

  /** A day stopped at an ambiguous name has committed what `Stopped` says. */
  lemma AmbiguousStop(t0: Tables, work: Tables, withDay: Tables, committed: Tables, staged: Tables, planId: nat,
                      plan: Plan, days: seq<DayEntry>, dayIds: seq<nat>, instanceIds: seq<seq<nat>>, ids: seq<nat>)
    requires |dayIds| < |days| && |dayIds| == |instanceIds|
    requires Durable(t0, withDay, planId, plan, days, dayIds + [work.nextId], instanceIds, |dayIds|)
    requires withDay.instances == work.instances
    requires DayProgress(withDay, committed, t0) && Pending(committed, staged)
    requires Staged(withDay, staged, work.nextId, days[|dayIds|].exercises, ids)
    requires Within(days, instanceIds + [ids]) && TypesFrom(t0, committed, Reached(days, instanceIds + [ids]))
    requires committed.instances.Keys == t0.instances.Keys + Elems(CommittedIds(t0.exerciseTypes, days, instanceIds + [ids]))
    ensures Stopped(t0, committed, planId, plan, days, dayIds + [work.nextId], instanceIds + [ids])
  {
    var dayIds' := dayIds + [work.nextId];
    DurableExercisesAdded(t0, withDay, committed, planId, plan, days, dayIds', instanceIds, |dayIds|);
    DurableMoreIds(t0, committed, planId, plan, days, dayIds', instanceIds, ids, |dayIds|);
    var all := instanceIds + [ids];
    assert all[|dayIds|] == ids && dayIds'[|dayIds|] == work.nextId;
    LastDayCommitted(t0, staged, committed, days, dayIds', all);
  }

  lemma AddPlanKeeps(t0: Tables, plan: Plan, work: Tables)
    requires t0.Valid()
    requires work == t0.(plans := t0.plans[t0.nextId := plan], nextId := t0.nextId + 1)
    ensures work.Valid() && Extends(t0, work) && t0.nextId !in t0.plans
  {
    assert work.Ids() == t0.Ids() + {t0.nextId};
  }

  /** Right after the plan row is committed, the build has begun with no days. */
  lemma BuildingStart(t0: Tables, planId: nat, plan: Plan, days: seq<DayEntry>, work: Tables)
    requires t0.Valid() && planId == t0.nextId
    requires work == t0.(plans := t0.plans[planId := plan], nextId := t0.nextId + 1)
    ensures Building(t0, work, work, planId, plan, days, [], [])
  {
    AddPlanKeeps(t0, plan, work);
    assert Elems([]) == {} && Flatten([]) == [];
    assert NewNamesUnique(t0, work);
    assert Reached(days, []) == [] && CommittedIds(t0.exerciseTypes, days, []) == [];
  }

  /**
   * The days of the build, in order (main.py:468-511), after the plan row was
   * committed. Stops after the first day that the draft left incomplete or
   * whose exercises name an ambiguous type, every earlier day being complete.
   */
  method BuildDays(db: Database, work0: Tables, ghost t0: Tables, planId: nat, ghost plan: Plan, days: seq<DayEntry>)
    returns (work: Tables, dayIds: seq<nat>, instanceIds: seq<seq<nat>>, outcome: Outcome)
    modifies db
    requires Building(t0, work0, db.committed, planId, plan, days, [], [])
    ensures |dayIds| == |instanceIds|
    ensures outcome.Built? ==> |dayIds| == |days| && forall k :: 0 <= k < |days| ==> days[k].complete
    ensures outcome.Built? ==> Building(t0, work, db.committed, planId, plan, days, dayIds, instanceIds)
    ensures !outcome.Built? ==>
      && StopReason(t0.exerciseTypes, days, instanceIds, outcome)
      && Stopped(t0, db.committed, planId, plan, days, dayIds, instanceIds)
      && forall k :: 0 <= k < |dayIds| - 1 ==> days[k].complete
  {
    work, dayIds, instanceIds := work0, [], [];
    for j := 0 to |days|
      invariant |dayIds| == j == |instanceIds|
      invariant Building(t0, work, db.committed, planId, plan, days, dayIds, instanceIds)
      invariant forall k :: 0 <= k < j ==> days[k].complete
    {
      var dayId, ids, stop;
      work, dayId, ids, stop := BuildDay(db, work, t0, planId, plan, days, dayIds, instanceIds, days[j]);
      dayIds, instanceIds := dayIds + [dayId], instanceIds + [ids];
      if stop.Some? {
        return work, dayIds, instanceIds, stop.value;
      }
      CompleteSnoc(days, j);
    }
    outcome := Built;
  }

  /**
   * Why a build whose last day reached is the last of `instanceIds` stopped
   * there: that day was cut short with all its exercises staged, or every day
   * was whole and the document was cut short after them, or the next entry of
   * that day names more than one type of `types0`.
   */
  ghost predicate StoppedAt(types0: map<nat, ExerciseType>, entry: PlanEntry, instanceIds: seq<seq<nat>>) {
    var n := |instanceIds| - 1;
    && |instanceIds| <= |entry.days|
    && (|| (0 <= n && !entry.days[n].complete && |instanceIds[n]| == |entry.days[n].exercises|)
        || (|instanceIds| == |entry.days| && (forall k :: 0 <= k < |entry.days| ==> entry.days[k].complete)
            && !entry.complete)
        || (0 <= n && |instanceIds[n]| < |entry.days[n].exercises|
            && |TypesNamed(types0, entry.days[n].exercises[|instanceIds[n]|].name)| >= 2))
  }

  lemma CompleteSnoc(days: seq<DayEntry>, j: nat)
    requires j < |days| && days[j].complete && forall k :: 0 <= k < j ==> days[k].complete
    ensures forall k :: 0 <= k < j + 1 ==> days[k].complete
  {
  }

  /**
   * The tree build of `generate_workout_plan` (main.py:456-513): the Plan row
   * is committed first, then each PlanDay is committed before its exercises
   * are staged, and a final commit follows the last day. It stops at the first
   * entry the source fails on. What stays committed is then exactly what the
   * commits so far made durable (`Stopped`): the plan, every day row reached,
   * a new type for each new name reached, all instances of every day but the
   * last one reached, and those of the last day staged before its last new
   * type.
   */
  method BuildPlan(db: Database, userId: int, entry: PlanEntry, totalDays: int, now: int)
    returns (planId: nat, dayIds: seq<nat>, instanceIds: seq<seq<nat>>, outcome: Outcome)
    modifies db
    requires db.committed.Valid()
    ensures Durable(old(db.committed), db.committed, planId, Plan(userId, entry.title, entry.description, totalDays, true, now),
                    entry.days, dayIds, instanceIds, if outcome.Built? then |dayIds| else AllButLast(dayIds))
    ensures outcome.Built? ==> entry.complete && forall k :: 0 <= k < |entry.days| ==> entry.days[k].complete
    ensures outcome.Built? ==> |dayIds| == |entry.days| == |instanceIds|
    ensures outcome.Built? ==> InstancesAdded(old(db.committed), db.committed, instanceIds)
    ensures outcome.Built? ==>
      Within(entry.days, instanceIds) && TypesFrom(old(db.committed), db.committed, Reached(entry.days, instanceIds))
    ensures !outcome.Built? ==>
      && Stopped(old(db.committed), db.committed, planId, Plan(userId, entry.title, entry.description, totalDays, true, now),
                 entry.days, dayIds, instanceIds)
      && forall k :: 0 <= k < AllButLast(dayIds) ==> entry.days[k].complete
    ensures !outcome.Built? ==> StoppedAt(old(db.committed).exerciseTypes, entry, instanceIds)
    ensures outcome.Incomplete? ==>
      || StopReason(old(db.committed).exerciseTypes, entry.days, instanceIds, outcome)
      || (|dayIds| == |entry.days| && (forall k :: 0 <= k < |entry.days| ==> entry.days[k].complete) && !entry.complete)
    ensures outcome.AmbiguousType? ==> StopReason(old(db.committed).exerciseTypes, entry.days, instanceIds, outcome)
    ensures |dayIds| == |instanceIds|
  {
    var t0 := db.committed;
    var plan := Plan(userId, entry.title, entry.description, totalDays, true, now);
    planId := t0.nextId;
    var work := t0.(plans := t0.plans[planId := plan], nextId := t0.nextId + 1);
    BuildingStart(t0, planId, plan, entry.days, work);
    db.committed := work;
    work, dayIds, instanceIds, outcome := BuildDays(db, work, t0, planId, plan, entry.days);
    if outcome.Built? {
      if !entry.complete {
        StoppedFromBuilding(t0, work, db.committed, planId, plan, entry.days, dayIds, instanceIds);
        outcome := Incomplete;
      } else {
        db.committed := work;
      }
    }
  }
}
