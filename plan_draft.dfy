/**
 * The reads `generate_workout_plan` makes from the parsed model document, made
 * explicit: each field with its named default, in the order the source reads
 * them, stopping at the first entry the source would fail on.
 *
 * A field whose value has the wrong JSON type, or is null where the column is
 * NOT NULL, makes its entry fail.
 */
module PlanDraft {
  import opened Wrappers
  import opened Text
  import opened Json

  const DefaultExerciseName := "Unknown Exercise"
  /** Defaults of a newly created exercise type (`exercise_data.get("sets", 3)` and `.get("reps", 10)`). */
  const DefaultTypeSets := 3
  const DefaultTypeReps := 10
  const DefaultRestSeconds := 60
  const DefaultDayNumber := 1
  const DefaultPlanDescription := "AI-generated workout plan"

  /** The title of a plan whose document has no `plan_title`. */
  function DefaultPlanTitle(userName: string): string {
    "AI Plan for " + userName
  }

  /** The title of a day whose entry has no `title`. */
  function DefaultDayTitle(dayNumber: int): string {
    "Day " + IntToString(dayNumber)
  }

  /**
   * One exercise entry. `sets`/`reps` are `None` when absent (the instance then
   * takes the exercise type's defaults); `equipmentNeeded`, `restSeconds`,
   * `primaryMuscle` and `notes` are `None` when the stored column is NULL.
   */
  datatype ExerciseEntry = ExerciseEntry(
    name: string, primaryMuscle: Option<string>, equipmentNeeded: Option<bool>,
    sets: Option<int>, reps: Option<int>, restSeconds: Option<int>, notes: Option<string>)

  /**
   * One day entry with the exercises read before the first failing one;
   * `complete` is false when reading this day's exercises failed.
   */
  datatype DayEntry = DayEntry(
    dayNumber: int, title: Option<string>, restDay: bool,
    exercises: seq<ExerciseEntry>, complete: bool)

  /** The plan document, with the days read before the first failing one. */
  datatype PlanEntry = PlanEntry(title: string, description: Option<string>, days: seq<DayEntry>, complete: bool)

  /** `.get(key, default)` into a NOT NULL text column. */
  function TextField(m: map<string, Json>, key: string, default: string): (r: Option<string>)
    ensures key !in m ==> r == Some(default)
  {
    if key !in m then Some(default)
    else match m[key]
      case JStr(s) => Some(s)
      case _ => None
  }

  /** `.get(key, default)` into a nullable text column. */
  function NullableTextField(m: map<string, Json>, key: string, default: Option<string>): (r: Option<Option<string>>)
    ensures key !in m ==> r == Some(default)
  {
    if key !in m then Some(default)
    else match m[key]
      case JStr(s) => Some(Some(s))
      case JNull => Some(None)
      case _ => None
  }

  /** `.get(key, default)` into a NOT NULL integer column. */
  function IntegerField(m: map<string, Json>, key: string, default: int): (r: Option<int>)
    ensures key !in m ==> r == Some(default)
  {
    if key !in m then Some(default)
    else match m[key]
      case JNum(n) => Some(n)
      case _ => None
  }

  /** An integer read whose default is decided later: `Some(None)` when absent. */
  function PresentIntegerField(m: map<string, Json>, key: string): (r: Option<Option<int>>)
    ensures key !in m ==> r == Some(None)
  {
    if key !in m then Some(None)
    else match m[key]
      case JNum(n) => Some(Some(n))
      case _ => None
  }

  /** `.get(key, default)` into a nullable integer column. */
  function NullableIntegerField(m: map<string, Json>, key: string, default: Option<int>): (r: Option<Option<int>>)
    ensures key !in m ==> r == Some(default)
  {
    if key !in m then Some(default)
    else match m[key]
      case JNum(n) => Some(Some(n))
      case JNull => Some(None)
      case _ => None
  }

  /** `.get(key, default)` into a NOT NULL boolean column. */
  function FlagField(m: map<string, Json>, key: string, default: bool): (r: Option<bool>)
    ensures key !in m ==> r == Some(default)
  {
    if key !in m then Some(default)
    else match m[key]
      case JBool(b) => Some(b)
      case _ => None
  }

  /** `.get(key, default)` into a nullable boolean column. */
  function NullableFlagField(m: map<string, Json>, key: string, default: Option<bool>): (r: Option<Option<bool>>)
    ensures key !in m ==> r == Some(default)
  {
    if key !in m then Some(default)
    else match m[key]
      case JBool(b) => Some(Some(b))
      case JNull => Some(None)
      case _ => None
  }

  /** One exercise entry; `None` when the source fails on it (it is not an object, or a field is unusable). */
  function ReadExercise(v: Json): (r: Option<ExerciseEntry>)
    ensures r.Some? ==> v.JObj?
    ensures r.Some? ==> var m := v.fields;
      && ("name" !in m ==> r.value.name == DefaultExerciseName)
      && ("sets" !in m ==> r.value.sets.None?)
      && ("reps" !in m ==> r.value.reps.None?)
      && ("rest_seconds" !in m ==> r.value.restSeconds == Some(DefaultRestSeconds))
      && ("equipment_needed" !in m ==> r.value.equipmentNeeded == Some(false))
      && ("primary_muscle" !in m ==> r.value.primaryMuscle.None?)
      && ("notes" !in m ==> r.value.notes.None?)
    ensures v.JObj? && (forall k :: k in v.fields ==> v.fields[k].JStr?) ==>
      (r.Some? <==> "sets" !in v.fields && "reps" !in v.fields && "rest_seconds" !in v.fields &&
                    "equipment_needed" !in v.fields)
  {
    match v
    case JObj(m) =>
      var name :- TextField(m, "name", DefaultExerciseName);
      var muscle :- NullableTextField(m, "primary_muscle", None);
      var equipment :- NullableFlagField(m, "equipment_needed", Some(false));
      var sets :- PresentIntegerField(m, "sets");
      var reps :- PresentIntegerField(m, "reps");
      var rest :- NullableIntegerField(m, "rest_seconds", Some(DefaultRestSeconds));
      var notes :- NullableTextField(m, "notes", None);
      Some(ExerciseEntry(name, muscle, equipment, sets, reps, rest, notes))
    case _ => None
  }

  /**
   * The exercise entries read before the first failing one: every item before
   * it is read successfully, and `complete` says no item failed.
   */
  function ReadExercises(items: seq<Json>): (r: (seq<ExerciseEntry>, bool))
    ensures |r.0| <= |items|
    ensures forall i :: 0 <= i < |r.0| ==> ReadExercise(items[i]) == Some(r.0[i])
    ensures r.1 <==> |r.0| == |items|
    ensures !r.1 ==> ReadExercise(items[|r.0|]).None?
  {
    if items == [] then ([], true)
    else match ReadExercise(items[0])
      case None => ([], false)
      case Some(e) =>
        var rest := ReadExercises(items[1..]);
        ([e] + rest.0, rest.1)
  }

  /**
   * One day: its own fields first (a failure there means the day row is never
   * created), then its exercises (read after the day row is committed).
   */
  function ReadDay(v: Json): (r: Option<DayEntry>)
    ensures r.Some? ==> v.JObj?
    ensures r.Some? ==> var m := v.fields;
      && ("day_number" !in m ==> r.value.dayNumber == DefaultDayNumber)
      && ("title" !in m ==> r.value.title == Some(DefaultDayTitle(r.value.dayNumber)))
      && ("rest_day" !in m ==> !r.value.restDay)
      && ("exercises" !in m ==> r.value.exercises == [] && r.value.complete)
    ensures r.Some? && r.value.complete ==>
      var items := Elements(Lookup(v.fields, "exercises").GetOr(JArr([])));
      items.Some? && |r.value.exercises| == |items.value|
  {
    if !v.JObj? then None
    else
      var m := v.fields;
      var number :- IntegerField(m, "day_number", DefaultDayNumber);
      var title :- NullableTextField(m, "title", Some(DefaultDayTitle(number)));
      var rest :- FlagField(m, "rest_day", false);
      match Elements(Lookup(m, "exercises").GetOr(JArr([])))
      case None => Some(DayEntry(number, title, rest, [], false))
      case Some(items) =>
        var exercises := ReadExercises(items);
        Some(DayEntry(number, title, rest, exercises.0, exercises.1))
  }

  /**
   * The days read before the first failure: a day whose own fields fail is
   * left out, a day whose exercises fail is the last one, incomplete.
   */
  function ReadDays(items: seq<Json>): (r: (seq<DayEntry>, bool))
    ensures |r.0| <= |items|
    ensures forall i :: 0 <= i < |r.0| ==> ReadDay(items[i]) == Some(r.0[i])
    ensures forall i :: 0 <= i < |r.0| - 1 ==> r.0[i].complete
    ensures r.1 <==> |r.0| == |items| && forall i :: 0 <= i < |r.0| ==> r.0[i].complete
  {
    if items == [] then ([], true)
    else match ReadDay(items[0])
      case None => ([], false)
      case Some(d) =>
        if !d.complete then ([d], false)
        else
          var rest := ReadDays(items[1..]);
          ([d] + rest.0, rest.1)
  }

  /**
   * The plan document: `None` when the plan row cannot be created (the
   * document is not an object or its title/description is unusable).
   */
  function ReadPlan(doc: Json, userName: string): (r: Option<PlanEntry>)
    ensures r.Some? ==> doc.JObj?
    ensures r.Some? && "plan_title" !in doc.fields ==> r.value.title == DefaultPlanTitle(userName)
    ensures r.Some? && "plan_description" !in doc.fields ==> r.value.description == Some(DefaultPlanDescription)
    ensures r.Some? && r.value.complete ==> forall i :: 0 <= i < |r.value.days| ==> r.value.days[i].complete
  {
    if !doc.JObj? then None
    else
      var m := doc.fields;
      var title :- TextField(m, "plan_title", DefaultPlanTitle(userName));
      var description :- NullableTextField(m, "plan_description", Some(DefaultPlanDescription));
      match Elements(Lookup(m, "days").GetOr(JArr([])))
      case None => Some(PlanEntry(title, description, [], false))
      case Some(items) =>
        var days := ReadDays(items);
        Some(PlanEntry(title, description, days.0, days.1))
  }

  /** The number of exercise entries over all days. */
  function ExerciseCount(days: seq<DayEntry>): nat {
    if days == [] then 0 else ExerciseCount(days[..|days| - 1]) + |days[|days| - 1].exercises|
  }
}
