/**
 * Request validation of the user and plan-generation bodies. Every field is
 * checked, and a rejected body reports the names of all failing fields in
 * declaration order (the HTTP layer answers 422 with them).
 */
module Validators {
  import opened Wrappers
  import opened Text

  const FitnessLevels: seq<string> := ["beginner", "intermediate", "advanced"]
  const Genders: seq<string> := ["male", "female", "other"]
  const FocusAreas: seq<string> := ["strength", "cardio", "flexibility", "weight_loss", "muscle_gain", "endurance"]
  const DefaultPlanDays := 7

  /** A user body as received; absent optional fields are `None`. */
  datatype UserInput = UserInput(
    name: string, email: Option<string>, age: Option<int>, gender: Option<string>,
    fitnessLevel: Option<string>, goals: Option<string>)

  /** A plan-generation body as received; `days` is `None` when absent. */
  datatype PlanInput = PlanInput(
    days: Option<int>, preferences: Option<string>, includeEquipment: bool,
    focusAreas: Option<seq<string>>)

  /** A validated plan-generation request. */
  datatype PlanRequest = PlanRequest(
    days: int, preferences: Option<string>, includeEquipment: bool,
    focusAreas: Option<seq<string>>)

  /** The request fields that can fail validation. */
  datatype Field =
    | Name | Email | Age | Gender | FitnessLevel | Goals        // UserCreate
    | Days | Preferences | FocusAreaList                      // PlanGenerationRequest
    | Rpe | RepsCompleted | SetsCompleted | DurationSeconds    // SessionReportCreate
    | Title | Description                                      // PlanUpdate

  /** The field's name as the 422 reply spells it. */
  function FieldName(f: Field): string {
    match f
    case Name => "name"
    case Email => "email"
    case Age => "age"
    case Gender => "gender"
    case FitnessLevel => "fitness_level"
    case Goals => "goals"
    case Days => "days"
    case Preferences => "preferences"
    case FocusAreaList => "focus_areas"
    case Rpe => "rpe"
    case RepsCompleted => "reps_completed"
    case SetsCompleted => "sets_completed"
    case DurationSeconds => "duration_seconds"
    case Title => "title"
    case Description => "description"
  }

  predicate AtMost(s: Option<string>, n: nat) {
    s.None? || |s.value| <= n
  }

  predicate NameOk(name: string) {
    2 <= |name| <= 100
  }

  /** An empty address is accepted; a non-empty one needs an `@`. */
  predicate EmailOk(email: Option<string>) {
    AtMost(email, 128) && (email.None? || email.value == "" || '@' in email.value)
  }

  predicate AgeOk(age: Option<int>) {
    age.None? || 10 <= age.value <= 120
  }

  /** `w` is one of the words of `words`. */
  predicate Known(w: string, words: seq<string>) {
    words != [] && (words[0] == w || Known(w, words[1..]))
  }

  lemma {:induction false} KnownIsIn(w: string, words: seq<string>)
    ensures Known(w, words) <==> w in words
  {
    if words != [] {
      KnownIsIn(w, words[1..]);
      assert words == [words[0]] + words[1..];
    }
  }

  /**
   * A field restricted to a list of words, compared case-insensitively; an
   * empty value is let through unchanged, an accepted one is lower-cased.
   * `None` means the value is rejected.
   */
  function Choice(v: Option<string>, maxLength: nat, allowed: seq<string>): (r: Option<Option<string>>)
    ensures r.None? <==> v.Some? && (|v.value| > maxLength || (v.value != "" && !Known(Lower(v.value), allowed)))
    ensures r.Some? && r.value.Some? ==> r.value.value == "" || Known(r.value.value, allowed)
    ensures r.Some? && v.None? ==> r.value.None?
  {
    match v
    case None => Some(None)
    case Some(s) =>
      if |s| > maxLength then None
      else if s == "" then Some(Some(s))
      else if Known(Lower(s), allowed) then Some(Some(Lower(s)))
      else None
  }

  /** The field `f` as an error list: empty when its check passed. */
  function Flag(ok: bool, f: Field): (errs: seq<Field>)
    ensures forall g :: g in errs <==> g == f && !ok
    ensures errs == [] <==> ok
  {
    if ok then [] else [f]
  }

  /** The fields of `u` that fail their checks, in declaration order. */
  function UserErrors(u: UserInput): (errs: seq<Field>)
    ensures Name in errs <==> !NameOk(u.name)
    ensures Email in errs <==> !EmailOk(u.email)
    ensures Age in errs <==> !AgeOk(u.age)
    ensures Goals in errs <==> !AtMost(u.goals, 500)
    ensures errs == [] <==> UserChecksPass(u)
  {
    Flag(NameOk(u.name), Name) + Flag(EmailOk(u.email), Email) + Flag(AgeOk(u.age), Age) +
    Flag(GenderOk(u.gender), Gender) + Flag(FitnessOk(u.fitnessLevel), FitnessLevel) +
    Flag(AtMost(u.goals, 500), Goals)
  }

  predicate GenderOk(gender: Option<string>) {
    Choice(gender, 20, Genders).Some?
  }

  predicate FitnessOk(level: Option<string>) {
    Choice(level, 50, FitnessLevels).Some?
  }

  predicate UserChecksPass(u: UserInput) {
    NameOk(u.name) && EmailOk(u.email) && AgeOk(u.age) && GenderOk(u.gender) && FitnessOk(u.fitnessLevel) &&
    AtMost(u.goals, 500)
  }

  /** The gender and fitness level are reported exactly when `Choice` rejects them. */
  lemma UserErrorsChoices(u: UserInput)
    ensures Gender in UserErrors(u) <==> Choice(u.gender, 20, Genders).None?
    ensures FitnessLevel in UserErrors(u) <==> Choice(u.fitnessLevel, 50, FitnessLevels).None?
  {
  }

  /**
   * `UserCreate`: the body with gender and fitness level lower-cased, or the
   * failing fields. The fitness level carries no length bound in the schema;
   * 50 is the column width, which every accepted word is below.
   */
  function ValidateUser(u: UserInput): (r: Result<UserInput, seq<Field>>)
    ensures r.Ok? <==> (NameOk(u.name) && EmailOk(u.email) && AgeOk(u.age) &&
                        Choice(u.gender, 20, Genders).Some? && Choice(u.fitnessLevel, 50, FitnessLevels).Some? &&
                        AtMost(u.goals, 500))
    ensures r.Err? ==> r.error != [] && r.error == UserErrors(u)
    ensures r.Ok? ==> r.value.name == u.name && r.value.email == u.email && r.value.age == u.age && r.value.goals == u.goals
    ensures r.Ok? ==> r.value.gender.None? || r.value.gender.value == "" || Known(r.value.gender.value, Genders)
    ensures r.Ok? ==> r.value.fitnessLevel.None? || r.value.fitnessLevel.value == "" ||
                      Known(r.value.fitnessLevel.value, FitnessLevels)
  {
    var errs := UserErrors(u);
    if errs != [] then Err(errs)
    else Ok(u.(gender := Choice(u.gender, 20, Genders).value,
               fitnessLevel := Choice(u.fitnessLevel, 50, FitnessLevels).value))
  }

  /** A word of an allowed list is its own lower-case form. */
  lemma AllowedAreLower(allowed: seq<string>, w: string)
    requires allowed == Genders || allowed == FitnessLevels
    requires Known(w, allowed)
    ensures Lower(w) == w
  {
    KnownIsIn(w, allowed);
    var i :| 0 <= i < |allowed| && allowed[i] == w;
    if allowed == Genders {
      assert i == 0 || i == 1 || i == 2;
    } else {
      assert i == 0 || i == 1 || i == 2;
    }
  }

  /** Validating an accepted user body again accepts it unchanged. */
  lemma ValidateUserIdempotent(u: UserInput)
    requires ValidateUser(u).Ok?
    ensures ValidateUser(ValidateUser(u).value) == ValidateUser(u)
  {
    var v := ValidateUser(u).value;
    if v.gender.Some? && v.gender.value != "" {
      AllowedAreLower(Genders, v.gender.value);
    }
    if v.fitnessLevel.Some? && v.fitnessLevel.value != "" {
      AllowedAreLower(FitnessLevels, v.fitnessLevel.value);
    }
  }

  /** Every listed focus area is, lower-cased, one of the known areas (an empty list passes). */
  predicate AreasOk(areas: seq<string>) {
    forall i :: 0 <= i < |areas| ==> Known(Lower(areas[i]), FocusAreas)
  }

  /** The focus-area list: at most 10 entries, each known; kept as given, not lower-cased. */
  predicate FocusOk(areas: Option<seq<string>>) {
    areas.None? || (|areas.value| <= 10 && AreasOk(areas.value))
  }

  /** The fields of `p` that fail their checks, in declaration order. */
  function PlanErrors(p: PlanInput): (errs: seq<Field>)
    ensures Days in errs <==> !(3 <= p.days.GetOr(DefaultPlanDays) <= 21)
    ensures Preferences in errs <==> !AtMost(p.preferences, 500)
    ensures FocusAreaList in errs <==> !FocusOk(p.focusAreas)
  {
    Flag(3 <= p.days.GetOr(DefaultPlanDays) <= 21, Days) + Flag(AtMost(p.preferences, 500), Preferences) +
    Flag(FocusOk(p.focusAreas), FocusAreaList)
  }

  /** `PlanGenerationRequest`: the request with `days` defaulted to 7, or the failing fields. */
  function ValidatePlanRequest(p: PlanInput): (r: Result<PlanRequest, seq<Field>>)
    ensures r.Ok? <==> 3 <= p.days.GetOr(DefaultPlanDays) <= 21 && AtMost(p.preferences, 500) && FocusOk(p.focusAreas)
    ensures r.Err? ==> r.error != [] && r.error == PlanErrors(p)
    ensures r.Ok? ==> 3 <= r.value.days <= 21 && (p.days.None? ==> r.value.days == DefaultPlanDays)
    ensures r.Ok? ==> r.value.focusAreas == p.focusAreas && r.value.preferences == p.preferences &&
                      r.value.includeEquipment == p.includeEquipment
  {
    var errs := PlanErrors(p);
    if errs != [] then Err(errs)
    else Ok(PlanRequest(p.days.GetOr(DefaultPlanDays), p.preferences, p.includeEquipment, p.focusAreas))
  }

  /** One entry of a session-report body; `durationSeconds` is `None` when absent or null. */
  datatype ReportInput = ReportInput(
    instanceId: int, rpe: real, repsCompleted: int, setsCompleted: int, success: bool,
    durationSeconds: Option<int>)

  /** The bounds of `SessionReportCreate`. */
  predicate ReportOk(r: ReportInput) {
    && 1.0 <= r.rpe <= 10.0
    && 0 <= r.repsCompleted <= 200
    && 0 <= r.setsCompleted <= 15
    && (r.durationSeconds.None? || 0 <= r.durationSeconds.value <= 7200)
  }

  /** The fields of a report entry that fail their bounds, in declaration order. */
  function ReportErrors(r: ReportInput): (errs: seq<Field>)
    ensures Rpe in errs <==> !(1.0 <= r.rpe <= 10.0)
    ensures RepsCompleted in errs <==> !(0 <= r.repsCompleted <= 200)
    ensures SetsCompleted in errs <==> !(0 <= r.setsCompleted <= 15)
    ensures DurationSeconds in errs <==> !(r.durationSeconds.None? || 0 <= r.durationSeconds.value <= 7200)
    ensures forall f :: f in errs ==> f in {Rpe, RepsCompleted, SetsCompleted, DurationSeconds}
    ensures errs == [] <==> ReportOk(r)
  {
    Flag(1.0 <= r.rpe <= 10.0, Rpe) + Flag(0 <= r.repsCompleted <= 200, RepsCompleted) +
    Flag(0 <= r.setsCompleted <= 15, SetsCompleted) +
    Flag(r.durationSeconds.None? || 0 <= r.durationSeconds.value <= 7200, DurationSeconds)
  }

  /** The failing fields of each entry of a report body, by position (empty for an entry that passes). */
  function BatchErrors(batch: seq<ReportInput>): (errs: seq<seq<Field>>)
    ensures |errs| == |batch|
    ensures forall i :: 0 <= i < |batch| ==> errs[i] == ReportErrors(batch[i])
  {
    seq(|batch|, i requires 0 <= i < |batch| => ReportErrors(batch[i]))
  }

  /** `List[SessionReportCreate]`: the body unchanged, or the failing fields of every entry. */
  function ValidateReports(batch: seq<ReportInput>): (r: Result<seq<ReportInput>, seq<seq<Field>>>)
    ensures r.Ok? <==> forall i :: 0 <= i < |batch| ==> ReportOk(batch[i])
    ensures r.Ok? ==> r.value == batch
    ensures r.Err? ==> r.error == BatchErrors(batch) && exists i :: 0 <= i < |batch| && r.error[i] != []
  {
    var errs := BatchErrors(batch);
    if forall i :: 0 <= i < |errs| ==> errs[i] == [] then Ok(batch) else Err(errs)
  }

  /**
   * A plan-update body. Each field is `None` when not supplied and `Some(None)`
   * when supplied as null; only supplied fields are written.
   */
  datatype PlanPatch = PlanPatch(title: Option<Option<string>>, description: Option<Option<string>>,
                                 isActive: Option<Option<bool>>)

  /** A supplied text value is within `n` characters (null passes). */
  predicate FitsIn(v: Option<Option<string>>, n: nat) {
    v.None? || v.value.None? || |v.value.value| <= n
  }

  /** The fields of a plan-update body that fail their bounds. */
  function PatchErrors(p: PlanPatch): (errs: seq<Field>)
    ensures Title in errs <==> !FitsIn(p.title, 200)
    ensures Description in errs <==> !FitsIn(p.description, 1000)
    ensures errs == [] <==> FitsIn(p.title, 200) && FitsIn(p.description, 1000)
  {
    Flag(FitsIn(p.title, 200), Title) + Flag(FitsIn(p.description, 1000), Description)
  }

  /** `PlanUpdate`: the body unchanged, or the failing fields. */
  function ValidatePlanUpdate(p: PlanPatch): (r: Result<PlanPatch, seq<Field>>)
    ensures r.Ok? <==> FitsIn(p.title, 200) && FitsIn(p.description, 1000)
    ensures r.Ok? ==> r.value == p
    ensures r.Err? ==> r.error == PatchErrors(p) && r.error != []
  {
    var errs := PatchErrors(p);
    if errs == [] then Ok(p) else Err(errs)
  }
}
