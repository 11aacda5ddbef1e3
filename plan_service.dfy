/**
 * `generate_workout_plan` of the HTTP API: the body is validated, the user
 * looked up, the model asked for a plan document whose reply is cleaned,
 * parsed and read, and the plan tree built with its commit points.
 */
module PlanService {
  import opened Wrappers
  import opened Json
  import opened Entities
  import opened Validators
  import opened PlanResponse
  import opened PlanDraft
  import opened PlanBuilder

  /** Why a generation request stopped before anything was written. */
  datatype Refusal =
    | Invalid(errors: seq<Field>)   // the body failed validation
    | NoSuchUser                    // no user row has the id
    | NoReply                       // the model call failed
    | Unparsable(e: ParseError)     // the reply was rejected by `_parse_plan_response`
    | Unreadable                    // the plan row cannot be made from the document

  /**
   * Everything the handler does before its first write, in its order:
   * validation, the user lookup, the model call, the parse, the plan fields.
   * `raw` is the model's reply text (`None` when the call failed) and `parse`
   * is `json.loads`.
   */
  function Prepare(t: Tables, userId: int, body: PlanInput, raw: Option<string>, parse: string -> Option<Json>)
    : (r: Result<(PlanRequest, PlanEntry), Refusal>)
    ensures ValidatePlanRequest(body).Err? <==> r.Err? && r.error.Invalid?
    ensures r.Err? && r.error.Invalid? ==> r.error.errors == PlanErrors(body) && r.error.errors != []
    ensures r == Err(NoSuchUser) <==> ValidatePlanRequest(body).Ok? && FindUser(t, userId).None?
    ensures r == Err(NoReply) <==> ValidatePlanRequest(body).Ok? && FindUser(t, userId).Some? && raw.None?
    ensures r.Ok? ==>
      && ValidatePlanRequest(body) == Ok(r.value.0)
      && FindUser(t, userId).Some? && raw.Some?
      && ParsePlanResponse(raw.value, parse).Ok?
      && var doc := ParsePlanResponse(raw.value, parse).value;
         && doc.JObj? && "days" in doc.fields
         && ("plan_title" !in doc.fields ==> r.value.1.title == DefaultPlanTitle(FindUser(t, userId).value.name))
         && ("plan_description" !in doc.fields ==> r.value.1.description == Some(DefaultPlanDescription))
  {
    match ValidatePlanRequest(body)
    case Err(errors) => Err(Invalid(errors))
    case Ok(request) =>
      match FindUser(t, userId)
      case None => Err(NoSuchUser)
      case Some(user) =>
        if raw.None? then Err(NoReply)
        else match ParsePlanResponse(raw.value, parse)
          case Err(e) => Err(Unparsable(e))
          case Ok(doc) =>
            match ReadPlan(doc, user.name)
            case None => Err(Unreadable)
            case Some(entry) => Ok((request, entry))
  }

  /** The HTTP reply of the handler. */
  datatype Reply =
    | Created(planId: nat, title: string, description: Option<string>, totalDays: int)  // `"status": "generated"`
    | Unprocessable(errors: seq<Field>)
    | NotFound                                                                           // "User not found"
    | ServerError                                                                        // "Failed to generate plan: ..."

  function Status(r: Reply): (code: int)
    ensures code in {201, 404, 422, 500}
  {
    match r
    case Created(_, _, _, _) => 201
    case Unprocessable(_) => 422
    case NotFound => 404
    case ServerError => 500
  }

  /** The reply to a request refused before any write: 422, 404, or 500 for every model or document failure. */
  function RefusalReply(f: Refusal): (r: Reply)
    ensures f.Invalid? <==> Status(r) == 422
    ensures f.NoSuchUser? <==> Status(r) == 404
    ensures !f.Invalid? && !f.NoSuchUser? <==> Status(r) == 500
  {
    match f
    case Invalid(errors) => Unprocessable(errors)
    case NoSuchUser => NotFound
    case _ => ServerError
  }

  /** No two exercise types share a name. */
  ghost predicate UniqueTypeNames(types: map<nat, ExerciseType>) {
    forall a, b :: a in types && b in types && types[a].name == types[b].name ==> a == b
  }

  /** With unique names, the lookup by exact name finds at most one type. */
  lemma NoAmbiguity(types: map<nat, ExerciseType>, name: string)
    requires UniqueTypeNames(types)
    ensures |TypesNamed(types, name)| <= 1
  {
    var s := TypesNamed(types, name);
    if s != {} {
      var x :| x in s;
      assert s == {x};
    }
  }

  /** The id lists of the days have, between them, one id per exercise entry. */
  lemma {:induction false} FlattenLength(ss: seq<seq<nat>>, days: seq<DayEntry>)
    requires |ss| == |days|
    requires forall k :: 0 <= k < |ss| ==> |ss[k]| == |days[k].exercises|
    ensures |Flatten(ss)| == ExerciseCount(days)
    decreases |ss|
  {
    if ss != [] {
      var n := |ss| - 1;
      FlattenLength(ss[..n], days[..n]);
    }
  }

  /** A list without repeats has as many elements as its set. */
  lemma {:induction false} DistinctElems(s: seq<nat>)
    requires Distinct(s)
    ensures |Elems(s)| == |s|
    decreases |s|
  {
    if s != [] {
      var n := |s| - 1;
      assert Distinct(s[..n]);
      DistinctElems(s[..n]);
      assert Elems(s) == Elems(s[..n]) + {s[n]};
    }
  }

  /** A fully built plan adds exactly one instance row per exercise entry, rest days included. */
  lemma OnePerEntry(t0: Tables, t: Tables, planId: nat, plan: Plan, days: seq<DayEntry>,
                    dayIds: seq<nat>, instanceIds: seq<seq<nat>>)
    requires Durable(t0, t, planId, plan, days, dayIds, instanceIds, |dayIds|)
    requires |dayIds| == |days| == |instanceIds|
    requires InstancesAdded(t0, t, instanceIds)
    ensures |t.instances.Keys| == |t0.instances.Keys| + ExerciseCount(days)
  {
    assert forall k :: 0 <= k < |instanceIds| ==> |instanceIds[k]| == |days[k].exercises| by {
      forall k | 0 <= k < |instanceIds|
        ensures |instanceIds[k]| == |days[k].exercises|
      {
        assert DayBuilt(t, planId, dayIds[k], days[k], instanceIds[k]);
      }
    }
    FlattenLength(instanceIds, days);
    DistinctElems(Flatten(instanceIds));
    assert t0.instances.Keys * Elems(Flatten(instanceIds)) == {};
  }

  /** The document was read to the end, every day with all its exercises. */
  predicate Whole(entry: PlanEntry) {
    entry.complete && forall k :: 0 <= k < |entry.days| ==> entry.days[k].complete
  }

  /**
   * What a request that reached the store leaves behind. A 201 exactly when
   * every day was built: the plan row, every day row, one new instance per
   * exercise entry and one new type per name no type had. Any other reply is
   * 500, after the build stopped at its first failing entry (`StoppedAt`,
   * every earlier day complete), and the store then holds exactly what the
   * commits before the stop made durable (`Stopped`). A complete document
   * over a store whose type names are unique is always built.
   */
  ghost predicate Answered(t0: Tables, t: Tables, userId: int, request: PlanRequest, entry: PlanEntry, now: int,
                           reply: Reply, planId: nat, dayIds: seq<nat>, instanceIds: seq<seq<nat>>) {
    && |dayIds| == |instanceIds|
    && Durable(t0, t, planId, Plan(userId, entry.title, entry.description, request.days, true, now),
               entry.days, dayIds, instanceIds, if reply.Created? then |dayIds| else AllButLast(dayIds))
    && (reply.Created? ==>
          && reply == Created(planId, entry.title, entry.description, request.days)
          && |dayIds| == |entry.days| == |instanceIds|
          && InstancesAdded(t0, t, instanceIds)
          && |t.instances.Keys| == |t0.instances.Keys| + ExerciseCount(entry.days)
          && Within(entry.days, instanceIds) && TypesFrom(t0, t, Reached(entry.days, instanceIds)))
    && (!reply.Created? ==>
          && reply == ServerError
          && Stopped(t0, t, planId, Plan(userId, entry.title, entry.description, request.days, true, now),
                     entry.days, dayIds, instanceIds)
          && (forall k :: 0 <= k < AllButLast(dayIds) ==> entry.days[k].complete)
          && StoppedAt(t0.exerciseTypes, entry, instanceIds))
    && (Whole(entry) && UniqueTypeNames(t0.exerciseTypes) ==> reply.Created?)
  }

  /** The writes of the handler once the document is read: the tree build and its reply. */
  method BuildRequested(db: Database, userId: int, request: PlanRequest, entry: PlanEntry, now: int)
    returns (reply: Reply, planId: nat, dayIds: seq<nat>, instanceIds: seq<seq<nat>>)
    modifies db
    requires db.committed.Valid()
    ensures Answered(old(db.committed), db.committed, userId, request, entry, now, reply, planId, dayIds, instanceIds)
  {
    var outcome;
    planId, dayIds, instanceIds, outcome := BuildPlan(db, userId, entry, request.days, now);
    if outcome.Built? {
      OnePerEntry(old(db.committed), db.committed, planId,
                  Plan(userId, entry.title, entry.description, request.days, true, now),
                  entry.days, dayIds, instanceIds);
      reply := Created(planId, entry.title, entry.description, request.days);
    } else {
      if outcome.AmbiguousType? && UniqueTypeNames(old(db.committed).exerciseTypes) {
        NoAmbiguity(old(db.committed).exerciseTypes, outcome.name);
      }
      reply := ServerError;
    }
  }

  /**
   * `POST /users/{user_id}/plans/generate`. A request refused before the first
   * write changes nothing and gets 422, 404 or 500; one that reaches the store
   * is answered as `Answered` says.
   */
  method GenerateWorkoutPlan(db: Database, userId: int, body: PlanInput, raw: Option<string>,
                             parse: string -> Option<Json>, now: int)
    returns (reply: Reply, planId: nat, dayIds: seq<nat>, instanceIds: seq<seq<nat>>)
    modifies db
    requires db.committed.Valid()
    ensures var p := Prepare(old(db.committed), userId, body, raw, parse);
      p.Err? ==> reply == RefusalReply(p.error) && db.committed == old(db.committed)
    ensures var p := Prepare(old(db.committed), userId, body, raw, parse);
      p.Ok? ==> Answered(old(db.committed), db.committed, userId, p.value.0, p.value.1, now,
                         reply, planId, dayIds, instanceIds)
  {
    planId, dayIds, instanceIds := 0, [], [];
    var prepared := Prepare(db.committed, userId, body, raw, parse);
    if prepared.Err? {
      reply := RefusalReply(prepared.error);
      return;
    }
    reply, planId, dayIds, instanceIds := BuildRequested(db, userId, prepared.value.0, prepared.value.1, now);
  }
}
