/**
 * The enhanced MCP server (`Backend/mcp_server_enhanced.py`): the user lookup,
 * plan generation through the language model with the same tree build as the
 * HTTP endpoint, and the progress summary. Its replies are those of the basic
 * server, with a generation confirmation spelled out.
 */
module McpEnhanced {
  import opened Wrappers
  import opened Json
  import opened Text
  import opened Entities
  import opened Validators
  import opened PlanService
  import opened McpServer

  const GenerateTool := "generate_workout_plan"
  /** The tools of this server whose branches are not part of this model. */
  const OtherEnhancedTools: set<string> := {"create_user"}

  // ---------------------------------------------------------------------------
  // The request of generate_workout_plan
  // ---------------------------------------------------------------------------

  /** An optional string field: absent or null is `None`; any other non-string fails. */
  function OptionalText(args: map<string, Json>, key: string): (r: Option<Option<string>>)
    ensures key !in args || args[key].JNull? ==> r == Some(None)
    ensures key in args && args[key].JStr? ==> r == Some(Some(args[key].s))
    ensures r.None? <==> key in args && !args[key].JNull? && !args[key].JStr?
  {
    if key !in args || args[key].JNull? then Some(None)
    else if args[key].JStr? then Some(Some(args[key].s))
    else None
  }

  /** The strings of a list whose every item is a string. */
  function Strings(items: seq<Json>): (r: Option<seq<string>>)
    ensures r.Some? <==> forall i :: 0 <= i < |items| ==> items[i].JStr?
    ensures r.Some? ==> |r.value| == |items| && forall i :: 0 <= i < |items| ==> r.value[i] == items[i].s
  {
    if items == [] then Some([])
    else match Strings(items[1..])
      case None => None
      case Some(rest) => if items[0].JStr? then Some([items[0].s] + rest) else None
  }

  /** `focus_areas`: absent or null is `None`; a list of strings is kept; anything else fails. */
  function FocusArg(args: map<string, Json>): (r: Option<Option<seq<string>>>)
    ensures "focus_areas" !in args || args["focus_areas"].JNull? ==> r == Some(None)
    ensures r.Some? && r.value.Some? ==> "focus_areas" in args && args["focus_areas"].JArr? &&
                                         Strings(args["focus_areas"].items) == r.value
  {
    if "focus_areas" !in args || args["focus_areas"].JNull? then Some(None)
    else if args["focus_areas"].JArr? then
      match Strings(args["focus_areas"].items)
      case None => None
      case Some(areas) => Some(Some(areas))
    else None
  }

  /**
   * `PlanGenerationRequest(**request_data)` before its bounds are checked:
   * the typed fields, `days` absent when not supplied, `include_equipment`
   * false when not supplied. `None` when a supplied field has the wrong type;
   * unknown keys, `user_id` among them, are ignored.
   */
  function RequestInput(args: map<string, Json>): (r: Option<PlanInput>)
    ensures r.Some? ==> ("days" !in args <==> r.value.days.None?)
    ensures r.Some? && r.value.days.Some? ==> args["days"] == JNum(r.value.days.value)
    ensures r.None? <==> || ("days" in args && !args["days"].JNum?)
                         || ("include_equipment" in args && !args["include_equipment"].JBool?)
                         || OptionalText(args, "preferences").None? || FocusArg(args).None?
    ensures r.Some? ==> r.value.includeEquipment == ("include_equipment" in args && args["include_equipment"] == JBool(true))
  {
    var days := if "days" !in args then Some(None) else if args["days"].JNum? then Some(Some(args["days"].n)) else None;
    var equipment := if "include_equipment" !in args then Some(false)
                     else if args["include_equipment"].JBool? then Some(args["include_equipment"].b) else None;
    var preferences := OptionalText(args, "preferences");
    var focus := FocusArg(args);
    if days.None? || equipment.None? || preferences.None? || focus.None? then None
    else Some(PlanInput(days.value, preferences.value, equipment.value, focus.value))
  }

  /** A request as a tool caller writes it in full, beside the user id. */
  function EncodeRequest(userId: int, p: PlanInput): map<string, Json> {
    var base := map["user_id" := JNum(userId), "include_equipment" := JBool(p.includeEquipment),
                    "preferences" := if p.preferences.Some? then JStr(p.preferences.value) else JNull,
                    "focus_areas" := if p.focusAreas.Some? then JArr(Texts(p.focusAreas.value)) else JNull];
    if p.days.Some? then base["days" := JNum(p.days.value)] else base
  }

  function Texts(ss: seq<string>): (r: seq<Json>)
    ensures |r| == |ss| && forall i :: 0 <= i < |ss| ==> r[i] == JStr(ss[i])
  {
    seq(|ss|, i requires 0 <= i < |ss| => JStr(ss[i]))
  }

  /** A request written out in full reads back as itself. */
  lemma RequestRoundTrip(userId: int, p: PlanInput)
    ensures RequestInput(EncodeRequest(userId, p)) == Some(p)
  {
    if p.focusAreas.Some? {
      var items := Texts(p.focusAreas.value);
      assert Strings(items).value == p.focusAreas.value;
    }
  }

  // ---------------------------------------------------------------------------
  // generate_workout_plan
  // ---------------------------------------------------------------------------

  /** The confirmation of a generated plan; a plan without description prints `None`. */
  function GeneratedText(planId: nat, title: string, description: Option<string>, totalDays: int): string {
    "AI workout plan generated successfully! Plan ID: " + NatToString(planId) + "\nTitle: " + title +
    "\nDescription: " + (if description.Some? then description.value else "None") +
    "\nDays: " + IntToString(totalDays)
  }

  /**
   * The tool's answer to a request refused before the first write: invalid
   * bounds raise out of the handler, an unknown user gets a text, and every
   * model or document failure is a generation failure.
   */
  function RefusalResult(f: Refusal, userId: int): (r: ToolResult)
    ensures f.Invalid? <==> r == ToolError(GenerateTool)
    ensures f.NoSuchUser? <==> r == Message(UserNotFoundText(userId))
    ensures !f.Invalid? && !f.NoSuchUser? <==> r == GenerationFailed
  {
    match f
    case Invalid(_) => ToolError(GenerateTool)
    case NoSuchUser => Message(UserNotFoundText(userId))
    case _ => GenerationFailed
  }

  /** The tool's answer once the store was reached: the confirmation of a 201, a generation failure otherwise. */
  function BuildResult(reply: Reply): (r: ToolResult)
    ensures reply.Created? <==> r.Message?
    ensures reply.Created? ==> r.text == GeneratedText(reply.planId, reply.title, reply.description, reply.totalDays)
    ensures !reply.Created? ==> r == GenerationFailed
  {
    if reply.Created? then Message(GeneratedText(reply.planId, reply.title, reply.description, reply.totalDays))
    else GenerationFailed
  }

  /**
   * The answer of the `generate_workout_plan` branch over the store `t`, and
   * the store `t'` it leaves. The arguments become a request (a missing or
   * non-integer `user_id` or a wrongly typed field raises); then the handler
   * runs as the HTTP endpoint does, over the model reply `raw`: a refusal
   * writes nothing, and a request that reaches the store leaves what
   * `Answered` says, committed step by step, with the reply's build trace.
   */
  ghost predicate GenerateAnswered(t: Tables, t': Tables, args: map<string, Json>, raw: Option<string>,
                                   parse: string -> Option<Json>, now: int, result: ToolResult,
                                   reply: Reply, planId: nat, dayIds: seq<nat>, instanceIds: seq<seq<nat>>)
  {
    && (result.ToolError? ==> result.tool == GenerateTool && t' == t)
    && (IdArg(args, "user_id").None? || RequestInput(args).None? ==> result == ToolError(GenerateTool) && t' == t)
    && (IdArg(args, "user_id").Some? && RequestInput(args).Some? ==>
          var u := IdArg(args, "user_id").value;
          var p := Prepare(t, u, RequestInput(args).value, raw, parse);
          && (p.Err? ==> result == RefusalResult(p.error, u) && t' == t)
          && (p.Ok? ==>
                && Answered(t, t', u, p.value.0, p.value.1, now, reply, planId, dayIds, instanceIds)
                && result == BuildResult(reply)))
  }

  /** The `generate_workout_plan` branch, answering as `GenerateAnswered` says. */
  method GenerateWorkoutPlanTool(db: Database, args: map<string, Json>, raw: Option<string>,
                                 parse: string -> Option<Json>, now: int)
    returns (result: ToolResult, reply: Reply, planId: nat, dayIds: seq<nat>, instanceIds: seq<seq<nat>>)
    modifies db
    requires db.committed.Valid()
    ensures GenerateAnswered(old(db.committed), db.committed, args, raw, parse, now, result,
                             reply, planId, dayIds, instanceIds)
  {
    reply, planId, dayIds, instanceIds := ServerError, 0, [], [];
    var user := IdArg(args, "user_id");
    var input := RequestInput(args);
    if user.None? || input.None? {
      return ToolError(GenerateTool), reply, planId, dayIds, instanceIds;
    }
    var prepared := Prepare(db.committed, user.value, input.value, raw, parse);
    if prepared.Err? {
      return RefusalResult(prepared.error, user.value), reply, planId, dayIds, instanceIds;
    }
    reply, planId, dayIds, instanceIds := BuildRequested(db, user.value, prepared.value.0, prepared.value.1, now);
    result := BuildResult(reply);
  }

  /**
   * A request whose bounds hold, for a user who does not exist, gets the
   * not-found text and creates no plan.
   */
  lemma UnknownUserCreatesNothing(t: Tables, userId: int, p: PlanInput, raw: Option<string>,
                                  parse: string -> Option<Json>)
    requires ValidatePlanRequest(p).Ok? && FindUser(t, userId).None?
    ensures Prepare(t, userId, p, raw, parse) == Err(NoSuchUser)
    ensures RefusalResult(Prepare(t, userId, p, raw, parse).error, userId) == Message(UserNotFoundText(userId))
  {
  }

  // ---------------------------------------------------------------------------
  // Dispatch
  // ---------------------------------------------------------------------------

  /**
   * `handle_call_tool` of the enhanced server: `get_user` and
   * `get_user_progress` as the basic server answers them, plan generation as
   * its branch answers it, and a text naming any unknown tool. Only generation writes, and an error
   * answer never leaves a write behind.
   */
  method HandleCallTool(db: Database, name: string, args: map<string, Json>, raw: Option<string>,
                        parse: string -> Option<Json>, now: int)
    returns (result: ToolResult)
    modifies db
    requires db.committed.Valid()
    ensures name == UserTool ==> result == GetUser(old(db.committed), args)
    ensures name !in {UserTool, ProgressTool, GenerateTool} && name !in OtherEnhancedTools ==>
      result == Message(UnknownToolText(name))
    ensures name in OtherEnhancedTools ==> result == Outside(name)
    ensures name != GenerateTool ==> db.committed == old(db.committed)
    ensures result.ToolError? ==> result.tool == name && db.committed == old(db.committed)
    ensures name == ProgressTool ==> exists ordered :: ProgressAnswered(old(db.committed), args, now, result, ordered)
    ensures name == GenerateTool ==>
      exists reply, planId, dayIds, instanceIds ::
        GenerateAnswered(old(db.committed), db.committed, args, raw, parse, now, result, reply, planId, dayIds, instanceIds)
  {
    if name == UserTool {
      result := GetUser(db.committed, args);
    } else if name == ProgressTool {
      var ordered;
      result, ordered := GetUserProgressTool(db.committed, args, now);
    } else if name == GenerateTool {
      var reply, planId, dayIds, instanceIds;
      result, reply, planId, dayIds, instanceIds := GenerateWorkoutPlanTool(db, args, raw, parse, now);
    } else if name in OtherEnhancedTools {
      result := Outside(name);
    } else {
      result := Message(UnknownToolText(name));
    }
  }
}
