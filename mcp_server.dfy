/**
 * The tool calls of the fitness MCP server (`handle_call_tool` of
 * `Backend/mcp_server.py`) that read or change plans and reports. Arguments
 * arrive as a JSON object. Every branch opens its own session, so a branch that
 * raises writes nothing and the dispatcher turns the exception into an error
 * text; nothing is propagated to the caller.
 */
module McpServer {
  import opened Wrappers
  import opened Json
  import opened Text
  import opened Entities
  import opened Validators
  import opened Reporting
  import opened PlanAdmin
  import opened Progress

  /** What a tool call answers with: the text content of its result. */
  datatype ToolResult =
    | Message(text: string)            // a confirmation or a refusal, spelled out
    | UserData(user: User)             // the user row, dumped
    | PlanList(planIds: seq<nat>)      // the plan rows, dumped in this order
    | ProgressData(summary: Summary)   // the progress document
    | PlanUpdated(plan: Plan)          // "Plan updated successfully: " and the row
    | NotDeleted                       // "Failed to delete plan: " and the database's message
    | GenerationFailed                 // "Failed to generate plan: " and the exception's message
    | ToolError(tool: string)          // "Error executing tool {name}: " and the exception's message
    | Outside(tool: string)            // a tool whose branch is not part of this model

  const ReportTool := "report_workout_session"
  const ProgressTool := "get_user_progress"
  const UpdateTool := "update_plan"
  const DeleteTool := "delete_plan"
  const PlansTool := "get_user_plans"
  const UserTool := "get_user"
  /** The tools of this server whose branches are not part of this model. */
  const OtherTools: set<string> := {"list_users", "create_user", "get_plan_details",
                                    "list_exercise_types", "create_exercise_type"}
  /** This server does not generate plans: its `generate_workout_plan` answers with a fixed notice. */
  const StubGenerateTool := "generate_workout_plan"
  const StubGenerateText :=
    "Workout plan generation requires the AI model client. This feature is available through the main API endpoints."

  function UserNotFoundText(userId: int): string {
    "User with ID " + IntToString(userId) + " not found"
  }

  function PlanNotFoundText(planId: int): string {
    "Plan with ID " + IntToString(planId) + " not found"
  }

  const NotOwnerText := "Plan does not belong to user"

  function InstanceNotFoundText(id: int): string {
    "Exercise instance " + IntToString(id) + " not found in plan"
  }

  const RecordedPrefix := "Workout session recorded successfully. "
  const RecordedSuffix := " exercises reported."

  function RecordedText(n: nat): string {
    RecordedPrefix + NatToString(n) + RecordedSuffix
  }

  function DeletedText(planId: int): string {
    "Plan " + IntToString(planId) + " deleted successfully"
  }

  function UnknownToolText(name: string): string {
    "Unknown tool: " + name
  }

  /** The confirmation of a recorded session carries the number of entries, in decimal. */
  lemma RecordedCount(n: nat)
    ensures exists digits :: AllDigits(digits) && RecordedText(n) == RecordedPrefix + digits + RecordedSuffix &&
                             DecimalValue(digits) == n
  {
    NatToStringRoundTrip(n);
    assert RecordedText(n) == RecordedPrefix + NatToString(n) + RecordedSuffix;
  }

  /**
   * `arguments[key]` used as a row id: `None` when the key is missing (a
   * `KeyError`) or the value is not an integer, both treated as raising.
   */
  function IdArg(args: map<string, Json>, key: string): (r: Option<int>)
    ensures r.Some? <==> key in args && args[key].JNum?
    ensures r.Some? ==> args[key] == JNum(r.value)
  {
    if key in args && args[key].JNum? then Some(args[key].n) else None
  }

  // ---------------------------------------------------------------------------
  // report_workout_session
  // ---------------------------------------------------------------------------

  /** The keys of a report entry that become columns of its row. */
  const EntryKeys: set<string> := {"exercise_instance_id", "rpe", "reps_completed", "sets_completed",
                                   "success", "duration_seconds"}

  /** `report_data["exercise_instance_id"]`: `None` when the entry is not an object, lacks the key, or the id is not an integer. */
  function EntryId(v: Json): (r: Option<int>)
    ensures r.Some? <==> v.JObj? && "exercise_instance_id" in v.fields && v.fields["exercise_instance_id"].JNum?
    ensures r.Some? ==> v.fields["exercise_instance_id"] == JNum(r.value)
  {
    if v.JObj? && "exercise_instance_id" in v.fields && v.fields["exercise_instance_id"].JNum?
    then Some(v.fields["exercise_instance_id"].n) else None
  }

  /** A JSON number as a float. */
  function Number(v: Json): (r: Option<real>)
    ensures r.Some? <==> v.JNum? || v.JReal?
  {
    match v
    case JNum(n) => Some(n as real)
    case JReal(x) => Some(x)
    case _ => None
  }

  /**
   * Keys an entry may not carry: `user_id` and `plan_id` are passed by the
   * handler as well (a duplicate keyword argument), a JSON value is never the
   * `datetime` the `date` column takes, and `id` is treated as refused too.
   */
  const RefusedKeys: set<string> := {"user_id", "plan_id", "date", "id"}

  /**
   * The entry becomes a stored row: it carries none of the refused keys (any
   * other key that is not a column is dropped by the row model), a numeric
   * `rpe`, integer counts, and `success` and `duration_seconds` of their column
   * types when present.
   */
  predicate Recordable(v: Json) {
    && v.JObj?
    && "user_id" !in v.fields && "plan_id" !in v.fields && "date" !in v.fields && "id" !in v.fields
    && "rpe" in v.fields && Number(v.fields["rpe"]).Some?
    && "reps_completed" in v.fields && v.fields["reps_completed"].JNum?
    && "sets_completed" in v.fields && v.fields["sets_completed"].JNum?
    && ("success" in v.fields ==> v.fields["success"].JBool?)
    && ("duration_seconds" in v.fields ==> v.fields["duration_seconds"].JNull? || v.fields["duration_seconds"].JNum?)
  }

  /** An integer-valued key of an entry, or `default`. */
  function IntOr(m: map<string, Json>, key: string, default: int): int {
    if key in m && m[key].JNum? then m[key].n else default
  }

  /**
   * The values of the row an entry becomes, with the row model's defaults
   * (`success` true, no duration) for the optional keys. Only the values of a
   * recordable entry with an id are ever stored.
   */
  function EntryInput(v: Json): (r: ReportInput)
    ensures EntryId(v).Some? ==> r.instanceId == EntryId(v).value
  {
    if !v.JObj? then ReportInput(-1, 0.0, 0, 0, true, None)
    else
      var m := v.fields;
      ReportInput(
        IntOr(m, "exercise_instance_id", -1),
        if "rpe" in m then Number(m["rpe"]).GetOr(0.0) else 0.0,
        IntOr(m, "reps_completed", 0),
        IntOr(m, "sets_completed", 0),
        if "success" in m && m["success"].JBool? then m["success"].b else true,
        if "duration_seconds" in m && m["duration_seconds"].JNum? then Some(m["duration_seconds"].n) else None)
  }

  /** The row values of every entry, by position. */
  function EntryInputs(items: seq<Json>): (r: seq<ReportInput>)
    ensures |r| == |items|
    ensures forall i :: 0 <= i < |items| ==> r[i] == EntryInput(items[i])
  {
    seq(|items|, i requires 0 <= i < |items| => EntryInput(items[i]))
  }

  /** A report entry as a tool caller writes it: every key present, `duration_seconds` null when absent. */
  function EncodeEntry(e: ReportInput): Json {
    JObj(map["exercise_instance_id" := JNum(e.instanceId), "rpe" := JReal(e.rpe),
             "reps_completed" := JNum(e.repsCompleted), "sets_completed" := JNum(e.setsCompleted),
             "success" := JBool(e.success),
             "duration_seconds" := if e.durationSeconds.Some? then JNum(e.durationSeconds.value) else JNull])
  }

  function EncodeEntries(body: seq<ReportInput>): (r: seq<Json>)
    ensures |r| == |body|
    ensures forall i :: 0 <= i < |body| ==> r[i] == EncodeEntry(body[i])
  {
    seq(|body|, i requires 0 <= i < |body| => EncodeEntry(body[i]))
  }

  /** An entry written out in full is recordable and reads back as itself. */
  lemma EntryRoundTrip(e: ReportInput)
    ensures Recordable(EncodeEntry(e))
    ensures EntryId(EncodeEntry(e)) == Some(e.instanceId)
    ensures EntryInput(EncodeEntry(e)) == e
  {
  }

  /**
   * A key that is neither a column nor refused changes nothing: the entry is
   * recordable, and reads as the same row values, with or without it.
   */
  lemma ExtraKeyIgnored(v: Json, k: string, x: Json)
    requires v.JObj? && k !in EntryKeys && k !in RefusedKeys
    ensures Recordable(JObj(v.fields[k := x])) <==> Recordable(v)
    ensures EntryId(JObj(v.fields[k := x])) == EntryId(v)
    ensures EntryInput(JObj(v.fields[k := x])) == EntryInput(v)
  {
    var m := v.fields[k := x];
    assert k != "exercise_instance_id" && k != "rpe" && k != "reps_completed" && k != "sets_completed";
    assert k != "success" && k != "duration_seconds";
    assert k != "user_id" && k != "plan_id" && k != "date" && k != "id";
    assert forall c :: c in EntryKeys + RefusedKeys ==> (c in m <==> c in v.fields) && (c in m ==> m[c] == v.fields[c]);
  }

  /**
   * A batch written out in full gives the tool the same row values as the HTTP
   * body it came from, so both record the same rows over the same store.
   */
  lemma BatchRoundTrip(body: seq<ReportInput>)
    ensures EntryInputs(EncodeEntries(body)) == body
    ensures forall i :: 0 <= i < |body| ==> Recordable(EncodeEntries(body)[i])
  {
    forall i | 0 <= i < |body|
      ensures EntryInputs(EncodeEntries(body))[i] == body[i] && Recordable(EncodeEntries(body)[i])
    {
      EntryRoundTrip(body[i]);
    }
  }

  /** How the loop body ends for one entry. */
  datatype EntryCheck = Raises | NotInPlan(id: int) | Staged

  /**
   * One entry, in the source's order: its id is read (raising when absent),
   * then looked up in the plan, then its row is staged, which raises for an
   * entry that cannot be stored (at once, or at the autoflush of the next
   * query or the commit, both before anything else can happen).
   */
  function CheckEntry(t: Tables, planId: nat, v: Json): (c: EntryCheck)
    ensures c == Staged <==> EntryId(v).Some? && InPlan(t, EntryId(v).value, planId) && Recordable(v)
    ensures c.NotInPlan? <==> EntryId(v).Some? && !InPlan(t, EntryId(v).value, planId)
    ensures c.NotInPlan? ==> c.id == EntryId(v).value
  {
    match EntryId(v)
    case None => Raises
    case Some(id) => if !InPlan(t, id, planId) then NotInPlan(id) else if Recordable(v) then Staged else Raises
  }

  /** The first `n` entries are staged. */
  predicate AllStaged(t: Tables, items: seq<Json>, n: nat, planId: nat) {
    forall j :: 0 <= j < n && j < |items| ==> CheckEntry(t, planId, items[j]) == Staged
  }

  /** The position of the first entry that is not staged, if any. */
  function FirstHalt(t: Tables, items: seq<Json>, planId: nat): (r: Option<nat>)
    ensures r.None? <==> AllStaged(t, items, |items|, planId)
    ensures r.Some? ==> r.value < |items| && CheckEntry(t, planId, items[r.value]) != Staged
    ensures r.Some? ==> AllStaged(t, items, r.value, planId)
  {
    if items == [] then None
    else if CheckEntry(t, planId, items[0]) != Staged then Some(0)
    else match FirstHalt(t, items[1..], planId)
      case None => None
      case Some(j) => Some(j + 1)
  }

  /** The first entry not staged, after entries that all are, is where the loop halts. */
  lemma FirstHaltIs(t: Tables, items: seq<Json>, planId: nat, j: nat)
    requires j < |items| && CheckEntry(t, planId, items[j]) != Staged
    requires AllStaged(t, items, j, planId)
    ensures FirstHalt(t, items, planId) == Some(j)
  {
    var r := FirstHalt(t, items, planId);
    assert !(r.value < j);
  }

  /** Staged entries name instances of the plan. */
  lemma StagedInPlan(t: Tables, items: seq<Json>, n: nat, planId: nat)
    requires n <= |items| && AllStaged(t, items, n, planId)
    ensures AllInPlan(t, EntryInputs(items), n, planId)
  {
    forall j | 0 <= j < n
      ensures InPlan(t, EntryInputs(items)[j].instanceId, planId)
    {
      assert CheckEntry(t, planId, items[j]) == Staged;
    }
  }

  /** The answer to a batch that halts at entry `j`. */
  function HaltResult(c: EntryCheck): ToolResult {
    if c.NotInPlan? then Message(InstanceNotFoundText(c.id)) else ToolError(ReportTool)
  }

  /**
   * The loop over the entries of an owned plan and the commit after it: the
   * first entry that halts decides the answer and nothing is written;
   * otherwise one report row per entry and the touched instances are committed
   * together.
   */
  method RecordEntries(db: Database, userId: nat, planId: nat, items: seq<Json>, now: int) returns (result: ToolResult)
    modifies db
    ensures result.ToolError? ==> result.tool == ReportTool && db.committed == old(db.committed)
    ensures var t := old(db.committed);
      FirstHalt(t, items, planId).Some? ==>
        && result == HaltResult(CheckEntry(t, planId, items[FirstHalt(t, items, planId).value]))
        && db.committed == t
    ensures var t := old(db.committed);
      FirstHalt(t, items, planId).None? ==>
        && StagedInPlanAll(t, items, planId)
        && result == Message(RecordedText(|items|))
        && db.committed == AfterBatch(t, userId, planId, EntryInputs(items), |items|, now)
  {
    var t0 := db.committed;
    var batch := EntryInputs(items);
    var work := t0;
    var j := 0;
    while j < |items|
      invariant 0 <= j <= |items|
      invariant AllStaged(t0, items, j, planId)
      invariant AllInPlan(t0, batch, j, planId)
      invariant work == AfterBatch(t0, userId, planId, batch, j, now)
      invariant db.committed == t0
    {
      var check := CheckEntry(work, planId, items[j]);
      if check != Staged {
        FirstHaltIs(t0, items, planId, j);
        return HaltResult(check);
      }
      StagedInPlan(t0, items, j + 1, planId);
      StageOne(t0, userId, planId, batch, j, now);
      work := Stage(work, userId, planId, batch[j], now);
      j := j + 1;
    }
    db.committed := work;
    result := Message(RecordedText(|items|));
  }

  /** Every entry is staged, so the batch names instances of the plan only. */
  predicate StagedInPlanAll(t: Tables, items: seq<Json>, planId: nat) {
    AllInPlan(t, EntryInputs(items), |items|, planId)
  }

  /**
   * The answer of the `report_workout_session` branch over the store `t`, and
   * the store `t'` it leaves. Missing or non-integer ids and a missing
   * `reports` key raise; an unknown user, an unknown plan and a plan of
   * another user are refused with a text; a `reports` value the loop cannot
   * iterate raises. Every refusal and every error writes nothing; otherwise
   * the entries are recorded. No adjustment is scheduled.
   */
  ghost predicate ReportAnswered(t: Tables, t': Tables, args: map<string, Json>, now: int, result: ToolResult) {
    && (result.ToolError? ==> result.tool == ReportTool && t' == t)
    && (IdArg(args, "user_id").None? || IdArg(args, "plan_id").None? || "reports" !in args ==>
          result == ToolError(ReportTool) && t' == t)
    && (IdArg(args, "user_id").Some? && IdArg(args, "plan_id").Some? && "reports" in args ==>
          var u, p := IdArg(args, "user_id").value, IdArg(args, "plan_id").value;
          && (FindUser(t, u).None? ==> result == Message(UserNotFoundText(u)) && t' == t)
          && (FindUser(t, u).Some? && FindPlan(t, p).None? ==> result == Message(PlanNotFoundText(p)) && t' == t)
          && (FindUser(t, u).Some? && FindPlan(t, p).Some? && FindPlan(t, p).value.userId != u ==>
                result == Message(NotOwnerText) && t' == t)
          && (Owned(t, u, p) && Elements(args["reports"]).None? ==> result == ToolError(ReportTool) && t' == t)
          && (Owned(t, u, p) && Elements(args["reports"]).Some? ==>
                var items := Elements(args["reports"]).value;
                if FirstHalt(t, items, p as nat).Some? then
                  result == HaltResult(CheckEntry(t, p as nat, items[FirstHalt(t, items, p as nat).value])) && t' == t
                else
                  && StagedInPlanAll(t, items, p as nat)
                  && result == Message(RecordedText(|items|))
                  && t' == AfterBatch(t, u as nat, p as nat, EntryInputs(items), |items|, now)))
  }

  /** The `report_workout_session` branch, answering as `ReportAnswered` says. */
  method ReportWorkoutSession(db: Database, args: map<string, Json>, now: int) returns (result: ToolResult)
    modifies db
    ensures ReportAnswered(old(db.committed), db.committed, args, now, result)
  {
    var user, plan := IdArg(args, "user_id"), IdArg(args, "plan_id");
    if user.None? || plan.None? || "reports" !in args {
      return ToolError(ReportTool);
    }
    var t := db.committed;
    var u, p := user.value, plan.value;
    if FindUser(t, u).None? {
      return Message(UserNotFoundText(u));
    }
    if FindPlan(t, p).None? {
      return Message(PlanNotFoundText(p));
    }
    if FindPlan(t, p).value.userId != u {
      return Message(NotOwnerText);
    }
    var items := Elements(args["reports"]);
    if items.None? {
      return ToolError(ReportTool);
    }
    result := RecordEntries(db, u as nat, p as nat, items.value, now);
  }

  /**
   * A batch written out in full by the tool caller is recorded as the HTTP
   * endpoint records the same body: the same rows, the same exertions. The
   * tool schedules no adjustment.
   */
  lemma ToolRecordsLikeHttp(t: Tables, userId: nat, planId: nat, body: seq<ReportInput>, now: int)
    requires AllInPlan(t, body, |body|, planId)
    ensures FirstHalt(t, EncodeEntries(body), planId).None?
    ensures AfterBatch(t, userId, planId, EntryInputs(EncodeEntries(body)), |body|, now) ==
            AfterBatch(t, userId, planId, body, |body|, now)
  {
    BatchRoundTrip(body);
    forall j | 0 <= j < |body|
      ensures CheckEntry(t, planId, EncodeEntries(body)[j]) == Staged
    {
      EntryRoundTrip(body[j]);
    }
  }

  // ---------------------------------------------------------------------------
  // get_user, get_user_plans, get_user_progress
  // ---------------------------------------------------------------------------

  /** The `get_user` branch: the user row, or a text naming the id when there is none. */
  function GetUser(t: Tables, args: map<string, Json>): (r: ToolResult)
    ensures IdArg(args, "user_id").None? <==> r == ToolError(UserTool)
    ensures IdArg(args, "user_id").Some? ==>
      var u := IdArg(args, "user_id").value;
      && (FindUser(t, u).None? <==> r == Message(UserNotFoundText(u)))
      && (FindUser(t, u).Some? ==> r == UserData(FindUser(t, u).value))
  {
    match IdArg(args, "user_id")
    case None => ToolError(UserTool)
    case Some(u) =>
      match FindUser(t, u)
      case None => Message(UserNotFoundText(u))
      case Some(user) => UserData(user)
  }

  // ---------------------------------------------------------------------------
  // get_user_plans, get_user_progress
  // ---------------------------------------------------------------------------

  /** The plans of a user (`select(Plan).where(Plan.user_id == user_id)`). */
  function UserPlans(t: Tables, userId: int): (s: set<nat>)
    ensures forall k :: k in s <==> k in t.plans && t.plans[k].userId == userId
  {
    set k | k in t.plans && t.plans[k].userId == userId
  }

  /** The `created_at` column of the plans, as a sort key. */
  function PlanDates(t: Tables): (key: map<nat, int>)
    ensures key.Keys == t.plans.Keys
    ensures forall k :: k in key ==> key[k] == t.plans[k].createdAt
  {
    map k | k in t.plans :: t.plans[k].createdAt
  }

  /**
   * The answer of the `get_user_plans` branch: every plan of the user, newest
   * first; an unknown user simply has none. Nothing is written.
   */
  ghost predicate PlansAnswered(t: Tables, args: map<string, Json>, result: ToolResult) {
    && (IdArg(args, "user_id").None? <==> result == ToolError(PlansTool))
    && (result.ToolError? ==> result.tool == PlansTool)
    && (IdArg(args, "user_id").Some? ==>
          && result.PlanList?
          && var s := UserPlans(t, IdArg(args, "user_id").value);
             TopByKey(s, PlanDates(t), |s|, result.planIds))
  }

  /** The `get_user_plans` branch, answering as `PlansAnswered` says. */
  method GetUserPlans(t: Tables, args: map<string, Json>) returns (result: ToolResult)
    ensures PlansAnswered(t, args, result)
  {
    var user := IdArg(args, "user_id");
    if user.None? {
      return ToolError(PlansTool);
    }
    var s := UserPlans(t, user.value);
    var ids := SelectTopByKey(s, PlanDates(t), |s|);
    result := PlanList(ids);
  }

  /** `arguments.get("days", 30)`: `None` for a value that is not an integer, treated as raising. */
  function DaysArg(args: map<string, Json>): (r: Option<int>)
    ensures "days" !in args ==> r == Some(DefaultPeriodDays)
    ensures "days" in args ==> (r.Some? <==> args["days"].JNum?)
    ensures "days" in args && r.Some? ==> args["days"] == JNum(r.value)
  {
    if "days" !in args then Some(DefaultPeriodDays)
    else if args["days"].JNum? then Some(args["days"].n)
    else None
  }

  /**
   * The answer of the `get_user_progress` branch: a text for an unknown user,
   * else the progress summary over the rows `ordered` the query returned; a
   * `days` value that is not an integer raises only once the user is found.
   * Nothing is written.
   */
  ghost predicate ProgressAnswered(t: Tables, args: map<string, Json>, now: int, result: ToolResult, ordered: seq<nat>) {
    && (result.ToolError? ==> result.tool == ProgressTool)
    && (IdArg(args, "user_id").None? ==> result == ToolError(ProgressTool))
    && (IdArg(args, "user_id").Some? && FindUser(t, IdArg(args, "user_id").value).None? ==>
          result == Message(UserNotFoundText(IdArg(args, "user_id").value)))
    && (IdArg(args, "user_id").Some? && FindUser(t, IdArg(args, "user_id").value).Some? ==>
          var u := IdArg(args, "user_id").value;
          && (DaysArg(args).None? <==> result == ToolError(ProgressTool))
          && (DaysArg(args).Some? ==>
                var days := DaysArg(args).value;
                && TopByKey(PeriodReports(t, u, Cutoff(now, days)), ReportDates(t),
                            |PeriodReports(t, u, Cutoff(now, days))|, ordered)
                && (forall i :: 0 <= i < |ordered| ==> ordered[i] in t.reports)
                && result == ProgressData(Summarize(t, u, days, ordered))))
  }

  /** The `get_user_progress` branch, answering as `ProgressAnswered` says. */
  method GetUserProgressTool(t: Tables, args: map<string, Json>, now: int) returns (result: ToolResult, ordered: seq<nat>)
    ensures ProgressAnswered(t, args, now, result, ordered)
  {
    ordered := [];
    var user := IdArg(args, "user_id");
    if user.None? {
      return ToolError(ProgressTool), [];
    }
    if FindUser(t, user.value).None? {
      return Message(UserNotFoundText(user.value)), [];
    }
    var days := DaysArg(args);
    if days.None? {
      return ToolError(ProgressTool), [];
    }
    var s;
    s, ordered := UserProgress(t, user.value, days.value, now);
    result := ProgressData(s);
  }

  // ---------------------------------------------------------------------------
  // update_plan, delete_plan
  // ---------------------------------------------------------------------------

  /** The arguments of `update_plan` other than `plan_id`. */
  function UpdateData(args: map<string, Json>): (r: map<string, Json>)
    ensures forall k :: k in r <==> k in args && k != "plan_id"
    ensures forall k :: k in r ==> r[k] == args[k]
  {
    map k | k in args && k != "plan_id" :: args[k]
  }

  /**
   * The answer of the `update_plan` branch over `t`, and the store `t'` it
   * leaves: a text for an unknown plan; otherwise every supplied column is
   * written and committed and the others keep their values, or, when some
   * argument cannot be set or stored, the call raises and nothing is written.
   */
  ghost predicate UpdateAnswered(t: Tables, t': Tables, args: map<string, Json>, result: ToolResult) {
    && (result.ToolError? ==> result.tool == UpdateTool && t' == t)
    && (IdArg(args, "plan_id").None? ==> result == ToolError(UpdateTool) && t' == t)
    && (IdArg(args, "plan_id").Some? ==>
          var p, updates := IdArg(args, "plan_id").value, UpdateData(args);
          && (FindPlan(t, p).None? ==> result == Message(PlanNotFoundText(p)) && t' == t)
          && (FindPlan(t, p).Some? && !(forall k :: k in updates ==> Settable(k, updates[k])) ==>
                result == ToolError(UpdateTool) && t' == t)
          && (FindPlan(t, p).Some? && (forall k :: k in updates ==> Settable(k, updates[k])) ==>
                && result.PlanUpdated?
                && (forall c :: FieldOf(result.plan, c) ==
                      if ColumnName(c) in updates then updates[ColumnName(c)] else FieldOf(FindPlan(t, p).value, c))
                && result.plan.createdAt == FindPlan(t, p).value.createdAt
                && t' == t.(plans := t.plans[p as nat := result.plan])))
  }

  /** The `update_plan` branch, answering as `UpdateAnswered` says. */
  method UpdatePlanTool(db: Database, args: map<string, Json>) returns (result: ToolResult)
    modifies db
    ensures UpdateAnswered(old(db.committed), db.committed, args, result)
  {
    var plan := IdArg(args, "plan_id");
    if plan.None? {
      return ToolError(UpdateTool);
    }
    var t := db.committed;
    var p := plan.value;
    if FindPlan(t, p).None? {
      return Message(PlanNotFoundText(p));
    }
    var q := ApplyUpdates(FindPlan(t, p).value, UpdateData(args));
    if q.None? {
      return ToolError(UpdateTool);
    }
    db.committed := t.(plans := t.plans[p as nat := q.value]);
    result := PlanUpdated(q.value);
  }

  /**
   * The answer of the `delete_plan` branch over `t`, and the store `t'` it
   * leaves: a text for an unknown plan; otherwise the cascade, committed whole
   * with a confirmation or rolled back with a failure text.
   */
  ghost predicate DeleteAnswered(t: Tables, t': Tables, args: map<string, Json>, fault: Option<nat>, result: ToolResult) {
    && (result.ToolError? ==> result.tool == DeleteTool && t' == t)
    && (result.NotDeleted? ==> t' == t)
    && (IdArg(args, "plan_id").None? ==> result == ToolError(DeleteTool) && t' == t)
    && (IdArg(args, "plan_id").Some? ==>
          var p := IdArg(args, "plan_id").value;
          && (FindPlan(t, p).None? ==> result == Message(PlanNotFoundText(p)) && t' == t)
          && (FindPlan(t, p).Some? && FailsAt(fault, t, p as nat) ==> result == NotDeleted && t' == t)
          && (FindPlan(t, p).Some? && !FailsAt(fault, t, p as nat) ==>
                result == Message(DeletedText(p)) && t' == Cascade(t, p as nat)))
  }

  /** The `delete_plan` branch, answering as `DeleteAnswered` says. */
  method DeletePlanTool(db: Database, args: map<string, Json>, fault: Option<nat>) returns (result: ToolResult)
    modifies db
    ensures DeleteAnswered(old(db.committed), db.committed, args, fault, result)
  {
    var plan := IdArg(args, "plan_id");
    if plan.None? {
      return ToolError(DeleteTool);
    }
    var p := plan.value;
    if FindPlan(db.committed, p).None? {
      return Message(PlanNotFoundText(p));
    }
    var deleted := DeleteCascade(db, p as nat, fault);
    result := if deleted then Message(DeletedText(p)) else NotDeleted;
  }

  // ---------------------------------------------------------------------------
  // Dispatch
  // ---------------------------------------------------------------------------

  /** The tool names the dispatcher knows. */
  predicate KnownTool(name: string) {
    name in {ReportTool, ProgressTool, UpdateTool, DeleteTool, PlansTool, UserTool, StubGenerateTool} || name in OtherTools
  }

  /**
   * `handle_call_tool`: each known tool answers as its branch does; an unknown
   * name gets a text naming it; the read-only tools write nothing; an error
   * answer never leaves a write behind. `now`
   * is the clock and `fault` the statement a delete's database refuses.
   */
  method HandleCallTool(db: Database, name: string, args: map<string, Json>, now: int, fault: Option<nat>)
    returns (result: ToolResult)
    modifies db
    ensures !KnownTool(name) ==> result == Message(UnknownToolText(name)) && db.committed == old(db.committed)
    ensures name in OtherTools ==> result == Outside(name) && db.committed == old(db.committed)
    ensures name == StubGenerateTool ==> result == Message(StubGenerateText) && db.committed == old(db.committed)
    ensures name == UserTool ==> result == GetUser(old(db.committed), args)
    ensures name == PlansTool || name == ProgressTool || name == UserTool ==> db.committed == old(db.committed)
    ensures result.ToolError? ==> result.tool == name && db.committed == old(db.committed)
    ensures result.NotDeleted? ==> db.committed == old(db.committed)
    ensures name == ReportTool ==> ReportAnswered(old(db.committed), db.committed, args, now, result)
    ensures name == UpdateTool ==> UpdateAnswered(old(db.committed), db.committed, args, result)
    ensures name == DeleteTool ==> DeleteAnswered(old(db.committed), db.committed, args, fault, result)
    ensures name == PlansTool ==> PlansAnswered(old(db.committed), args, result)
    ensures name == ProgressTool ==> exists ordered :: ProgressAnswered(old(db.committed), args, now, result, ordered)
  {
    if name == ReportTool {
      result := ReportWorkoutSession(db, args, now);
    } else if name == ProgressTool {
      var ordered;
      result, ordered := GetUserProgressTool(db.committed, args, now);
    } else if name == UpdateTool {
      result := UpdatePlanTool(db, args);
    } else if name == DeleteTool {
      result := DeletePlanTool(db, args, fault);
    } else if name == PlansTool {
      result := GetUserPlans(db.committed, args);
    } else if name == UserTool {
      result := GetUser(db.committed, args);
    } else if name == StubGenerateTool {
      result := Message(StubGenerateText);
    } else if name in OtherTools {
      result := Outside(name);
    } else {
      result := Message(UnknownToolText(name));
    }
  }
}
