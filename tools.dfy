/**
 * tools.py: the schema list the session configuration advertises, the
 * name-to-callable table the client looks tool calls up in, and the
 * mark-status tool, whose error path differs from the copy in functions.py.
 */
module Tools {
  import opened Common
  import opened Values
  import opened ToolFormat

  /** One property of a tool's JSON-schema parameter object. */
  datatype Property = Property(name: string, jsonType: string, description: Option<string>, choices: seq<string>)

  /** One entry of `tools_list`. */
  datatype Schema = Schema(name: string, description: string, properties: seq<Property>, required: seq<string>)

  const ToolsList: seq<Schema> := [
    Schema("perform_search_based_qna",
      "call this function to respond to the user query on subjects like Accountancy, Chemistry & Physics, based on the course material.",
      [Property("query", "string", None, [])],
      ["query"]),
    Schema("get_mark_status_summary",
      "retrieve the mark status summary for a student based on the user name",
      [Property("user_name", "string", Some("The user name of the student registered in the College System"), [])],
      ["user_name"]),
    Schema("get_grievance_status_def",
      "fetch real time grievance status for a grievance id",
      [Property("grievance_id", "number", Some("The grievance id of the user registered in the Grievance System"), [])],
      ["grievance_id"]),
    Schema("register_user_grievance_def",
      "register a grievance, or complaint or issue from the user in the college facilities, academics system",
      [Property("grievance_category", "string", None,
         ["facilities issues", "Exams issues", "Onboarding issues", "Library issues", "other issues"]),
       Property("grievance_description", "string", Some("The detailed description of the grievance faced by the user"), [])],
      ["grievance_category", "grievance_description"])
  ]

  /** `available_functions`. */
  const AvailableFunctions: map<string, ToolName> := map[
    "perform_search_based_qna" := PerformSearchBasedQna,
    "get_mark_status_summary" := GetMarkStatusSummary,
    "get_grievance_status_def" := GetGrievanceStatusDef,
    "register_user_grievance_def" := RegisterUserGrievanceDef
  ]

  function PropertyNames(props: seq<Property>): seq<string> {
    seq(|props|, i requires 0 <= i < |props| => props[i].name)
  }

  /**
   * The schema list and the callable table agree: every advertised name is a
   * key, every key is advertised, each key maps to the function of that name,
   * and each schema requires exactly its function's parameters, which are
   * exactly its declared properties.
   */
  lemma RegistryConsistent()
    ensures forall i :: 0 <= i < |ToolsList| ==>
      var s := ToolsList[i];
      && s.name in AvailableFunctions
      && PythonName(AvailableFunctions[s.name]) == s.name
      && s.required == Parameters(AvailableFunctions[s.name])
      && PropertyNames(s.properties) == s.required
    ensures forall n :: n in AvailableFunctions ==> exists i :: 0 <= i < |ToolsList| && ToolsList[i].name == n
  {
    forall i | 0 <= i < |ToolsList|
      ensures var s := ToolsList[i];
        && s.name in AvailableFunctions
        && PythonName(AvailableFunctions[s.name]) == s.name
        && s.required == Parameters(AvailableFunctions[s.name])
        && PropertyNames(s.properties) == s.required
    {
      EntryConsistent(i);
    }
    forall n | n in AvailableFunctions
      ensures exists i :: 0 <= i < |ToolsList| && ToolsList[i].name == n
    {
      if n == "perform_search_based_qna" { assert ToolsList[0].name == n; }
      else if n == "get_mark_status_summary" { assert ToolsList[1].name == n; }
      else if n == "get_grievance_status_def" { assert ToolsList[2].name == n; }
      else { assert ToolsList[3].name == n; }
    }
  }

  lemma EntryConsistent(i: nat)
    requires i < |ToolsList|
    ensures var s := ToolsList[i];
      && s.name in AvailableFunctions
      && PythonName(AvailableFunctions[s.name]) == s.name
      && s.required == Parameters(AvailableFunctions[s.name])
      && PropertyNames(s.properties) == s.required
  {
    var s := ToolsList[i];
    if i == 0 {
      assert AvailableFunctions[s.name] == PerformSearchBasedQna;
    } else if i == 1 {
      assert AvailableFunctions[s.name] == GetMarkStatusSummary;
    } else if i == 2 {
      assert AvailableFunctions[s.name] == GetGrievanceStatusDef;
    } else {
      assert AvailableFunctions[s.name] == RegisterUserGrievanceDef;
      assert PropertyNames(s.properties) == [s.properties[0].name, s.properties[1].name];
    }
  }

  function StrList(xs: seq<string>): Value {
    List(seq(|xs|, i requires 0 <= i < |xs| => Str(xs[i])))
  }

  function PropertyJson(p: Property): Value {
    var typed := map["type" := Str(p.jsonType)];
    var described := if p.description.Some? then typed["description" := Str(p.description.value)] else typed;
    Object(if p.choices != [] then described["enum" := StrList(p.choices)] else described)
  }

  function PropertiesJson(props: seq<Property>): map<string, Value>
    decreases |props|
  {
    if props == [] then map[]
    else PropertiesJson(props[..|props| - 1])[props[|props| - 1].name := PropertyJson(props[|props| - 1])]
  }

  /** A schema entry as the JSON object sent in the session configuration. */
  function SchemaJson(s: Schema): Value {
    Object(map[
      "type" := Str("function"),
      "name" := Str(s.name),
      "description" := Str(s.description),
      "parameters" := Object(map[
        "type" := Str("object"),
        "properties" := Object(PropertiesJson(s.properties)),
        "required" := StrList(s.required)])])
  }

  /** `tools_list` as JSON values. */
  function ToolsListJson(): (r: seq<Value>)
    ensures |r| == |ToolsList|
    ensures forall i :: 0 <= i < |r| ==> Subscript(r[i], "name") == Ok(Str(ToolsList[i].name))
  {
    seq(|ToolsList|, i requires 0 <= i < |ToolsList| => SchemaJson(ToolsList[i]))
  }

  /**
   * `get_mark_status_summary` as written. The database connection is opened
   * outside the `try` (a failure ends the process). Inside, any exception before
   * `markdown_table` is assigned leads to `return markdown_table` on an unbound
   * local, which raises `UnboundLocalError`; a failure of `close()` comes after
   * the assignment, so the table is still returned.
   */
  function MarkStatusSummaryAsWritten(db: DbOutcome): ToolResult {
    if !db.connects then ProcessExit(1)
    else if !db.executes then Raised(UnboundLocalError)
    else
      match RowsText(db.rows)
      case Err(_) => Raised(UnboundLocalError)
      case Ok(rows) =>
        if db.fetchFails then Raised(UnboundLocalError)
        else Returned(TableHeader + TableSeparator + rows)
  }

  /**
   * Once connected, the tool as written returns the table when the query, every
   * row and the cursor's iteration succeed, whether or not `close()` then fails;
   * every other failure raises `UnboundLocalError`. It never returns the apology
   * its `except` branch prepares.
   */
  lemma MarkStatusErrorPathRaises(db: DbOutcome)
    requires db.connects
    ensures var ok := db.executes && RowsText(db.rows).Ok? && !db.fetchFails;
      MarkStatusSummaryAsWritten(db) ==
        if ok then Returned(TableHeader + TableSeparator + RowsText(db.rows).value) else Raised(UnboundLocalError)
    ensures MarkStatusSummaryAsWritten(db) != Returned(MarkApology)
  {
    if db.executes && RowsText(db.rows).Ok? && !db.fetchFails {
      TableNotApology(RowsText(db.rows).value);
    }
  }

  /** A rendered table starts with the header, so it is never the apology text. */
  lemma TableNotApology(rows: string)
    ensures TableHeader + TableSeparator + rows != MarkApology
  {
    assert |TableHeader + TableSeparator + rows| >= |TableHeader| + |TableSeparator| > |MarkApology|;
  }

  /**
   * `get_mark_status_summary` as evidently intended: the `except` branch's
   * apology is what an exception inside the `try` returns.
   */
  function MarkStatusSummary(db: DbOutcome): ToolResult {
    if !db.connects then ProcessExit(1)
    else if !db.executes then Returned(MarkApology)
    else
      match RowsText(db.rows)
      case Err(_) => Returned(MarkApology)
      case Ok(rows) =>
        if db.fetchFails || !db.closes then Returned(MarkApology)
        else Returned(TableHeader + TableSeparator + rows)
  }

  /**
   * Once connected, the intended tool never raises: it returns the header, the
   * separator and one line per row when the query, every row and the close
   * succeed, and the apology otherwise.
   */
  lemma MarkStatusSummaryOutcomes(db: DbOutcome)
    requires db.connects
    ensures var ok := db.executes && RowsText(db.rows).Ok? && !db.fetchFails && db.closes;
      MarkStatusSummary(db) ==
        Returned(if ok then TableHeader + TableSeparator + RowsText(db.rows).value else MarkApology)
  {
  }

  /**
   * A call of tool `t` through a table: keyword binding, then the tool body,
   * with `markTool` as the body of the mark-status tool.
   */
  function Invoke(t: ToolName, kwargs: map<string, Value>, env: Backend, markTool: DbOutcome -> ToolResult): ToolResult {
    match BindArguments(Parameters(t), kwargs)
    case Err(e) => Raised(e)
    case Ok(args) =>
      match t
      case PerformSearchBasedQna => SearchTool(args[0], env)
      case GetMarkStatusSummary => markTool(env.database(args[0]))
      case GetGrievanceStatusDef => GrievanceTool(args[0], env)
      case RegisterUserGrievanceDef => RegisterTool(args[0], args[1], env)
  }

  /** A call through `available_functions` of tools.py, its mark-status tool as written. */
  function Call(t: ToolName, kwargs: map<string, Value>, env: Backend): ToolResult {
    Invoke(t, kwargs, env, MarkStatusSummaryAsWritten)
  }

  /** The same call with the mark-status tool as evidently intended. */
  function IntendedCall(t: ToolName, kwargs: map<string, Value>, env: Backend): ToolResult {
    Invoke(t, kwargs, env, MarkStatusSummary)
  }

  /** The callable table the client dispatches tool calls through. */
  function Registry(env: Backend): (r: map<string, map<string, Value> -> ToolResult>)
    ensures r.Keys == AvailableFunctions.Keys
  {
    map n | n in AvailableFunctions :: kwargs => Call(AvailableFunctions[n], kwargs, env)
  }

  /** The table with the corrected mark-status tool. */
  function IntendedRegistry(env: Backend): (r: map<string, map<string, Value> -> ToolResult>)
    ensures r.Keys == AvailableFunctions.Keys
  {
    map n | n in AvailableFunctions :: kwargs => IntendedCall(AvailableFunctions[n], kwargs, env)
  }

  /**
   * The two tables differ only in the mark-status tool: every other name gives
   * the same result, and so does a mark-status call whose query succeeds
   * throughout.
   */
  lemma IntendedRegistryAgrees(env: Backend, name: string, kwargs: map<string, Value>)
    requires name in AvailableFunctions
    ensures name != "get_mark_status_summary" ==> IntendedRegistry(env)[name](kwargs) == Registry(env)[name](kwargs)
    ensures name == "get_mark_status_summary" && kwargs.Keys == {"user_name"} ==>
      var db := env.database(kwargs["user_name"]);
      (db.connects && db.executes && RowsText(db.rows).Ok? && !db.fetchFails && db.closes) ==>
        IntendedRegistry(env)[name](kwargs) == Registry(env)[name](kwargs)
  {
    if name == "get_mark_status_summary" && kwargs.Keys == {"user_name"} {
      assert kwargs.Keys == set p | p in ["user_name"];
      var args := BindArguments(["user_name"], kwargs);
      assert args.Ok? && args.value[0] == kwargs["user_name"];
    }
  }

  /** Looking a name up in the table and calling the result is a call of that tool. */
  lemma RegistryCalls(env: Backend, name: string, kwargs: map<string, Value>)
    requires name in AvailableFunctions
    ensures name in Registry(env)
    ensures Registry(env)[name](kwargs) == Call(AvailableFunctions[name], kwargs, env)
    ensures IntendedRegistry(env)[name](kwargs) == IntendedCall(AvailableFunctions[name], kwargs, env)
  {
  }

  /** A correctly keyed mark-status call through either table runs that table's tool on the user's database session. */
  lemma MarkCall(env: Backend, user: Value)
    ensures Registry(env)["get_mark_status_summary"](map["user_name" := user]) ==
      MarkStatusSummaryAsWritten(env.database(user))
    ensures IntendedRegistry(env)["get_mark_status_summary"](map["user_name" := user]) ==
      MarkStatusSummary(env.database(user))
  {
    var kwargs := map["user_name" := user];
    assert kwargs.Keys == set p | p in ["user_name"];
    RegistryCalls(env, "get_mark_status_summary", kwargs);
  }

  /** A grievance-status call with an integer id queries the tracker for that id. */
  lemma GrievanceCall(env: Backend, id: int)
    requires env.jiraReachable
    ensures Registry(env)["get_grievance_status_def"](map["grievance_id" := Int(id)]) ==
      Returned(GrievanceStatus(env.jql("project = " + env.grievanceProjectName + " AND id = " + DecimalText(id))))
  {
    var kwargs := map["grievance_id" := Int(id)];
    assert kwargs.Keys == set p | p in ["grievance_id"];
    RegistryCalls(env, "get_grievance_status_def", kwargs);
    GrievanceToolQueriesId(id, env);
  }

  /** A keyword set other than the function's parameters raises `TypeError` before the body runs. */
  lemma CallChecksKeywords(t: ToolName, kwargs: map<string, Value>, env: Backend)
    requires kwargs.Keys != set p | p in Parameters(t)
    ensures Call(t, kwargs, env) == Raised(TypeError)
  {
  }

  /** Every advertised tool name resolves in the table the client uses. */
  lemma RegistryCoversSchemas(env: Backend)
    ensures forall i :: 0 <= i < |ToolsList| ==> ToolsList[i].name in Registry(env)
  {
    RegistryConsistent();
  }
}
