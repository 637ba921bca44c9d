/**
 * The parts of the four tools that tools.py and functions.py write identically:
 * the tool names and their Python signatures, the shapes of the backend replies,
 * and the string building of the search context, the mark table rows, the
 * issue-tracker query, the grievance status text and the registration message.
 * Backend replies arrive as inputs; the services themselves are not modelled.
 */
module ToolFormat {
  import opened Common
  import opened Values

  // ---------------------------------------------------------------------------
  // Tool names and signatures

  datatype ToolName =
    | PerformSearchBasedQna
    | GetMarkStatusSummary
    | GetGrievanceStatusDef
    | RegisterUserGrievanceDef

  /** The Python name of each tool function. */
  function PythonName(t: ToolName): string {
    match t
    case PerformSearchBasedQna => "perform_search_based_qna"
    case GetMarkStatusSummary => "get_mark_status_summary"
    case GetGrievanceStatusDef => "get_grievance_status_def"
    case RegisterUserGrievanceDef => "register_user_grievance_def"
  }

  /** The parameter names of each tool function, in declaration order. */
  function Parameters(t: ToolName): seq<string> {
    match t
    case PerformSearchBasedQna => ["query"]
    case GetMarkStatusSummary => ["user_name"]
    case GetGrievanceStatusDef => ["grievance_id"]
    case RegisterUserGrievanceDef => ["grievance_category", "grievance_description"]
  }

  /**
   * `f(**kwargs)` for a function with the given parameters and no defaults: every
   * parameter must be supplied and nothing else, or Python raises `TypeError`.
   * The result lists the argument values in parameter order.
   */
  function BindArguments(params: seq<string>, kwargs: map<string, Value>): (r: Result<seq<Value>>)
    ensures r.Ok? <==> kwargs.Keys == set p | p in params
    ensures r.Ok? ==> |r.value| == |params| && forall i :: 0 <= i < |params| ==> r.value[i] == kwargs[params[i]]
  {
    if kwargs.Keys == set p | p in params then
      Ok(seq(|params|, i requires 0 <= i < |params| => kwargs[params[i]]))
    else
      Err(TypeError)
  }

  // ---------------------------------------------------------------------------
  // Backend replies, given to the formatting code as inputs

  /** What `list(client.search(...))` comes to: the result documents, or an exception. */
  datatype SearchOutcome = SearchRaised | SearchResults(docs: seq<Value>)

  /**
   * A database session for one mark-status query: whether the connection opens,
   * whether the query executes, the rows the cursor yields (each rendered by
   * `str()` column by column), whether the cursor then fails, and whether
   * closing the connection fails.
   */
  datatype DbOutcome = DbOutcome(
    connects: bool,
    executes: bool,
    rows: seq<seq<string>>,
    fetchFails: bool,
    closes: bool)

  /** What `l_jira.jql(JQL)` comes to: the decoded JSON reply, or an exception. */
  datatype JqlOutcome = JqlRaised | JqlReply(body: Value)

  /** What `l_jira.create_issue(fields=...)` comes to. */
  datatype CreateOutcome = CreateRaised | Created(body: Value)

  /**
   * The outside world the tools talk to. `strOf` is Python's `str()` of the JSON
   * values the model does not render itself (floats, lists, dicts).
   */
  datatype Backend = Backend(
    search: Value -> SearchOutcome,
    database: Value -> DbOutcome,
    jiraReachable: bool,
    jql: string -> JqlOutcome,
    createIssue: Value -> CreateOutcome,
    grievanceProjectName: string,
    grievanceProjectKey: Value,
    strOf: Value -> string)

  /** Python's `str(v)`. */
  function PyStr(v: Value, strOf: Value -> string): string {
    match v
    case Int(i) => DecimalText(i)
    case Str(s) => s
    case Bool(b) => if b then "True" else "False"
    case Null => "None"
    case _ => strOf(v)
  }

  // ---------------------------------------------------------------------------
  // Accumulating text over a sequence, stopping at the first exception

  /** The pieces `f(x)` of every element, concatenated in order, or the first failure. */
  function JoinAll<T>(xs: seq<T>, f: T -> Result<string>): Result<string>
    decreases |xs|
  {
    if xs == [] then Ok("")
    else
      var head :- f(xs[0]);
      var tail :- JoinAll(xs[1..], f);
      Ok(head + tail)
  }

  lemma JoinAllSingle<T>(x: T, f: T -> Result<string>)
    ensures JoinAll([x], f) == f(x)
  {
    assert [x][1..] == [];
    if f(x).Ok? {
      assert f(x).value + "" == f(x).value;
    }
  }

  /**
   * Joining two runs is joining each and concatenating, and a failure in the
   * first run is the failure of the whole: pieces keep their order.
   */
  lemma {:induction false} JoinAllAppend<T>(a: seq<T>, b: seq<T>, f: T -> Result<string>)
    ensures JoinAll(a + b, f) ==
      match JoinAll(a, f)
      case Err(e) => Err(e)
      case Ok(s) => (match JoinAll(b, f) case Err(e) => Err(e) case Ok(t) => Ok(s + t))
    decreases |a|
  {
    if a == [] {
      assert a + b == b;
      if JoinAll(b, f).Ok? {
        assert "" + JoinAll(b, f).value == JoinAll(b, f).value;
      }
    } else {
      assert (a + b)[0] == a[0];
      assert (a + b)[1..] == a[1..] + b;
      JoinAllAppend(a[1..], b, f);
      if f(a[0]).Ok? && JoinAll(a[1..], f).Ok? && JoinAll(b, f).Ok? {
        var h, s, t := f(a[0]).value, JoinAll(a[1..], f).value, JoinAll(b, f).value;
        assert h + (s + t) == (h + s) + t;
      }
    }
  }

  /** The join succeeds exactly when every piece does. */
  lemma {:induction false} JoinAllOk<T>(xs: seq<T>, f: T -> Result<string>)
    ensures JoinAll(xs, f).Ok? <==> forall i :: 0 <= i < |xs| ==> f(xs[i]).Ok?
    decreases |xs|
  {
    if xs != [] {
      JoinAllOk(xs[1..], f);
      assert forall i :: 1 <= i < |xs| ==> xs[i] == xs[1..][i - 1];
    }
  }

  // ---------------------------------------------------------------------------
  // perform_search_based_qna

  const DocStart := " --- Document context start ---"
  const DocEnd := "\n ---End of Document ---\n"

  /** One chunk with its markers. */
  function Marked(chunk: string): string {
    DocStart + chunk + DocEnd
  }

  /**
   * The loop body for one search result: the log line reads `result['title']`
   * and `result['chunk']`, then the chunk is appended between the markers.
   */
  function DocContext(doc: Value): Result<string> {
    var _ :- Subscript(doc, "title");
    var chunk :- Subscript(doc, "chunk");
    var withStart :- AddStr(DocStart, chunk);
    Ok(withStart + DocEnd)
  }

  function Min(a: nat, b: nat): nat {
    if a < b then a else b
  }

  /** Reference definition: the contexts of the first two results only, in order. */
  function SearchContextSpec(results: seq<Value>): Result<string> {
    JoinAll(results[..Min(2, |results|)], DocContext)
  }

  /** The loop of `perform_search_based_qna` over the result list, with its counter and break. */
  method SearchContext(results: seq<Value>) returns (r: Result<string>)
    ensures r == SearchContextSpec(results)
  {
    var responseDocs := "";
    var counter := 0;
    var i := 0;
    while i < |results|
      invariant 0 <= i <= |results| && i <= 1
      invariant counter == i
      invariant JoinAll(results[..i], DocContext) == Ok(responseDocs)
    {
      var doc := results[i];
      assert results[..i + 1] == results[..i] + [doc];
      JoinAllAppend(results[..i], [doc], DocContext);
      JoinAllSingle(doc, DocContext);
      var piece := DocContext(doc);
      if piece.Err? {
        var taken := Min(2, |results|);
        assert results[..taken] == results[..i + 1] + results[i + 1..taken];
        JoinAllAppend(results[..i + 1], results[i + 1..taken], DocContext);
        return Err(piece.exc);
      }
      responseDocs := responseDocs + piece.value;
      counter := counter + 1;
      i := i + 1;
      if counter == 2 {
        break;
      }
    }
    r := Ok(responseDocs);
  }

  /** Zero results give the empty context. */
  lemma SearchNoResults()
    ensures SearchContextSpec([]) == Ok("")
  {
  }

  /** A result with a `title` and a string `chunk` contributes that chunk between the markers. */
  predicate WellFormedResult(doc: Value, chunk: string) {
    doc.Object? && "title" in doc.fields && "chunk" in doc.fields && doc.fields["chunk"] == Str(chunk)
  }

  /**
   * With well-formed results the context is the first chunk, then the second,
   * each between the markers, and nothing of any later result; the titles and
   * any other fields are not read.
   */
  lemma SearchFirstTwo(results: seq<Value>, c0: string, c1: string)
    requires |results| >= 2
    requires WellFormedResult(results[0], c0) && WellFormedResult(results[1], c1)
    ensures SearchContextSpec(results) == Ok(Marked(c0) + Marked(c1))
  {
    assert results[..2] == [results[0]] + [results[1]];
    JoinAllAppend([results[0]], [results[1]], DocContext);
    JoinAllSingle(results[0], DocContext);
    JoinAllSingle(results[1], DocContext);
    assert DocContext(results[0]) == Ok(Marked(c0));
    assert DocContext(results[1]) == Ok(Marked(c1));
  }

  /** A single well-formed result gives its chunk between the markers. */
  lemma SearchOne(doc: Value, c: string)
    requires WellFormedResult(doc, c)
    ensures SearchContextSpec([doc]) == Ok(Marked(c))
  {
    assert [doc][..1] == [doc];
    JoinAllSingle(doc, DocContext);
    assert DocContext(doc) == Ok(Marked(c));
  }

  /** Results after the second are never read: they can neither add text nor fail. */
  lemma SearchIgnoresLater(results: seq<Value>, later: seq<Value>)
    requires |results| >= 2
    ensures SearchContextSpec(results + later) == SearchContextSpec(results)
  {
    assert (results + later)[..2] == results[..2];
  }

  // ---------------------------------------------------------------------------
  // get_mark_status_summary: the markdown table

  const TableHeader := "| StudentID| Name | Branch | Semester | Subject |Score |Grade |Attendance|\n"
  const TableSeparator := "| --- | --- | --- | --- | --- |---|---|---| \n"
  const MarkApology := "We had an issue retrieving your mark status. Please check back in some time"

  /** The markdown line of one row; `row[7]` of a shorter row raises `IndexError`. */
  function RowLine(row: seq<string>): Result<string> {
    if |row| < 8 then Err(IndexError)
    else
      Ok("| " + row[0] + " | " + row[1] + " | " + row[2] + " | " + row[3] + " | " + row[4]
         + " |" + row[5] + " |" + row[6] + " |" + row[7] + " |\n")
  }

  /** Reference definition: the lines of all rows, in cursor order. */
  function RowsText(rows: seq<seq<string>>): Result<string> {
    JoinAll(rows, RowLine)
  }

  /** The `table_rows +=` loop over the cursor. */
  method TableRows(rows: seq<seq<string>>) returns (r: Result<string>)
    ensures r == RowsText(rows)
  {
    var tableRows := "";
    for i := 0 to |rows|
      invariant JoinAll(rows[..i], RowLine) == Ok(tableRows)
    {
      assert rows[..i + 1] == rows[..i] + [rows[i]];
      JoinAllAppend(rows[..i], [rows[i]], RowLine);
      JoinAllSingle(rows[i], RowLine);
      var line := RowLine(rows[i]);
      if line.Err? {
        assert rows == rows[..i + 1] + rows[i + 1..];
        JoinAllAppend(rows[..i + 1], rows[i + 1..], RowLine);
        return Err(line.exc);
      }
      tableRows := tableRows + line.value;
    }
    assert rows[..|rows|] == rows;
    r := Ok(tableRows);
  }

  /** The table text succeeds exactly when every row has all eight columns. */
  lemma RowsTextOk(rows: seq<seq<string>>)
    ensures RowsText(rows).Ok? <==> forall i :: 0 <= i < |rows| ==> |rows[i]| >= 8
  {
    JoinAllOk(rows, RowLine);
  }

  // ---------------------------------------------------------------------------
  // get_grievance_status_def

  /** The issue-tracker query for one grievance. */
  function GrievanceJql(projectName: string, idText: string): string {
    "project = " + projectName + " AND id = " + idText
  }

  /** Two integer grievance ids give the same query only if they are equal. */
  lemma GrievanceJqlInjective(projectName: string, i: int, j: int)
    requires GrievanceJql(projectName, DecimalText(i)) == GrievanceJql(projectName, DecimalText(j))
    ensures i == j
  {
    var prefix := "project = " + projectName + " AND id = ";
    assert GrievanceJql(projectName, DecimalText(i))[|prefix|..] == DecimalText(i);
    assert GrievanceJql(projectName, DecimalText(j))[|prefix|..] == DecimalText(j);
    DecimalTextInjective(i, j);
  }

  const StatusIntro := "\n Here is the updated status of your grievance.\ngrievance_id : "
  const NoDueDate := "\ndue date : not assigned by the system yet."
  const GrievanceNotFound := "sorry, we could not locate a grievance with this ID. Can you please verify your input again?"
  const RetrievalApology := "We had an issue retrieving your grievance status. Please check back in some time"

  /** `v[k0][k1]...` for a path of string keys. */
  function Path(v: Value, keys: seq<string>): Result<Value>
    decreases |keys|
  {
    if keys == [] then Ok(v)
    else
      var next :- Subscript(v, keys[0]);
      Path(next, keys[1..])
  }

  /** The due-date line: the due date when it is truthy, else the fallback text. */
  function DueDateLine(due: Value): Result<string> {
    if Truthy(due) then AddStr("\ndue date : ", due) else Ok(NoDueDate)
  }

  /** The body of the `try` block once the query has answered. */
  function StatusReport(body: Value): Result<string> {
    var issues :- Subscript(body, "issues");
    if !Truthy(issues) then Ok(GrievanceNotFound)
    else
      var first :- Index(issues, 0);
      var id :- Subscript(first, "id");
      var response :- AddStr(StatusIntro, id);
      var priority :- Path(first, ["fields", "priority", "name"]);
      var priorityLine :- AddStr("\npriority : ", priority);
      var status :- Path(first, ["fields", "status", "statusCategory", "key"]);
      var statusLine :- AddStr("\nstatus : ", status);
      var description :- Path(first, ["fields", "description"]);
      var descriptionLine :- AddStr("\ngrievance description : ", description);
      var due :- Path(first, ["fields", "duedate"]);
      var dueLine :- DueDateLine(due);
      Ok(response + priorityLine + statusLine + descriptionLine + dueLine)
  }

  /** What `get_grievance_status_def` returns once the query string is built and Jira is reachable. */
  function GrievanceStatus(reply: JqlOutcome): string {
    match reply
    case JqlRaised => RetrievalApology
    case JqlReply(body) =>
      match StatusReport(body)
      case Ok(text) => text
      case Err(_) => RetrievalApology
  }

  /**
   * A found issue is reported field by field, in the fixed order; the due-date
   * line carries the due date when it is a non-empty string and the fallback
   * text when it is null or empty.
   */
  lemma GrievanceFound(body: Value, first: Value, id: string, priority: string, status: string,
                       description: string, due: Value)
    requires Subscript(body, "issues").Ok?
    requires var issues := Subscript(body, "issues").value; issues.List? && |issues.items| > 0 && issues.items[0] == first
    requires Subscript(first, "id") == Ok(Str(id))
    requires Path(first, ["fields", "priority", "name"]) == Ok(Str(priority))
    requires Path(first, ["fields", "status", "statusCategory", "key"]) == Ok(Str(status))
    requires Path(first, ["fields", "description"]) == Ok(Str(description))
    requires Path(first, ["fields", "duedate"]) == Ok(due)
    requires due.Null? || due.Str?
    ensures GrievanceStatus(JqlReply(body)) ==
      (StatusIntro + id) + ("\npriority : " + priority) + ("\nstatus : " + status)
      + ("\ngrievance description : " + description)
      + (if due.Str? && due.s != "" then "\ndue date : " + due.s else NoDueDate)
  {
    var issues := Subscript(body, "issues").value;
    assert Truthy(issues);
    assert Index(issues, 0) == Ok(first);
    assert DueDateLine(due) == Ok(if due.Str? && due.s != "" then "\ndue date : " + due.s else NoDueDate);
  }

  /** An empty issue list gives the fixed "could not locate" text. */
  lemma GrievanceMissing(body: Value)
    requires body.Object? && "issues" in body.fields && body.fields["issues"] == List([])
    ensures GrievanceStatus(JqlReply(body)) == GrievanceNotFound
  {
  }

  /**
   * Every reply ends in one of the three outcomes: the apology, the "could not
   * locate" text, or a report that starts with the status introduction.
   */
  lemma GrievanceOutcomes(reply: JqlOutcome)
    ensures var r := GrievanceStatus(reply);
      r == RetrievalApology || r == GrievanceNotFound
      || (|r| >= |StatusIntro| && r[..|StatusIntro|] == StatusIntro)
  {
    if reply.JqlReply? {
      var s := StatusReport(reply.body);
      if s.Ok? && s.value != GrievanceNotFound {
        var issues := Subscript(reply.body, "issues").value;
        var first := Index(issues, 0).value;
        var id := Subscript(first, "id").value;
        var response := AddStr(StatusIntro, id).value;
        assert response[..|StatusIntro|] == StatusIntro;
      }
    }
  }

  // ---------------------------------------------------------------------------
  // register_user_grievance_def

  const RegisteredPrefix := "We are sorry about the issue you are facing. We have registered a grievance with id "
  const RegisteredSuffix := " to track it to closure. Please quote that in your future communications with us"
  const RegistrationApology := "We had an issue registering your grievance. Please check back in some time"

  /** The `issue_details` dict handed to `create_issue`. */
  function IssueDetails(projectKey: Value, category: Value, description: Value): Value {
    Object(map[
      "project" := Object(map["key" := projectKey]),
      "summary" := category,
      "description" := description,
      "issuetype" := Object(map["name" := Str("Task")])])
  }

  /** The message once `create_issue` has answered: it embeds the created issue's `id`. */
  function RegistrationMessage(created: CreateOutcome): string {
    match created
    case CreateRaised => RegistrationApology
    case Created(body) =>
      match Subscript(body, "id")
      case Err(_) => RegistrationApology
      case Ok(id) =>
        match AddStr(RegisteredPrefix, id)
        case Err(_) => RegistrationApology
        case Ok(text) => text + RegisteredSuffix
  }

  /** A created issue with a string id is acknowledged with that id; any failure gives the apology. */
  lemma RegistrationOutcomes(created: CreateOutcome)
    ensures var r := RegistrationMessage(created);
      if created.Created? && created.body.Object? && "id" in created.body.fields
         && created.body.fields["id"].Str?
      then r == RegisteredPrefix + created.body.fields["id"].s + RegisteredSuffix
      else r == RegistrationApology
  {
  }

  // ---------------------------------------------------------------------------
  // The three tools whose code is the same in tools.py and functions.py

  /** `perform_search_based_qna(query)`: no `try`, so a backend or format failure propagates. */
  function SearchTool(query: Value, env: Backend): (r: ToolResult)
    ensures env.search(query).SearchRaised? ==> r == Raised(BackendError)
    ensures env.search(query).SearchResults? && SearchContextSpec(env.search(query).docs).Ok? ==>
      r == Returned(SearchContextSpec(env.search(query).docs).value)
    ensures env.search(query).SearchResults? && SearchContextSpec(env.search(query).docs).Err? ==>
      r == Raised(SearchContextSpec(env.search(query).docs).exc)
  {
    match env.search(query)
    case SearchRaised => Raised(BackendError)
    case SearchResults(docs) =>
      match SearchContextSpec(docs)
      case Ok(text) => Returned(text)
      case Err(e) => Raised(e)
  }

  /**
   * `get_grievance_status_def(grievance_id)`: the query string is built first,
   * then the issue tracker is connected to (outside the `try`: an unreachable
   * tracker ends the process with `exit(1)`), then the query runs.
   */
  function GrievanceTool(grievanceId: Value, env: Backend): ToolResult {
    var jql := GrievanceJql(env.grievanceProjectName, PyStr(grievanceId, env.strOf));
    if !env.jiraReachable then ProcessExit(1)
    else Returned(GrievanceStatus(env.jql(jql)))
  }

  /**
   * `register_user_grievance_def(grievance_category, grievance_description)`:
   * the `exit(1)` of an unreachable tracker is a `SystemExit`, which the
   * surrounding `except Exception` does not catch.
   */
  function RegisterTool(category: Value, description: Value, env: Backend): ToolResult {
    var details := IssueDetails(env.grievanceProjectKey, category, description);
    if !env.jiraReachable then ProcessExit(1)
    else Returned(RegistrationMessage(env.createIssue(details)))
  }

  /** An integer grievance id is queried as its decimal text. */
  lemma GrievanceToolQueriesId(i: int, env: Backend)
    requires env.jiraReachable
    ensures GrievanceTool(Int(i), env) ==
      Returned(GrievanceStatus(env.jql("project = " + env.grievanceProjectName + " AND id = " + DecimalText(i))))
  {
  }

  /** The issue is created with the category as summary and the description as description. */
  lemma RegisterToolCreates(category: Value, description: Value, env: Backend)
    requires env.jiraReachable
    ensures var details := IssueDetails(env.grievanceProjectKey, category, description);
      && Subscript(details, "summary") == Ok(category)
      && Subscript(details, "description") == Ok(description)
      && RegisterTool(category, description, env) == Returned(RegistrationMessage(env.createIssue(details)))
  {
  }
}
