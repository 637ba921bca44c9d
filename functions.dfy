/**
 * functions.py: an older copy of the tool table. Its search, grievance and
 * registration tools behave as the ones in tools.py; its mark-status tool opens
 * the database inside the `try`, so every failure, the connection included,
 * yields the apology.
 */
module Functions {
  import opened Values
  import opened ToolFormat
  import Tools

  /** `get_mark_status_summary` of functions.py. */
  function MarkStatusSummary(db: DbOutcome): ToolResult {
    if !db.connects || !db.executes then Returned(MarkApology)
    else
      match RowsText(db.rows)
      case Err(_) => Returned(MarkApology)
      case Ok(rows) =>
        if db.fetchFails || !db.closes then Returned(MarkApology)
        else Returned(TableHeader + TableSeparator + rows)
  }

  /** This copy never raises and never ends the process: it returns the table or the apology. */
  lemma MarkStatusSummaryOutcomes(db: DbOutcome)
    ensures var ok := db.connects && db.executes && RowsText(db.rows).Ok? && !db.fetchFails && db.closes;
      MarkStatusSummary(db) ==
        Returned(if ok then TableHeader + TableSeparator + RowsText(db.rows).value else MarkApology)
  {
  }

  /**
   * Against the tools.py tool as written: the copies return the same table when
   * everything succeeds; when only `close()` fails this copy apologises where
   * tools.py still returns the table; when the query, a row or the cursor's
   * iteration fails this copy apologises where tools.py raises
   * `UnboundLocalError`; and when the connection fails tools.py ends the process.
   */
  lemma AgreesWithTools(db: DbOutcome)
    ensures var fetched := db.connects && db.executes && RowsText(db.rows).Ok? && !db.fetchFails;
      fetched && db.closes ==> MarkStatusSummary(db) == Tools.MarkStatusSummaryAsWritten(db)
    ensures var fetched := db.connects && db.executes && RowsText(db.rows).Ok? && !db.fetchFails;
      fetched && !db.closes ==>
        && MarkStatusSummary(db) == Returned(MarkApology)
        && Tools.MarkStatusSummaryAsWritten(db) == Returned(TableHeader + TableSeparator + RowsText(db.rows).value)
    ensures var fetched := db.connects && db.executes && RowsText(db.rows).Ok? && !db.fetchFails;
      db.connects && !fetched ==>
        && MarkStatusSummary(db) == Returned(MarkApology)
        && Tools.MarkStatusSummaryAsWritten(db) == Raised(UnboundLocalError)
    ensures !db.connects ==> MarkStatusSummary(db) == Returned(MarkApology) && Tools.MarkStatusSummaryAsWritten(db) == ProcessExit(1)
  {
  }

  /**
   * Against the tools.py tool as its `except` branch intends: the copies agree
   * whenever the database can be reached, and differ only in that tools.py ends
   * the process when the connection fails.
   */
  lemma AgreesWithIntendedTools(db: DbOutcome)
    ensures db.connects ==> MarkStatusSummary(db) == Tools.MarkStatusSummary(db)
    ensures !db.connects ==> MarkStatusSummary(db) == Returned(MarkApology) && Tools.MarkStatusSummary(db) == ProcessExit(1)
  {
  }

  /** `available_functions` of functions.py. */
  const AvailableFunctions: map<string, ToolName> := Tools.AvailableFunctions

  /** A call through this table: the tools.py binding and bodies, with this copy's mark-status tool. */
  function Call(t: ToolName, kwargs: map<string, Value>, env: Backend): ToolResult {
    Tools.Invoke(t, kwargs, env, MarkStatusSummary)
  }

  /** Apart from the mark-status tool, a call behaves exactly as the tools.py table's. */
  lemma CallAgreesWithTools(t: ToolName, kwargs: map<string, Value>, env: Backend)
    requires t != GetMarkStatusSummary
    ensures Call(t, kwargs, env) == Tools.Call(t, kwargs, env)
  {
  }

  /** A mark-status call through this table never raises. */
  lemma MarkStatusCallNeverRaises(kwargs: map<string, Value>, env: Backend)
    requires kwargs.Keys == {"user_name"}
    ensures Call(GetMarkStatusSummary, kwargs, env).Returned?
  {
    assert kwargs.Keys == set p | p in ["user_name"];
    assert BindArguments(["user_name"], kwargs).Ok?;
  }
}
