/** The three connect handlers of the connection panel (`handleConnect`, `handleFileUpload`
    and `handleLoadSampleDatabase` in frontend/src/components/DatabaseConnection.jsx).
    Each marks the connection as loading, awaits a connect call, then fetches the schema with
    the new session; `connect` and `schema` are the settled outcomes of those two calls. */
module DatabaseConnection {
  import opened Wrappers
  import opened Models
  import opened AppContext

  /** The dispatches shared by the three handlers once their connect call has been made.
      A failure anywhere lands in the single catch, which records a connection error. */
  function ConnectDispatches(connect: Outcome<Config>, schema: Outcome<seq<Table>>): seq<Action>
  {
    match connect
    case Err(m) => [SetConnectionLoading(true), SetConnectionError(m)]
    case Ok(c) =>
      match schema
      case Ok(ts) => [SetConnectionLoading(true), SetConnectionSuccess(c), SetSchemaLoading(true), SetSchemaSuccess(ts)]
      case Err(m) => [SetConnectionLoading(true), SetConnectionSuccess(c), SetSchemaLoading(true), SetConnectionError(m)]
  }

  lemma RunFour(s: State, a: Action, b: Action, c: Action, d: Action)
    ensures Run(s, [a, b, c, d]) == Reduce(Reduce(Reduce(Reduce(s, a), b), c), d)
  {
    assert [a, b, c, d][1..] == [b, c, d];
    RunThree(Reduce(s, a), b, c, d);
  }

  /** The common outcome of a connect handler, stated for every pair of outcomes. */
  function Connect(s: State, connect: Outcome<Config>, schema: Outcome<seq<Table>>): (r: State)
    // the chat and the history are never touched
    ensures r.chat == s.chat && r.history == s.history
    // full success: connected with the returned configuration and the fetched tables
    ensures connect.Ok? && schema.Ok? ==>
      r.connection == ConnectionState(true, Some(connect.value), None, false)
      && r.schema == SchemaState(schema.value, false, None)
    // the connect call failed: an error, no longer loading, old configuration and schema kept
    ensures connect.Err? ==>
      r.connection == s.connection.(isConnected := false, loading := false, error := Some(connect.msg))
      && r.schema == s.schema
    // the schema fetch failed after connecting: the connection is reported failed, while the
    // schema slot is left loading with its old tables and error
    ensures connect.Ok? && schema.Err? ==>
      r.connection == ConnectionState(false, Some(connect.value), Some(schema.msg), false)
      && r.schema == s.schema.(loading := true)
  {
    var acts := ConnectDispatches(connect, schema);
    if connect.Err? then
      RunTwo(s, acts[0], acts[1]);
      Run(s, acts)
    else
      assert acts == [acts[0], acts[1], acts[2], acts[3]];
      RunFour(s, acts[0], acts[1], acts[2], acts[3]);
      Run(s, acts)
  }

  /** The first dispatch of every handler marks the connection loading and clears its error. */
  lemma ConnectStartsLoading(s: State, connect: Outcome<Config>, schema: Outcome<seq<Table>>)
    ensures |ConnectDispatches(connect, schema)| > 0
    ensures var t := Reduce(s, ConnectDispatches(connect, schema)[0]);
      t.connection.loading && t.connection.error == None && t.schema == s.schema
  {
  }

  /** `handleConnect`: submits the credentials form. */
  function HandleConnect(s: State, connect: Outcome<Config>, schema: Outcome<seq<Table>>): (r: State)
    ensures r == Connect(s, connect, schema)
    ensures connect.Ok? && schema.Ok? ==> r.connection.isConnected && r.schema.tables == schema.value
    ensures connect.Err? || schema.Err? ==> !r.connection.isConnected && r.connection.error.Some?
  {
    Run(s, ConnectDispatches(connect, schema))
  }

  /** `handleFileUpload`: returns before dispatching anything when no file was chosen. */
  function HandleFileUpload(s: State, file: Option<string>, connect: Outcome<Config>, schema: Outcome<seq<Table>>): (r: State)
    ensures file.None? ==> r == s
  {
    if file.None? then s else Run(s, ConnectDispatches(connect, schema))
  }

  /** `handleLoadSampleDatabase`: downloads the sample file first; a failed download is
      caught like a failed connect. */
  function HandleLoadSampleDatabase(s: State, download: Outcome<Unit>, connect: Outcome<Config>, schema: Outcome<seq<Table>>): (r: State)
    ensures download.Err? ==> r == Connect(s, Err(download.msg), schema)
  {
    match download
    case Err(m) => Run(s, [SetConnectionLoading(true), SetConnectionError(m)])
    case Ok(_) => Run(s, ConnectDispatches(connect, schema))
  }

  /** The three handlers reach the same state for the same outcomes, namely `Connect`'s. */
  lemma HandlersAgree(s: State, file: string, connect: Outcome<Config>, schema: Outcome<seq<Table>>)
    ensures HandleConnect(s, connect, schema) == Connect(s, connect, schema)
    ensures HandleFileUpload(s, Some(file), connect, schema) == Connect(s, connect, schema)
    ensures HandleLoadSampleDatabase(s, Ok(Unit), connect, schema) == Connect(s, connect, schema)
  {
  }
}
