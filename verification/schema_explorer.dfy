/** The schema panel's handlers (frontend/src/components/SchemaExplorer.jsx): expanding and
    collapsing a table, refreshing the schema and disconnecting. */
module SchemaExplorer {
  import opened Wrappers
  import opened Models
  import opened AppContext

  /** `toggleTable`: the set of expanded table names with `name` flipped. */
  function ToggleTable(expanded: set<string>, name: string): (r: set<string>)
    ensures name in r <==> name !in expanded
    ensures forall other :: other != name ==> (other in r <==> other in expanded)
  {
    if name in expanded then expanded - {name} else expanded + {name}
  }

  /** Toggling the same table twice restores the expanded set. */
  lemma ToggleTwice(expanded: set<string>, name: string)
    ensures ToggleTable(ToggleTable(expanded, name), name) == expanded
  {
  }

  /** `handleRefreshSchema`: marks the schema loading, then stores the refreshed tables or
      the error. */
  function HandleRefreshSchema(s: State, refresh: Outcome<seq<Table>>): (r: State)
    ensures refresh.Ok? ==> r.schema == SchemaState(refresh.value, false, None)
    ensures refresh.Err? ==> r.schema == s.schema.(loading := false, error := Some(refresh.msg))
    ensures r.connection == s.connection && r.chat == s.chat && r.history == s.history
  {
    var acts := [SetSchemaLoading(true)] +
      match refresh
      case Ok(ts) => [SetSchemaSuccess(ts)]
      case Err(m) => [SetSchemaError(m)];
    RunTwo(s, acts[0], acts[1]);
    assert acts == [acts[0], acts[1]];
    Run(s, acts)
  }

  /** `handleDisconnect`: after the backend call succeeds, the whole state is reset; if it
      fails, only the connection records the error. */
  function HandleDisconnect(s: State, disconnect: Outcome<Unit>): (r: State)
    ensures disconnect.Ok? ==> r == Initial
    ensures disconnect.Err? ==>
      r.connection == s.connection.(isConnected := false, loading := false, error := Some(disconnect.msg))
      && r.schema == s.schema && r.chat == s.chat && r.history == s.history
  {
    var acts := match disconnect
      case Ok(_) => [DisconnectDatabase]
      case Err(m) => [SetConnectionError(m)];
    assert acts == [acts[0]];
    RunOne(s, acts[0]);
    Run(s, acts)
  }
}
