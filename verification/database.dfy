/** One database connection of the backend (`DatabaseManager` in backend/app/database.py):
    building the connection URL, attaching an engine, assembling the schema from what the
    inspector reports, zipping query rows into mappings, and disconnecting.
    The SQL driver is outside the model: what it reports is passed in as data. */
module Database {
  import opened Wrappers
  import opened Strings
  import opened Models

  datatype Engine = Engine(url: string)

  /** `connection_info`: what was connected to. */
  datatype ConnectionInfo = CredentialsInfo(host: string, database: string) | FileInfo(file: string)

  datatype Manager = Manager(engine: Option<Engine>, info: Option<ConnectionInfo>)

  /** A freshly constructed manager. */
  const Disconnected: Manager := Manager(None, None)

  /** What the driver does with a connection URL: creating the engine can fail, and so can
      the `SELECT 1` issued on it to test the connection. */
  datatype Probe = EngineFailed(msg: string) | TestFailed(msg: string) | Reachable

  /** The result of a connect call together with the manager it leaves behind. */
  datatype Attempt = Attempt(result: Outcome<bool>, manager: Manager)

  const NoConnection := "No database connection"
  const CredentialsErrorPrefix := "Connection failed: "
  const SqliteErrorPrefix := "SQLite connection failed: "
  const SchemaErrorPrefix := "Failed to get schema: "
  const QueryErrorPrefix := "Query execution failed: "
  /** The message of the IndexError raised by indexing an empty list. */
  const IndexErrorMsg := "list index out of range"

  /** `is_connected`: an engine is attached. For a consistent manager this is the same as
      having a connection recorded. */
  predicate IsConnected(m: Manager): (b: bool)
    ensures Consistent(m) ==> (b <==> m.info.Some?)
  {
    m.engine.Some?
  }

  /** A manager has an engine exactly when it records what it is connected to. */
  predicate Consistent(m: Manager)
  {
    m.engine.Some? <==> m.info.Some?
  }

  // ---------------------------------------------------------------- connection URLs

  function DigitChar(d: nat): (c: char)
    requires d < 10
    ensures '0' <= c <= '9' && (c as int) - ('0' as int) == d
  {
    "0123456789"[d]
  }

  /** The decimal text of a natural number, as Python's f-string prints it. */
  function NatToDecimal(n: nat): (r: string)
    ensures |r| > 0
    ensures forall i :: 0 <= i < |r| ==> '0' <= r[i] <= '9'
    ensures n > 0 ==> r[0] != '0'
    ensures n == 0 ==> r == "0"
    decreases n
  {
    if n < 10 then [DigitChar(n)] else NatToDecimal(n / 10) + [DigitChar(n % 10)]
  }

  /** The number a string of decimal digits denotes. */
  function DecimalValue(s: string): nat
    requires forall i :: 0 <= i < |s| ==> '0' <= s[i] <= '9'
  {
    if |s| == 0 then 0 else DecimalValue(s[..|s| - 1]) * 10 + ((s[|s| - 1] as int) - ('0' as int))
  }

  /** Printing a port number loses nothing: the digits read back as the number. */
  lemma {:induction false} DecimalRoundTrip(n: nat)
    ensures DecimalValue(NatToDecimal(n)) == n
    decreases n
  {
    if n >= 10 {
      var r := NatToDecimal(n);
      assert r[..|r| - 1] == NatToDecimal(n / 10);
      DecimalRoundTrip(n / 10);
    }
  }

  function IntToDecimal(i: int): string
  {
    if i < 0 then "-" + NatToDecimal(-i) else NatToDecimal(i)
  }

  /** `user:password@host:port/database`, the part of the URL both server dialects share. */
  function ServerPart(host: string, port: int, username: string, password: string, database: string): (r: string)
    ensures EndsWith(r, "/" + database)
  {
    var front := username + ":" + password + "@" + host + ":" + IntToDecimal(port);
    EndsWithConcat(front, "/" + database);
    front + ("/" + database)
  }

  /** The URL `connect_credentials` builds; an unsupported dialect is a `ValueError`. */
  function ConnectionUrl(host: string, port: int, username: string, password: string, database: string, dbType: string := "postgresql"): (r: Outcome<string>)
    ensures r.Ok? <==> dbType == "postgresql" || dbType == "mysql"
    ensures dbType == "postgresql" ==> r == Ok("postgresql://" + ServerPart(host, port, username, password, database))
    ensures dbType == "mysql" ==> r == Ok("mysql+pymysql://" + ServerPart(host, port, username, password, database))
    ensures r.Ok? ==> EndsWith(r.value, "/" + database)
    ensures r.Err? ==> r.msg == "Unsupported database type"
  {
    var server := ServerPart(host, port, username, password, database);
    EndsWithExtend("postgresql://", server, "/" + database);
    EndsWithExtend("mysql+pymysql://", server, "/" + database);
    if dbType == "postgresql" then Ok("postgresql://" + server)
    else if dbType == "mysql" then Ok("mysql+pymysql://" + server)
    else Err("Unsupported database type")
  }

  // ---------------------------------------------------------------- connecting

  /** Attaching an engine as the source does it: `self.engine` is assigned before the test
      query runs, so a failed test leaves the new engine in place and the old
      `connection_info` with it. */
  function AttachAsWritten(m: Manager, url: string, info: ConnectionInfo, probe: Probe, prefix: string): (a: Attempt)
    ensures a.result.Err? <==> !probe.Reachable?
    ensures a.result.Err? ==> a.result.msg == prefix + probe.msg
    ensures probe.EngineFailed? ==> a.manager == m
    ensures probe.TestFailed? ==> a.manager.engine == Some(Engine(url)) && a.manager.info == m.info
    ensures a.result.Ok? ==> a.manager == Manager(Some(Engine(url)), Some(info))
  {
    match probe
    case EngineFailed(e) => Attempt(Err(prefix + e), m)
    case TestFailed(e) => Attempt(Err(prefix + e), m.(engine := Some(Engine(url))))
    case Reachable => Attempt(Ok(true), Manager(Some(Engine(url)), Some(info)))
  }

  /** Attaching an engine so that a failed connect leaves the manager as it was. */
  function Attach(m: Manager, url: string, info: ConnectionInfo, probe: Probe, prefix: string): (a: Attempt)
    ensures a.result.Err? <==> !probe.Reachable?
    ensures a.result.Err? ==> a.manager == m && a.result.msg == prefix + probe.msg
    ensures a.result.Ok? ==> a.manager.engine == Some(Engine(url)) && a.manager.info == Some(info)
    ensures Consistent(m) ==> Consistent(a.manager)
  {
    match probe
    case EngineFailed(e) => Attempt(Err(prefix + e), m)
    case TestFailed(e) => Attempt(Err(prefix + e), m)
    case Reachable => Attempt(Ok(true), Manager(Some(Engine(url)), Some(info)))
  }

  /** The as-written and the corrected attach step differ only after a failed connection
      test, and then only in the engine left behind, unless that engine was already the
      manager's. */
  lemma AttachDiffersOnlyAfterFailedTest(m: Manager, url: string, info: ConnectionInfo, probe: Probe, prefix: string)
    ensures AttachAsWritten(m, url, info, probe, prefix).result == Attach(m, url, info, probe, prefix).result
    ensures !probe.TestFailed? ==> AttachAsWritten(m, url, info, probe, prefix) == Attach(m, url, info, probe, prefix)
    ensures probe.TestFailed? ==>
      (AttachAsWritten(m, url, info, probe, prefix) == Attach(m, url, info, probe, prefix) <==> m.engine == Some(Engine(url)))
    ensures AttachAsWritten(m, url, info, probe, prefix).manager.info == Attach(m, url, info, probe, prefix).manager.info
  {
  }

  /** `connect_credentials` as written. */
  function ConnectCredentialsAsWritten(m: Manager, probe: Probe, host: string, port: int, username: string, password: string, database: string, dbType: string := "postgresql"): (a: Attempt)
    ensures a.result.Ok? <==> (dbType == "postgresql" || dbType == "mysql") && probe.Reachable?
    ensures a.result.Ok? ==>
      a.manager == Manager(Some(Engine(ConnectionUrl(host, port, username, password, database, dbType).value)), Some(CredentialsInfo(host, database)))
    ensures a.result.Err? ==> StartsWith(a.result.msg, CredentialsErrorPrefix)
    ensures dbType != "postgresql" && dbType != "mysql" ==> a == Attempt(Err(CredentialsErrorPrefix + "Unsupported database type"), m)
    ensures probe.EngineFailed? ==> a.manager == m
    // the engine stays assigned after a failed connection test
    ensures (dbType == "postgresql" || dbType == "mysql") && probe.TestFailed? ==>
      a.manager.engine == Some(Engine(ConnectionUrl(host, port, username, password, database, dbType).value))
      && a.manager.info == m.info
  {
    match ConnectionUrl(host, port, username, password, database, dbType)
    case Err(e) => Attempt(Err(CredentialsErrorPrefix + e), m)
    case Ok(url) => AttachAsWritten(m, url, CredentialsInfo(host, database), probe, CredentialsErrorPrefix)
  }

  /** A failed connection test on a fresh manager leaves it reporting itself connected while
      recording no connection. */
  lemma ConnectCredentialsAsWrittenFailureStaysConnected()
    ensures var a := ConnectCredentialsAsWritten(Disconnected, TestFailed("password authentication failed"), "db.example", 5432, "app", "wrong", "shop");
      a.result.Err? && IsConnected(a.manager) && a.manager.info.None? && !Consistent(a.manager)
  {
  }

  /** A failed connection test on a connected manager leaves it holding the new engine
      while `connection_info` still names the old database. */
  lemma ConnectCredentialsAsWrittenMixesConnections()
    ensures var before := Manager(Some(Engine("sqlite:///a.db")), Some(FileInfo("a.db")));
      var a := ConnectCredentialsAsWritten(before, TestFailed("refused"), "h", 3306, "u", "p", "b", "mysql");
      a.result.Err? && a.manager.engine != before.engine && a.manager.info == before.info
  {
  }

  /** `connect_credentials`, with a failed connect leaving the manager unchanged. */
  function ConnectCredentials(m: Manager, probe: Probe, host: string, port: int, username: string, password: string, database: string, dbType: string := "postgresql"): (a: Attempt)
    ensures a.result.Ok? <==> (dbType == "postgresql" || dbType == "mysql") && probe.Reachable?
    ensures a.result.Ok? ==>
      a.manager.info == Some(CredentialsInfo(host, database))
      && a.manager.engine == Some(Engine(ConnectionUrl(host, port, username, password, database, dbType).value))
    ensures a.result.Err? ==> a.manager == m && StartsWith(a.result.msg, CredentialsErrorPrefix)
    ensures dbType != "postgresql" && dbType != "mysql" ==> a.result == Err(CredentialsErrorPrefix + "Unsupported database type")
    ensures Consistent(m) ==> Consistent(a.manager)
  {
    match ConnectionUrl(host, port, username, password, database, dbType)
    case Err(e) => Attempt(Err(CredentialsErrorPrefix + e), m)
    case Ok(url) => Attach(m, url, CredentialsInfo(host, database), probe, CredentialsErrorPrefix)
  }

  function SqliteUrl(filePath: string): string
  {
    "sqlite:///" + filePath
  }

  /** `connect_sqlite` as written. */
  function ConnectSqliteAsWritten(m: Manager, filePath: string, probe: Probe): (a: Attempt)
    ensures a.result.Ok? <==> probe.Reachable?
    ensures a.result.Ok? ==> a.manager == Manager(Some(Engine("sqlite:///" + filePath)), Some(FileInfo(filePath)))
    ensures a.result.Err? ==> StartsWith(a.result.msg, SqliteErrorPrefix)
    ensures probe.EngineFailed? ==> a.manager == m
    // the engine stays assigned after a failed connection test
    ensures probe.TestFailed? ==> a.manager.engine == Some(Engine("sqlite:///" + filePath)) && a.manager.info == m.info
  {
    AttachAsWritten(m, SqliteUrl(filePath), FileInfo(filePath), probe, SqliteErrorPrefix)
  }

  /** An unreadable file leaves a fresh manager reporting itself connected. */
  lemma ConnectSqliteAsWrittenFailureStaysConnected()
    ensures var a := ConnectSqliteAsWritten(Disconnected, "upload.db", TestFailed("file is not a database"));
      a.result.Err? && IsConnected(a.manager) && !Consistent(a.manager)
  {
  }

  /** `connect_sqlite`, with a failed connect leaving the manager unchanged. */
  function ConnectSqlite(m: Manager, filePath: string, probe: Probe): (a: Attempt)
    ensures a.result.Ok? <==> probe.Reachable?
    ensures a.result.Ok? ==> a.manager == Manager(Some(Engine("sqlite:///" + filePath)), Some(FileInfo(filePath)))
    ensures a.result.Err? ==> a.manager == m && StartsWith(a.result.msg, SqliteErrorPrefix)
    ensures Consistent(m) ==> Consistent(a.manager)
  {
    Attach(m, SqliteUrl(filePath), FileInfo(filePath), probe, SqliteErrorPrefix)
  }

  /** `disconnect`: drops the engine and the connection record; a no-op when not connected. */
  function Disconnect(m: Manager): (r: Manager)
    ensures !IsConnected(r)
    ensures IsConnected(m) ==> r.info.None?
    ensures !IsConnected(m) ==> r == m
    ensures Consistent(m) ==> r == Disconnected
  {
    if m.engine.Some? then Disconnected else m
  }

  // ---------------------------------------------------------------- schema assembly

  datatype InspectedColumn = InspectedColumn(name: string, typ: string)

  /** One entry of `get_foreign_keys`. */
  datatype ForeignKey = ForeignKey(constrained: seq<string>, referredTable: string, referredColumns: seq<string>)

  /** What the inspector reports about one table. */
  datatype InspectedTable = InspectedTable(
    name: string,
    columns: seq<InspectedColumn>,
    primaryKeys: seq<string>,
    foreignKeys: seq<ForeignKey>)

  /** `fks[i]` is the first foreign key constraining column `col`. */
  predicate IsFirstMatch(fks: seq<ForeignKey>, col: string, i: int)
  {
    && 0 <= i < |fks|
    && col in fks[i].constrained
    && forall j :: 0 <= j < i ==> col !in fks[j].constrained
  }

  /** The `table.column` a foreign key refers to: its first referred column, which is an
      IndexError when the list is empty. */
  function Reference(fk: ForeignKey): Outcome<string>
  {
    if |fk.referredColumns| == 0 then Err(IndexErrorMsg)
    else Ok(fk.referredTable + "." + fk.referredColumns[0])
  }

  /** The reference of the first foreign key constraining `col`, if any. */
  function ForeignKeyOf(col: string, fks: seq<ForeignKey>): (r: Outcome<Option<string>>)
    ensures (forall i :: 0 <= i < |fks| ==> col !in fks[i].constrained) ==> r == Ok(None)
    ensures forall i :: IsFirstMatch(fks, col, i) ==>
      match Reference(fks[i])
      case Ok(ref) => r == Ok(Some(ref))
      case Err(e) => r == Err(e)
    decreases |fks|
  {
    if |fks| == 0 then Ok(None)
    else if col in fks[0].constrained then
      match Reference(fks[0])
      case Ok(ref) => Ok(Some(ref))
      case Err(e) => Err(e)
    else
      var r := ForeignKeyOf(col, fks[1..]);
      assert forall i :: IsFirstMatch(fks, col, i) ==> IsFirstMatch(fks[1..], col, i - 1);
      r
  }

  /** Every column of the inspector, in order, with its primary-key flag and reference;
      fails as soon as one reference fails. */
  function AssembleColumns(cols: seq<InspectedColumn>, pks: seq<string>, fks: seq<ForeignKey>): (r: Outcome<seq<Column>>)
    ensures r.Err? <==> exists i :: 0 <= i < |cols| && ForeignKeyOf(cols[i].name, fks).Err?
    ensures r.Ok? ==> |r.value| == |cols|
    ensures r.Ok? ==> forall i :: 0 <= i < |cols| ==>
      && r.value[i].name == cols[i].name
      && r.value[i].typ == cols[i].typ
      && (r.value[i].primaryKey <==> cols[i].name in pks)
      && ForeignKeyOf(cols[i].name, fks) == Ok(r.value[i].foreignKey)
    decreases |cols|
  {
    if |cols| == 0 then Ok([])
    else
      match ForeignKeyOf(cols[0].name, fks)
      case Err(e) => Err(e)
      case Ok(fk) =>
        match AssembleColumns(cols[1..], pks, fks)
        case Err(e) =>
          assert exists i :: 0 <= i < |cols[1..]| && ForeignKeyOf(cols[1..][i].name, fks).Err?;
          Err(e)
        case Ok(rest) =>
          var r := [Column(cols[0].name, cols[0].typ, cols[0].name in pks, fk)] + rest;
          assert forall i :: 1 <= i < |cols| ==> cols[i] == cols[1..][i - 1];
          Ok(r)
  }

  /** One table per inspected table, in order, each with its assembled columns. */
  function AssembleTables(ts: seq<InspectedTable>): (r: Outcome<seq<Table>>)
    ensures r.Err? <==> exists i :: 0 <= i < |ts| && AssembleColumns(ts[i].columns, ts[i].primaryKeys, ts[i].foreignKeys).Err?
    ensures r.Ok? ==> |r.value| == |ts|
    ensures r.Ok? ==> forall i :: 0 <= i < |ts| ==>
      && r.value[i].name == ts[i].name
      && AssembleColumns(ts[i].columns, ts[i].primaryKeys, ts[i].foreignKeys) == Ok(r.value[i].columns)
    decreases |ts|
  {
    if |ts| == 0 then Ok([])
    else
      match AssembleColumns(ts[0].columns, ts[0].primaryKeys, ts[0].foreignKeys)
      case Err(e) => Err(e)
      case Ok(cols) =>
        match AssembleTables(ts[1..])
        case Err(e) =>
          assert exists i :: 0 <= i < |ts| && AssembleColumns(ts[i].columns, ts[i].primaryKeys, ts[i].foreignKeys).Err? by {
            var k :| 0 <= k < |ts[1..]| && AssembleColumns(ts[1..][k].columns, ts[1..][k].primaryKeys, ts[1..][k].foreignKeys).Err?;
            assert ts[1..][k] == ts[k + 1];
          }
          Err(e)
        case Ok(rest) =>
          var r := [Table(ts[0].name, cols)] + rest;
          forall i | 1 <= i < |ts|
            ensures r[i].name == ts[i].name
            ensures AssembleColumns(ts[i].columns, ts[i].primaryKeys, ts[i].foreignKeys) == Ok(r[i].columns)
          {
            assert ts[i] == ts[1..][i - 1] && r[i] == rest[i - 1];
          }
          Ok(r)
  }

  /** `get_schema`: `inspection` is what the inspector reports, or the driver's error. */
  function GetSchema(m: Manager, inspection: Outcome<seq<InspectedTable>>): (r: Outcome<seq<Table>>)
    ensures !IsConnected(m) ==> r == Err(NoConnection)
    ensures IsConnected(m) && inspection.Err? ==> r == Err(SchemaErrorPrefix + inspection.msg)
    ensures IsConnected(m) && inspection.Ok? && r.Ok? ==> AssembleTables(inspection.value) == Ok(r.value)
    ensures IsConnected(m) && inspection.Ok? ==>
      (r.Err? <==> AssembleTables(inspection.value).Err?)
    ensures r.Err? && IsConnected(m) ==> StartsWith(r.msg, SchemaErrorPrefix)
  {
    if m.engine.None? then Err(NoConnection)
    else
      match inspection
      case Err(e) => Err(SchemaErrorPrefix + e)
      case Ok(ts) =>
        match AssembleTables(ts)
        case Err(e) => Err(SchemaErrorPrefix + e)
        case Ok(tables) => Ok(tables)
  }

  // ---------------------------------------------------------------- query results

  /** The mapping built by inserting the first `n` pairs of `columns` and `row` in order. */
  function ZipPrefix<V>(columns: seq<string>, row: seq<V>, n: nat): map<string, V>
    requires n <= |columns| && n <= |row|
    decreases n
  {
    if n == 0 then map[] else ZipPrefix(columns, row, n - 1)[columns[n - 1] := row[n - 1]]
  }

  /** The keys are the first `n` column names, and each maps to the value paired with its
      last occurrence among them. */
  lemma {:induction false} ZipPrefixFacts<V>(columns: seq<string>, row: seq<V>, n: nat)
    requires n <= |columns| && n <= |row|
    ensures forall j :: 0 <= j < n ==> columns[j] in ZipPrefix(columns, row, n)
    ensures forall k :: k in ZipPrefix(columns, row, n) ==> exists j :: 0 <= j < n && columns[j] == k
    ensures forall j :: 0 <= j < n && LastOccurrence(columns, n, j) ==> ZipPrefix(columns, row, n)[columns[j]] == row[j]
    decreases n
  {
    if n > 0 {
      ZipPrefixFacts(columns, row, n - 1);
      ZipStepKeys(columns, row, n);
      ZipStepValues(columns, row, n);
    }
  }

  /** One more pair keeps the last-occurrence values of the shorter prefix and adds its own. */
  lemma {:induction false} ZipStepValues<V>(columns: seq<string>, row: seq<V>, n: nat)
    requires 0 < n <= |columns| && n <= |row|
    requires forall j :: 0 <= j < n - 1 ==> columns[j] in ZipPrefix(columns, row, n - 1)
    requires forall j :: 0 <= j < n - 1 && LastOccurrence(columns, n - 1, j) ==>
      ZipPrefix(columns, row, n - 1)[columns[j]] == row[j]
    ensures forall j :: 0 <= j < n && LastOccurrence(columns, n, j) ==> ZipPrefix(columns, row, n)[columns[j]] == row[j]
  {
    var r := ZipPrefix(columns, row, n);
    assert r == ZipPrefix(columns, row, n - 1)[columns[n - 1] := row[n - 1]];
    forall j | 0 <= j < n && LastOccurrence(columns, n, j)
      ensures r[columns[j]] == row[j]
    {
      if j < n - 1 {
        assert columns[n - 1] != columns[j];
        assert LastOccurrence(columns, n - 1, j);
      }
    }
  }

  /** One more pair adds exactly its own column name as a key. */
  lemma {:induction false} ZipStepKeys<V>(columns: seq<string>, row: seq<V>, n: nat)
    requires 0 < n <= |columns| && n <= |row|
    requires KeysAreFirst(columns, ZipPrefix(columns, row, n - 1).Keys, n - 1)
    ensures KeysAreFirst(columns, ZipPrefix(columns, row, n).Keys, n)
  {
    var prev := ZipPrefix(columns, row, n - 1);
    var r := ZipPrefix(columns, row, n);
    assert r == prev[columns[n - 1] := row[n - 1]];
    assert r.Keys == prev.Keys + {columns[n - 1]};
    forall k | k in r
      ensures exists j :: 0 <= j < n && columns[j] == k
    {
      if k != columns[n - 1] {
        assert k in prev;
        var j :| 0 <= j < n - 1 && columns[j] == k;
      }
    }
  }

  /** `keys` are exactly the first `n` column names. */
  predicate KeysAreFirst(columns: seq<string>, keys: set<string>, n: nat)
    requires n <= |columns|
  {
    && (forall j :: 0 <= j < n ==> columns[j] in keys)
    && (forall k :: k in keys ==> exists j :: 0 <= j < n && columns[j] == k)
  }

  /** Index `j` is the last occurrence of its column name among the first `n`. */
  predicate LastOccurrence(columns: seq<string>, n: nat, j: nat)
    requires j < n <= |columns|
  {
    forall k :: j < k < n ==> columns[k] != columns[j]
  }

  /** `dict(zip(columns, row))`: pairs up to the shorter of the two, a later duplicate
      column name overwriting an earlier one. */
  function ZipRow<V>(columns: seq<string>, row: seq<V>): (r: map<string, V>)
    ensures forall j :: 0 <= j < Min(|columns|, |row|) ==> columns[j] in r
    ensures forall k :: k in r ==> exists j :: 0 <= j < Min(|columns|, |row|) && columns[j] == k
    ensures forall j :: 0 <= j < Min(|columns|, |row|) && LastOccurrence(columns, Min(|columns|, |row|), j) ==>
      r[columns[j]] == row[j]
  {
    ZipPrefixFacts(columns, row, Min(|columns|, |row|));
    ZipPrefix(columns, row, Min(|columns|, |row|))
  }

  datatype RawResult<V> = RawResult(columns: seq<string>, rows: seq<seq<V>>)

  datatype QueryOutput<V> = QueryOutput(sql: string, results: seq<map<string, V>>)

  /** `execute_query`: `run` is what the driver returned for `sql`, or its error. */
  function ExecuteQuery<V>(m: Manager, sql: string, run: Outcome<RawResult<V>>): (r: Outcome<QueryOutput<V>>)
    ensures !IsConnected(m) ==> r == Err(NoConnection)
    ensures IsConnected(m) && run.Err? ==> r == Err(QueryErrorPrefix + run.msg)
    ensures IsConnected(m) && run.Ok? ==>
      && r.Ok?
      && r.value.sql == sql
      && |r.value.results| == |run.value.rows|
      && forall i :: 0 <= i < |run.value.rows| ==> r.value.results[i] == ZipRow(run.value.columns, run.value.rows[i])
  {
    if m.engine.None? then Err(NoConnection)
    else
      match run
      case Err(e) => Err(QueryErrorPrefix + e)
      case Ok(raw) => Ok(QueryOutput(sql, seq(|raw.rows|, i requires 0 <= i < |raw.rows| => ZipRow(raw.columns, raw.rows[i]))))
  }
}
