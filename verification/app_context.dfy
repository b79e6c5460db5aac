/** The client-side application state and its reducer (frontend/src/context/AppContext.jsx).
    The state has four slots — connection, schema, chat and history — and every change goes
    through `Reduce`, a total function of the previous state and one dispatched action. */
module AppContext {
  import opened Wrappers
  import opened Strings
  import opened Models

  /** The history keeps at most this many entries, newest first. */
  const HistoryCap: nat := 10

  /** What the backend answered to `POST /api/connect-db`; its session id scopes later calls. */
  datatype Config = Config(sessionId: string, info: map<string, string>)

  /** The result object of a query, shown in an assistant message. */
  datatype QueryResult = QueryResult(sql: string, rows: seq<map<string, string>>)

  datatype MessageKind = User | Assistant | ErrorMessage

  datatype Content = Text(text: string) | Answer(result: QueryResult)

  datatype Message = Message(id: int, kind: MessageKind, content: Content, timestamp: int)

  datatype HistoryEntry = HistoryEntry(query: string, timestamp: int)

  datatype ConnectionState = ConnectionState(isConnected: bool, config: Option<Config>, error: Option<string>, loading: bool)

  datatype SchemaState = SchemaState(tables: seq<Table>, loading: bool, error: Option<string>)

  datatype ChatState = ChatState(messages: seq<Message>, loading: bool, error: Option<string>)

  datatype State = State(connection: ConnectionState, schema: SchemaState, chat: ChatState, history: seq<HistoryEntry>)

  const InitialChat: ChatState := ChatState([], false, None)

  const Initial: State := State(
    ConnectionState(false, None, None, false),
    SchemaState([], false, None),
    InitialChat,
    [])

  /** The closed set of actions the reducer recognises, plus `Unrecognised` for any other
      action type, which the reducer ignores. */
  datatype Action =
    | SetConnectionLoading(loading: bool)
    | SetConnectionSuccess(config: Config)
    | SetConnectionError(error: string)
    | SetSchemaLoading(loading: bool)
    | SetSchemaSuccess(tables: seq<Table>)
    | SetSchemaError(error: string)
    | AddMessage(message: Message)
    | SetChatLoading(loading: bool)
    | SetChatError(error: string)
    | AddToHistory(entry: HistoryEntry)
    | ClearChat
    | DisconnectDatabase
    | Unrecognised(tag: string)

  datatype Slot = ConnectionSlot | SchemaSlot | ChatSlot | HistorySlot

  /** The one slot an action writes; none for a reset or an ignored action. */
  function SlotOf(a: Action): Option<Slot>
  {
    match a
    case SetConnectionLoading(_) => Some(ConnectionSlot)
    case SetConnectionSuccess(_) => Some(ConnectionSlot)
    case SetConnectionError(_) => Some(ConnectionSlot)
    case SetSchemaLoading(_) => Some(SchemaSlot)
    case SetSchemaSuccess(_) => Some(SchemaSlot)
    case SetSchemaError(_) => Some(SchemaSlot)
    case AddMessage(_) => Some(ChatSlot)
    case SetChatLoading(_) => Some(ChatSlot)
    case SetChatError(_) => Some(ChatSlot)
    case AddToHistory(_) => Some(HistorySlot)
    case ClearChat => Some(ChatSlot)
    case DisconnectDatabase => None
    case Unrecognised(_) => None
  }

  predicate SameSlot(s: State, t: State, slot: Slot)
  {
    match slot
    case ConnectionSlot => s.connection == t.connection
    case SchemaSlot => s.schema == t.schema
    case ChatSlot => s.chat == t.chat
    case HistorySlot => s.history == t.history
  }

  /** What every reachable state satisfies: the history is capped, and a connected state
      carries the configuration it connected with. */
  predicate WellFormed(s: State)
  {
    && |s.history| <= HistoryCap
    && (s.connection.isConnected ==> s.connection.config.Some?)
  }

  /** The reducer (`appReducer`). */
  function Reduce(s: State, a: Action): (r: State)
    // a reset returns exactly the initial state, from any state
    ensures a.DisconnectDatabase? ==> r == Initial
    // an unrecognised action is a no-op
    ensures a.Unrecognised? ==> r == s
    // every other action writes at most its own slot
    ensures !a.DisconnectDatabase? ==> forall slot :: SlotOf(a) != Some(slot) ==> SameSlot(s, r, slot)
    ensures WellFormed(s) ==> WellFormed(r)
    // connection slot
    ensures a.SetConnectionLoading? ==>
      r.connection.loading == a.loading && r.connection.error == None
      && r.connection.isConnected == s.connection.isConnected && r.connection.config == s.connection.config
    ensures a.SetConnectionSuccess? ==> r.connection == ConnectionState(true, Some(a.config), None, false)
    ensures a.SetConnectionError? ==>
      !r.connection.isConnected && !r.connection.loading && r.connection.error == Some(a.error)
      && r.connection.config == s.connection.config
    // schema slot
    ensures a.SetSchemaLoading? ==> r.schema.loading == a.loading && r.schema.tables == s.schema.tables && r.schema.error == s.schema.error
    ensures a.SetSchemaSuccess? ==> r.schema == SchemaState(a.tables, false, None)
    ensures a.SetSchemaError? ==> r.schema.tables == s.schema.tables && !r.schema.loading && r.schema.error == Some(a.error)
    // chat slot
    ensures a.AddMessage? ==>
      |r.chat.messages| == |s.chat.messages| + 1
      && r.chat.messages[..|s.chat.messages|] == s.chat.messages
      && r.chat.messages[|s.chat.messages|] == a.message
      && r.chat.loading == s.chat.loading && r.chat.error == s.chat.error
    ensures a.SetChatLoading? ==> r.chat.loading == a.loading && r.chat.messages == s.chat.messages && r.chat.error == s.chat.error
    ensures a.SetChatError? ==> !r.chat.loading && r.chat.error == Some(a.error) && r.chat.messages == s.chat.messages
    ensures a.ClearChat? ==> r.chat.messages == [] && !r.chat.loading && r.chat.error == None
    // history slot: the entry goes in front and at most the nine newest old entries stay behind it
    ensures a.AddToHistory? ==>
      |r.history| == Min(|s.history| + 1, HistoryCap)
      && r.history[0] == a.entry
      && forall i :: 1 <= i < |r.history| ==> r.history[i] == s.history[i - 1]
  {
    match a
    case SetConnectionLoading(b) => s.(connection := s.connection.(loading := b, error := None))
    case SetConnectionSuccess(c) => s.(connection := ConnectionState(true, Some(c), None, false))
    case SetConnectionError(e) => s.(connection := s.connection.(loading := false, error := Some(e), isConnected := false))
    case SetSchemaLoading(b) => s.(schema := s.schema.(loading := b))
    case SetSchemaSuccess(ts) => s.(schema := SchemaState(ts, false, None))
    case SetSchemaError(e) => s.(schema := s.schema.(loading := false, error := Some(e)))
    case AddMessage(m) => s.(chat := s.chat.(messages := s.chat.messages + [m]))
    case SetChatLoading(b) => s.(chat := s.chat.(loading := b))
    case SetChatError(e) => s.(chat := s.chat.(loading := false, error := Some(e)))
    case AddToHistory(e) => s.(history := [e] + s.history[..Min(|s.history|, HistoryCap - 1)])
    case ClearChat => s.(chat := InitialChat)
    case DisconnectDatabase => Initial
    case Unrecognised(_) => s
  }

  /** Dispatching a list of actions in order. Every state reachable from a well-formed one,
      in particular from `Initial`, is well-formed. */
  function Run(s: State, acts: seq<Action>): (r: State)
    ensures WellFormed(s) ==> WellFormed(r)
    decreases |acts|
  {
    if |acts| == 0 then s else Run(Reduce(s, acts[0]), acts[1..])
  }

  lemma RunOne(s: State, a: Action)
    ensures Run(s, [a]) == Reduce(s, a)
  {
    assert [a][1..] == [];
    assert Run(s, [a]) == Run(Reduce(s, a), []);
  }

  lemma RunTwo(s: State, a: Action, b: Action)
    ensures Run(s, [a, b]) == Reduce(Reduce(s, a), b)
  {
    assert [a, b][1..] == [b];
    assert Run(s, [a, b]) == Run(Reduce(s, a), [b]);
    RunOne(Reduce(s, a), b);
  }

  lemma RunThree(s: State, a: Action, b: Action, c: Action)
    ensures Run(s, [a, b, c]) == Reduce(Reduce(Reduce(s, a), b), c)
  {
    assert [a, b, c][1..] == [b, c];
    RunTwo(Reduce(s, a), b, c);
  }

  /** Dispatching two lists one after the other is dispatching their concatenation. */
  lemma {:induction false} RunAppend(s: State, xs: seq<Action>, ys: seq<Action>)
    ensures Run(s, xs + ys) == Run(Run(s, xs), ys)
    decreases |xs|
  {
    if |xs| > 0 {
      assert (xs + ys)[0] == xs[0];
      assert (xs + ys)[1..] == xs[1..] + ys;
      RunAppend(Reduce(s, xs[0]), xs[1..], ys);
    } else {
      assert xs + ys == ys;
    }
  }

  /** A reset as the last dispatch erases everything the earlier dispatches did. */
  lemma {:induction false} RunEndingInDisconnect(s: State, acts: seq<Action>)
    ensures Run(s, acts + [DisconnectDatabase]) == Initial
  {
    RunAppend(s, acts, [DisconnectDatabase]);
  }

  function Take<T>(xs: seq<T>, n: nat): (r: seq<T>)
    ensures |r| == Min(n, |xs|)
  {
    xs[..Min(n, |xs|)]
  }

  function Reverse<T>(xs: seq<T>): (r: seq<T>)
    ensures |r| == |xs|
    ensures forall i :: 0 <= i < |xs| ==> r[i] == xs[|xs| - 1 - i]
  {
    if |xs| == 0 then [] else Reverse(xs[1..]) + [xs[0]]
  }

  /** One `AddToHistory` per entry, in order. */
  function AddAll(es: seq<HistoryEntry>): (acts: seq<Action>)
    ensures |acts| == |es|
    ensures forall i :: 0 <= i < |es| ==> acts[i] == AddToHistory(es[i])
  {
    seq(|es|, i requires 0 <= i < |es| => AddToHistory(es[i]))
  }

  lemma TakeAppendTake<T>(xs: seq<T>, ys: seq<T>, k: nat, m: nat)
    requires |xs| + k >= m
    ensures Take(xs + Take(ys, k), m) == Take(xs + ys, m)
  {
    var l := Take(xs + Take(ys, k), m);
    var r := Take(xs + ys, m);
    assert |l| == |r|;
    forall i | 0 <= i < |l|
      ensures l[i] == r[i]
    {
      if i >= |xs| {
        assert i - |xs| < k;
      }
    }
  }

  /** Adding entries one by one leaves the newest ten of them and the old history, newest
      first, and changes nothing but the history. */
  lemma {:induction false} HistoryAfterAdds(s: State, es: seq<HistoryEntry>)
    requires |s.history| <= HistoryCap
    ensures Run(s, AddAll(es)) == s.(history := Take(Reverse(es) + s.history, HistoryCap))
    decreases |es|
  {
    if |es| == 0 {
      assert Reverse(es) + s.history == s.history;
    } else {
      var s1 := Reduce(s, AddToHistory(es[0]));
      assert AddAll(es)[0] == AddToHistory(es[0]);
      assert AddAll(es)[1..] == AddAll(es[1..]);
      HistoryAfterAdds(s1, es[1..]);
      assert |s1.history| <= HistoryCap;
      assert s1.history == [es[0]] + Take(s.history, HistoryCap - 1);
      assert Reverse(es) == Reverse(es[1..]) + [es[0]];
      calc {
        Take(Reverse(es[1..]) + s1.history, HistoryCap);
        { assert Reverse(es[1..]) + s1.history == (Reverse(es[1..]) + [es[0]]) + Take(s.history, HistoryCap - 1); }
        Take((Reverse(es[1..]) + [es[0]]) + Take(s.history, HistoryCap - 1), HistoryCap);
        { TakeAppendTake(Reverse(es[1..]) + [es[0]], s.history, HistoryCap - 1, HistoryCap); }
        Take(Reverse(es) + s.history, HistoryCap);
      }
    }
  }

  /** With ten or more additions the history is exactly the ten newest entries, newest first:
      the older additions and the previous history are evicted. */
  lemma {:induction false} HistoryKeepsNewestTen(s: State, es: seq<HistoryEntry>)
    requires |s.history| <= HistoryCap
    requires |es| >= HistoryCap
    ensures Run(s, AddAll(es)).history == Reverse(es[|es| - HistoryCap..])
  {
    HistoryAfterAdds(s, es);
    var rev := Reverse(es);
    var tail := es[|es| - HistoryCap..];
    var l := Take(rev + s.history, HistoryCap);
    var r := Reverse(tail);
    assert |l| == HistoryCap == |r|;
    forall i | 0 <= i < HistoryCap
      ensures l[i] == r[i]
    {
      assert l[i] == rev[i] == es[|es| - 1 - i];
      assert r[i] == tail[HistoryCap - 1 - i];
    }
  }
}
