/** The query-submission handler of the chat panel (`handleSubmit` in
    frontend/src/components/ChatInterface.jsx), as the list of actions it dispatches.
    The awaited backend call is the `outcome` parameter; `submittedAt` and `resolvedAt`
    are the clock readings taken before and after it. */
module ChatInterface {
  import opened Wrappers
  import opened Strings
  import opened AppContext

  /** The characters JavaScript's `String.prototype.trim` removes: the WhiteSpace and
      LineTerminator code points. */
  predicate IsJsWhitespace(c: char)
  {
    || c == ' ' || c == '\t' || c == '\n' || c == '\r' || c == '\U{000B}' || c == '\U{000C}'
    || c == '\U{00A0}' || c == '\U{1680}' || ('\U{2000}' <= c <= '\U{200A}')
    || c == '\U{2028}' || c == '\U{2029}' || c == '\U{202F}' || c == '\U{205F}'
    || c == '\U{3000}' || c == '\U{FEFF}'
  }

  /** `!input.trim()`: trimming leaves the empty string. */
  predicate IsBlank(input: string)
  {
    forall i :: 0 <= i < |input| ==> IsJsWhitespace(input[i])
  }

  /** The submission is dispatched only for non-blank input while connected. */
  predicate Accepts(s: State, input: string)
  {
    !IsBlank(input) && s.connection.isConnected
  }

  function UserMessage(input: string, submittedAt: int): Message
  {
    Message(submittedAt, User, Text(input), submittedAt)
  }

  /** The message added once the backend call settles; its id is one past the clock. */
  function ReplyMessage(outcome: Outcome<QueryResult>, resolvedAt: int): Message
  {
    match outcome
    case Ok(res) => Message(resolvedAt + 1, Assistant, Answer(res), resolvedAt)
    case Err(m) => Message(resolvedAt + 1, ErrorMessage, Text(m), resolvedAt)
  }

  /** The three dispatches made before the backend call is awaited. */
  function SubmitPrefix(input: string, submittedAt: int): seq<Action>
  {
    [ AddMessage(UserMessage(input, submittedAt)),
      SetChatLoading(true),
      AddToHistory(HistoryEntry(input, submittedAt)) ]
  }

  /** The two dispatches made once the call settles: on success the answer then the end of
      loading; on failure the error (which also ends loading) then an error message. */
  function SettleDispatches(outcome: Outcome<QueryResult>, resolvedAt: int): seq<Action>
  {
    match outcome
    case Ok(_) => [AddMessage(ReplyMessage(outcome, resolvedAt)), SetChatLoading(false)]
    case Err(m) => [SetChatError(m), AddMessage(ReplyMessage(outcome, resolvedAt))]
  }

  /** The state while the backend call is outstanding. */
  function Submitted(s: State, input: string, submittedAt: int): (r: State)
    ensures r.chat.loading
    ensures r.chat.messages == s.chat.messages + [UserMessage(input, submittedAt)]
    ensures r.chat.error == s.chat.error
    ensures |r.history| == Min(|s.history| + 1, HistoryCap)
    ensures r.history[0] == HistoryEntry(input, submittedAt)
    ensures forall i :: 1 <= i < |r.history| ==> r.history[i] == s.history[i - 1]
    ensures r.connection == s.connection && r.schema == s.schema
  {
    var s1 := Reduce(s, AddMessage(UserMessage(input, submittedAt)));
    var s2 := Reduce(s1, SetChatLoading(true));
    var s3 := Reduce(s2, AddToHistory(HistoryEntry(input, submittedAt)));
    assert Run(s, SubmitPrefix(input, submittedAt)) == s3 by {
      RunThree(s, AddMessage(UserMessage(input, submittedAt)), SetChatLoading(true), AddToHistory(HistoryEntry(input, submittedAt)));
    }
    Run(s, SubmitPrefix(input, submittedAt))
  }

  /** `handleSubmit`: ignored for blank input or while disconnected, otherwise the prefix
      dispatches, the awaited call, and the settling dispatches. */
  function HandleSubmit(s: State, input: string, submittedAt: int, resolvedAt: int, outcome: Outcome<QueryResult>): (r: State)
    // nothing is dispatched for a blank input or a disconnected state
    ensures !Accepts(s, input) ==> r == s
    // an accepted submission adds the user's message, verbatim, then the reply message
    ensures Accepts(s, input) ==>
      r.chat.messages == s.chat.messages + [UserMessage(input, submittedAt), ReplyMessage(outcome, resolvedAt)]
    ensures Accepts(s, input) ==> !r.chat.loading
    ensures Accepts(s, input) && outcome.Ok? ==>
      r.chat.messages[|r.chat.messages| - 1].kind == Assistant && r.chat.error == s.chat.error
    ensures Accepts(s, input) && outcome.Err? ==>
      r.chat.messages[|r.chat.messages| - 1] == Message(resolvedAt + 1, ErrorMessage, Text(outcome.msg), resolvedAt)
      && r.chat.error == Some(outcome.msg)
    // one history entry, newest first, capped
    ensures Accepts(s, input) ==>
      |r.history| == Min(|s.history| + 1, HistoryCap) && r.history[0] == HistoryEntry(input, submittedAt)
      && forall i :: 1 <= i < |r.history| ==> r.history[i] == s.history[i - 1]
    // the connection and schema are never touched
    ensures r.connection == s.connection && r.schema == s.schema
  {
    if !Accepts(s, input) then s
    else
      var p := SubmitPrefix(input, submittedAt);
      var q := SettleDispatches(outcome, resolvedAt);
      var mid := Submitted(s, input, submittedAt);
      var r1 := Reduce(mid, q[0]);
      var r2 := Reduce(r1, q[1]);
      assert Run(mid, q) == r2 by {
        assert q == [q[0], q[1]];
        RunTwo(mid, q[0], q[1]);
      }
      assert Run(s, p + q) == r2 by {
        RunAppend(s, p, q);
      }
      Run(s, p + q)
  }

  /** The settling dispatches from whatever state the app is in when the call returns;
      other handlers (the header's Clear button, the schema panel's Disconnect) can dispatch
      while the call is awaited, so that state need not be `Submitted`. */
  lemma Settle(t: State, outcome: Outcome<QueryResult>, resolvedAt: int)
    ensures var r := Run(t, SettleDispatches(outcome, resolvedAt));
      && r.chat.messages == t.chat.messages + [ReplyMessage(outcome, resolvedAt)]
      && !r.chat.loading
      && (outcome.Ok? ==> r.chat.error == t.chat.error)
      && (outcome.Err? ==> r.chat.error == Some(outcome.msg))
      && r.connection == t.connection && r.schema == t.schema && r.history == t.history
  {
    var q := SettleDispatches(outcome, resolvedAt);
    assert q == [q[0], q[1]];
    RunTwo(t, q[0], q[1]);
  }

  /** A chat cleared while the call is awaited keeps only the reply: the user's message is
      gone, unlike in an uninterrupted submission. */
  lemma ClearDuringAwait(s: State, input: string, submittedAt: int, resolvedAt: int, outcome: Outcome<QueryResult>)
    ensures var cleared := Reduce(Submitted(s, input, submittedAt), ClearChat);
      Run(cleared, SettleDispatches(outcome, resolvedAt)).chat.messages == [ReplyMessage(outcome, resolvedAt)]
  {
    Settle(Reduce(Submitted(s, input, submittedAt), ClearChat), outcome, resolvedAt);
  }
}
