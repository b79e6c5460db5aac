/** The string-building parts of the backend's text-to-SQL service
    (`NLPService` in backend/app/nlp_service.py): the schema rendered as DDL for the prompt,
    the prompt itself, the cleanup of the model's answer, and two message templates.
    The language model is a parameter: a function from prompt to completion text. */
module NlpService {
  import opened Wrappers
  import opened Strings
  import opened Models

  // ---------------------------------------------------------------- Python str.strip()

  /** The characters Python's `str.isspace` accepts, which `str.strip()` removes. */
  predicate IsPyWhitespace(c: char)
  {
    || ('\t' <= c <= '\r') || ('\U{001C}' <= c <= '\U{001F}') || c == ' '
    || c == '\U{0085}' || c == '\U{00A0}' || c == '\U{1680}' || ('\U{2000}' <= c <= '\U{200A}')
    || c == '\U{2028}' || c == '\U{2029}' || c == '\U{202F}' || c == '\U{205F}' || c == '\U{3000}'
  }

  /** Every character of `s` from index `lo` up to `hi` is whitespace. */
  predicate WhitespaceBetween(s: string, lo: int, hi: int)
    requires 0 <= lo <= hi <= |s|
  {
    forall i :: lo <= i < hi ==> IsPyWhitespace(s[i])
  }

  /** Neither end of `s` is whitespace. */
  predicate IsStripped(s: string)
  {
    |s| == 0 || (!IsPyWhitespace(s[0]) && !IsPyWhitespace(s[|s| - 1]))
  }

  /** `s.lstrip()`: the longest suffix of `s` that does not start with whitespace. */
  function LStrip(s: string): (r: string)
    ensures |r| <= |s| && r == s[|s| - |r|..]
    ensures WhitespaceBetween(s, 0, |s| - |r|)
    ensures |r| > 0 ==> !IsPyWhitespace(r[0])
  {
    if |s| > 0 && IsPyWhitespace(s[0]) then
      var t := s[1..];
      var r := LStrip(t);
      assert forall i :: 1 <= i < |s| ==> s[i] == t[i - 1];
      r
    else s
  }

  /** `s.rstrip()`: the longest prefix of `s` that does not end with whitespace. */
  function RStrip(s: string): (r: string)
    ensures |r| <= |s| && r == s[..|r|]
    ensures WhitespaceBetween(s, |r|, |s|)
    ensures |r| > 0 ==> !IsPyWhitespace(r[|r| - 1])
  {
    if |s| > 0 && IsPyWhitespace(s[|s| - 1]) then
      var t := s[..|s| - 1];
      var r := RStrip(t);
      assert forall i :: 0 <= i < |t| ==> s[i] == t[i];
      r
    else s
  }

  /** `s.strip()`: `s` with its leading and trailing whitespace removed. */
  function Strip(s: string): (r: string)
    ensures IsStripped(r)
    ensures exists i :: StripsTo(s, r, i)
  {
    var l := LStrip(s);
    var r := RStrip(l);
    var i := |s| - |l|;
    assert StripsTo(s, r, i) by {
      WhitespaceShift(s, i, |r|, |l|);
      assert s[i..i + |r|] == l[..|r|];
    }
    r
  }

  /** Whitespace found in the suffix `s[i..]` is whitespace of `s`, shifted by `i`. */
  lemma WhitespaceShift(s: string, i: int, lo: int, hi: int)
    requires 0 <= i <= |s| && 0 <= lo <= hi <= |s| - i
    requires WhitespaceBetween(s[i..], lo, hi)
    ensures WhitespaceBetween(s, i + lo, i + hi)
  {
    forall k | i + lo <= k < i + hi
      ensures IsPyWhitespace(s[k])
    {
      assert s[k] == s[i..][k - i];
    }
  }

  /** `r` is `s` with whitespace-only text of `s` removed before index `i` and after `r`. */
  predicate StripsTo(s: string, r: string, i: int)
  {
    && 0 <= i && i + |r| <= |s|
    && s[i..i + |r|] == r
    && WhitespaceBetween(s, 0, i)
    && WhitespaceBetween(s, i + |r|, |s|)
  }

  /** Only one slice of `s` has whitespace alone around it and none at its own ends:
      whichever such slice is named, `strip` returns it. */
  lemma StripUnique(s: string, q: string, j: int)
    requires StripsTo(s, q, j) && IsStripped(q)
    ensures Strip(s) == q
  {
    var r := Strip(s);
    var i :| StripsTo(s, r, i);
    if |q| > 0 {
      assert s[j] == q[0] && s[j + |q| - 1] == q[|q| - 1];
      assert |r| > 0;
      assert s[i] == r[0] && s[i + |r| - 1] == r[|r| - 1];
      assert i == j;
      assert |r| == |q|;
    }
  }

  /** `s` is whitespace throughout. */
  predicate IsBlankText(s: string)
  {
    WhitespaceBetween(s, 0, |s|)
  }

  /** Whitespace padding around a stripped text is exactly what `strip` removes. */
  lemma StripRemovesPadding(pre: string, q: string, post: string)
    requires IsBlankText(pre) && IsBlankText(post) && IsStripped(q)
    ensures Strip(pre + q + post) == q
  {
    var s := pre + q + post;
    assert s[|pre|..|pre| + |q|] == q;
    forall k | 0 <= k < |pre|
      ensures IsPyWhitespace(s[k])
    {
      assert s[k] == pre[k];
    }
    forall k | |pre| + |q| <= k < |s|
      ensures IsPyWhitespace(s[k])
    {
      assert s[k] == post[k - |pre| - |q|];
    }
    StripUnique(s, q, |pre|);
  }

  /** Stripping a string with no whitespace at either end returns it unchanged. */
  lemma StripFixesStripped(s: string)
    requires IsStripped(s)
    ensures Strip(s) == s
  {
    StripUnique(s, s, 0);
  }

  lemma StripIdempotent(s: string)
    ensures Strip(Strip(s)) == Strip(s)
  {
    StripFixesStripped(Strip(s));
  }

  // ---------------------------------------------------------------- schema context

  const PrimaryKeySuffix := " PRIMARY KEY"
  const ColumnSep := ", "
  const DdlHead := "CREATE TABLE "
  const DdlOpen := " (\n  "
  const DdlClose := "\n);"
  const TableSep := "\n\n"

  /** One column as `name type`, with ` PRIMARY KEY` after the key columns. */
  function ColumnDef(c: Column): (r: string)
    ensures !c.primaryKey ==> r == c.name + " " + c.typ
    ensures c.primaryKey ==> r == c.name + " " + c.typ + PrimaryKeySuffix
  {
    c.name + " " + c.typ + (if c.primaryKey then PrimaryKeySuffix else "")
  }

  function ColumnDefs(cols: seq<Column>): (defs: seq<string>)
    ensures |defs| == |cols|
    ensures forall i :: 0 <= i < |cols| ==> defs[i] == ColumnDef(cols[i])
  {
    seq(|cols|, i requires 0 <= i < |cols| => ColumnDef(cols[i]))
  }

  /** One `CREATE TABLE` statement, its column definitions comma-separated on one line in
      the table's column order. */
  function TableDdl(t: Table): (r: string)
    ensures |t.columns| == 0 ==> r == DdlHead + t.name + DdlOpen + DdlClose
    ensures |t.columns| == 1 ==> r == DdlHead + t.name + DdlOpen + ColumnDef(t.columns[0]) + DdlClose
    ensures StartsWith(r, DdlHead + t.name + DdlOpen)
    ensures EndsWith(r, DdlClose)
  {
    var head := DdlHead + t.name + DdlOpen;
    var r := head + Join(ColumnSep, ColumnDefs(t.columns)) + DdlClose;
    assert r[..|head|] == head;
    r
  }

  /** A further column adds `, ` and its definition just before the statement's close. */
  lemma {:induction false} TableDdlAppend(t: Table, c: Column)
    requires |t.columns| > 0
    ensures var d := TableDdl(t);
      TableDdl(t.(columns := t.columns + [c])) == d[..|d| - |DdlClose|] + ColumnSep + ColumnDef(c) + DdlClose
  {
    var defs := ColumnDefs(t.columns);
    assert ColumnDefs(t.columns + [c]) == defs + [ColumnDef(c)];
    JoinSnoc(ColumnSep, defs, ColumnDef(c));
    InsertBeforeSuffix(DdlHead + t.name + DdlOpen, Join(ColumnSep, defs), ColumnSep, ColumnDef(c), DdlClose);
  }

  function TableDdls(ts: seq<Table>): (ddls: seq<string>)
    ensures |ddls| == |ts|
    ensures forall i :: 0 <= i < |ts| ==> ddls[i] == TableDdl(ts[i])
  {
    seq(|ts|, i requires 0 <= i < |ts| => TableDdl(ts[i]))
  }

  /** A join of statements starts like its first statement and ends like its last. */
  lemma {:induction false} JoinedStatementsEnds(ts: seq<Table>)
    requires |ts| > 0
    ensures StartsWith(Join(TableSep, TableDdls(ts)), DdlHead + ts[0].name + DdlOpen)
    ensures EndsWith(Join(TableSep, TableDdls(ts)), DdlClose)
  {
    var ddls := TableDdls(ts);
    var r := Join(TableSep, ddls);
    StartsWithTransitive(r, ddls[0], DdlHead + ts[0].name + DdlOpen);
    EndsWithTransitive(r, ddls[|ddls| - 1], DdlClose);
  }

  /** `_build_schema_context`: the statements of all tables, in order, separated by a blank
      line. */
  function BuildSchemaContext(ts: seq<Table>): (r: string)
    ensures |ts| == 0 ==> r == ""
    ensures |ts| == 1 ==> r == TableDdl(ts[0])
    ensures |ts| > 0 ==> StartsWith(r, DdlHead + ts[0].name + DdlOpen)
    ensures |ts| > 0 ==> EndsWith(r, DdlClose)
  {
    if |ts| > 0 then
      JoinedStatementsEnds(ts);
      Join(TableSep, TableDdls(ts))
    else ""
  }

  /** A further table adds a blank line and its statement at the end. */
  lemma {:induction false} SchemaContextAppend(ts: seq<Table>, t: Table)
    requires |ts| > 0
    ensures BuildSchemaContext(ts + [t]) == BuildSchemaContext(ts) + TableSep + TableDdl(t)
  {
    assert TableDdls(ts + [t]) == TableDdls(ts) + [TableDdl(t)];
    JoinSnoc(TableSep, TableDdls(ts), TableDdl(t));
  }

  // ---------------------------------------------------------------- text_to_sql

  const ModelNotLoaded := "Model not loaded. Cannot generate SQL without AI model."

  /** `a` occurs in `s` and `b` occurs later, after the end of `a`. */
  predicate Precedes(s: string, a: string, b: string)
  {
    exists i, j | 0 <= i <= |s| && 0 <= j <= |s| :: OccursAt(s, a, i) && OccursAt(s, b, j) && i + |a| <= j
  }

  lemma PrecedesIntro(s: string, a: string, b: string, i: int, j: int)
    requires OccursAt(s, a, i) && OccursAt(s, b, j) && i + |a| <= j
    ensures Precedes(s, a, b)
  {
  }

  /** In `a + x + b + y + c`, `x` precedes `y`. */
  lemma PrecedesInConcat(a: string, x: string, b: string, y: string, c: string)
    ensures Precedes(a + x + b + y + c, x, y)
  {
    var s := a + x + b + y + c;
    OccursInConcat(a, x, b + y + c);
    OccursInConcat(a + x + b, y, c);
    assert a + x + (b + y + c) == s;
    PrecedesIntro(s, x, y, |a|, |a + x + b|);
  }

  const PromptTask := "### Task\nGenerate a SQL query for the following request.\n\n### Database Schema\n"
  const PromptRequest := "\n\n### Request\n"
  const PromptTail := "\n\n### SQL Query\n"

  /** The prompt given to the model: task, schema, request, and the SQL heading to complete. */
  function Prompt(schemaText: string, text: string): (r: string)
    ensures Precedes(r, schemaText, text)
    ensures EndsWith(r, PromptTail)
  {
    var r := PromptTask + schemaText + PromptRequest + text + PromptTail;
    PrecedesInConcat(PromptTask, schemaText, PromptRequest, text, PromptTail);
    assert r[|r| - |PromptTail|..] == PromptTail;
    r
  }

  const SqlFence := "```sql"
  const Fence := "```"
  const Newline := "\n"

  /** Drops a leading ```sql and a trailing ```, each on its own, whatever stands next to
      them; what is left is a piece of the input. */
  function DropFences(s: string): (r: string)
    ensures StartsWith(s, SqlFence) && |s| >= |SqlFence| + |Fence| && EndsWith(s, Fence) ==>
      r == s[|SqlFence|..|s| - |Fence|]
    ensures StartsWith(s, SqlFence) && !EndsWith(s, Fence) ==> r == s[|SqlFence|..]
    ensures !StartsWith(s, SqlFence) && EndsWith(s, Fence) ==> r == s[..|s| - |Fence|]
    ensures !StartsWith(s, SqlFence) && !EndsWith(s, Fence) ==> r == s
    ensures IsSliceOf(s, r)
  {
    var k := if StartsWith(s, SqlFence) then |SqlFence| else 0;
    var s1 := if StartsWith(s, SqlFence) then s[|SqlFence|..] else s;
    var r := if EndsWith(s1, Fence) then s1[..|s1| - |Fence|] else s1;
    assert OccursAt(s, r, k) by {
      assert OccursAt(s, s1, k);
      assert OccursAt(s1, r, 0);
      OccursWithin(s, s1, k, r, 0);
    }
    if StartsWith(s, SqlFence) && |s1| >= |Fence| then
      assert s1[|s1| - |Fence|..] == s[|s| - |Fence|..];
      r
    else r
  }

  /** A stripped string is a piece of the input. */
  lemma {:induction false} StripIsSlice(s: string)
    ensures IsSliceOf(s, Strip(s))
  {
    var i :| StripsTo(s, Strip(s), i);
    assert OccursAt(s, Strip(s), i);
  }

  /** The cleanup at the end of `text_to_sql`: strip, drop a leading ```sql and a trailing
      ``` each on its own, strip again. What is left is a piece of the completion. */
  function CleanSql(completion: string): (r: string)
    ensures IsStripped(r)
    ensures IsSliceOf(completion, r)
    // without fences, the cleanup is just the strip
    ensures var s := Strip(completion);
      !StartsWith(s, SqlFence) && !EndsWith(s, Fence) ==> r == s
    ensures var s := Strip(completion);
      StartsWith(s, SqlFence) && !EndsWith(s, Fence) ==> r == Strip(s[|SqlFence|..])
    ensures var s := Strip(completion);
      !StartsWith(s, SqlFence) && EndsWith(s, Fence) ==> r == Strip(s[..|s| - |Fence|])
    ensures var s := Strip(completion);
      StartsWith(s, SqlFence) && |s| >= |SqlFence| + |Fence| && EndsWith(s, Fence) ==>
        r == Strip(s[|SqlFence|..|s| - |Fence|])
  {
    var s := Strip(completion);
    CleanupIsSlice(completion);
    CleanupCases(s);
    var r := Strip(DropFences(s));
    if !StartsWith(s, SqlFence) && !EndsWith(s, Fence) then
      StripIdempotent(completion);
      r
    else r
  }

  /** What the last two steps of the cleanup make of a text, by fence. */
  lemma {:induction false} CleanupCases(s: string)
    ensures !StartsWith(s, SqlFence) && !EndsWith(s, Fence) ==> Strip(DropFences(s)) == Strip(s)
    ensures StartsWith(s, SqlFence) && !EndsWith(s, Fence) ==>
      Strip(DropFences(s)) == Strip(s[|SqlFence|..])
    ensures !StartsWith(s, SqlFence) && EndsWith(s, Fence) ==>
      Strip(DropFences(s)) == Strip(s[..|s| - |Fence|])
    ensures StartsWith(s, SqlFence) && |s| >= |SqlFence| + |Fence| && EndsWith(s, Fence) ==>
      Strip(DropFences(s)) == Strip(s[|SqlFence|..|s| - |Fence|])
  {
  }

  /** Each of the three steps keeps a piece of its input, so the cleanup does too. */
  lemma {:induction false} CleanupIsSlice(completion: string)
    ensures IsSliceOf(completion, Strip(DropFences(Strip(completion))))
  {
    var s := Strip(completion);
    var d := DropFences(s);
    StripIsSlice(completion);
    StripIsSlice(d);
    SliceOfSlice(completion, s, d);
    SliceOfSlice(completion, d, Strip(d));
  }

  /** A query wrapped in a ```sql block, on lines of its own, comes back out unchanged. */
  lemma {:induction false} CleanSqlUnwrapsFence(query: string)
    requires IsStripped(query)
    ensures CleanSql(SqlFence + "\n" + query + "\n" + Fence) == query
  {
    DropBothFences(query);
  }

  /** The three steps of the cleanup on a fenced block. */
  lemma {:induction false} DropBothFences(query: string)
    requires IsStripped(query)
    ensures Strip(DropFences(Strip(SqlFence + "\n" + query + "\n" + Fence))) == query
  {
    var body := "\n" + query + "\n";
    var raw := SqlFence + body + Fence;
    assert raw == SqlFence + "\n" + query + "\n" + Fence;
    assert raw[0] == '`' && raw[|raw| - 1] == '`';
    StripFixesStripped(raw);
    DropFencesOfBlock(body);
    NewlineIsBlank();
    StripRemovesPadding(Newline, query, Newline);
  }

  /** A newline is Python whitespace. */
  lemma NewlineIsBlank()
    ensures IsBlankText(Newline)
  {
    assert IsPyWhitespace(Newline[0]);
  }

  /** Both fences around any text are dropped. */
  lemma {:induction false} DropFencesOfBlock(x: string)
    ensures DropFences(SqlFence + x + Fence) == x
  {
    var raw := SqlFence + x + Fence;
    assert raw[..|SqlFence|] == SqlFence;
    assert raw[|raw| - |Fence|..] == Fence;
    assert raw[|SqlFence|..|raw| - |Fence|] == x;
  }

  /** A text of at least three characters ends with ``` exactly when it does after a
      newline is put in front. */
  lemma {:induction false} FenceAfterNewline(query: string)
    requires |query| >= |Fence|
    ensures EndsWith("\n" + query, Fence) <==> EndsWith(query, Fence)
  {
    var s1 := "\n" + query;
    assert s1[|s1| - |Fence|..] == query[|query| - |Fence|..];
  }

  /** A newline followed by fewer than three characters does not end with ```. */
  lemma {:induction false} NoFenceAfterNewline(query: string)
    requires |query| < |Fence|
    ensures !EndsWith("\n" + query, Fence)
  {
    var s1 := "\n" + query;
    if |s1| >= |Fence| {
      assert s1[|s1| - |Fence|..][0] == '\n';
    }
  }

  /** A newline in front does not make a closing fence. */
  lemma {:induction false} NewlineKeepsNoFence(query: string)
    requires !EndsWith(query, Fence)
    ensures !EndsWith("\n" + query, Fence)
  {
    if |query| >= |Fence| {
      FenceAfterNewline(query);
    } else {
      NoFenceAfterNewline(query);
    }
  }

  /** With a leading ```sql and no trailing ```, only the opening fence is dropped. */
  lemma {:induction false} DropOpeningFence(query: string)
    requires !EndsWith(query, Fence)
    ensures DropFences(SqlFence + "\n" + query) == "\n" + query
  {
    var raw := SqlFence + "\n" + query;
    assert raw[..|SqlFence|] == SqlFence;
    assert raw[|SqlFence|..] == "\n" + query;
    NewlineKeepsNoFence(query);
  }

  /** An opening ```sql with no closing fence is dropped on its own. */
  lemma {:induction false} CleanSqlOpeningFenceOnly(query: string)
    requires IsStripped(query) && !EndsWith(query, Fence)
    ensures CleanSql(SqlFence + "\n" + query) == query
  {
    CleanOpeningFence(query);
  }

  /** The three steps of the cleanup on a text that only opens a fence. */
  lemma {:induction false} CleanOpeningFence(query: string)
    requires IsStripped(query) && !EndsWith(query, Fence)
    ensures Strip(DropFences(Strip(SqlFence + "\n" + query))) == query
  {
    if |query| == 0 {
      assert SqlFence + "\n" + query == SqlFence + Newline;
      CleanLoneOpeningFence();
    } else {
      OpenedIsStripped(query);
      StripFixesStripped(SqlFence + Newline + query);
      DropOpeningFence(query);
      StripAfterNewline(query);
    }
  }

  /** A stripped text after an opening fence and a newline leaves the whole stripped. */
  lemma OpenedIsStripped(query: string)
    requires IsStripped(query) && |query| > 0
    ensures IsStripped(SqlFence + Newline + query)
  {
    var raw := SqlFence + Newline + query;
    assert raw[0] == '`' && raw[|raw| - 1] == query[|query| - 1];
  }

  /** Stripping drops a newline put in front of a stripped text. */
  lemma StripAfterNewline(query: string)
    requires IsStripped(query)
    ensures Strip(Newline + query) == query
  {
    NewlineIsBlank();
    StripRemovesPadding(Newline, query, "");
    assert Newline + query + "" == Newline + query;
  }

  /** An opening fence and a newline, with nothing after, leave nothing. */
  lemma CleanLoneOpeningFence()
    ensures Strip(DropFences(Strip(SqlFence + Newline))) == ""
  {
    NewlineIsBlank();
    assert SqlFence + Newline == "" + SqlFence + Newline;
    StripRemovesPadding("", SqlFence, Newline);
    assert DropFences(SqlFence) == "" by {
      assert SqlFence[..|SqlFence|] == SqlFence;
    }
    StripFixesStripped("");
  }

  /** A text of at least six characters starts with ```sql exactly when it does with a
      closing fence on the next line. */
  lemma {:induction false} SqlFenceBeforeNewline(query: string)
    requires |query| >= |SqlFence|
    ensures StartsWith(query + "\n" + Fence, SqlFence) <==> StartsWith(query, SqlFence)
  {
    assert (query + "\n" + Fence)[..|SqlFence|] == query[..|SqlFence|];
  }

  /** Fewer than six characters before a newline do not start with ```sql, which holds no
      newline. */
  lemma {:induction false} NoSqlFenceBeforeNewline(query: string)
    requires |query| < |SqlFence|
    ensures !StartsWith(query + "\n" + Fence, SqlFence)
  {
    var raw := query + "\n" + Fence;
    assert raw[|query|] == '\n';
    assert forall k :: 0 <= k < |SqlFence| ==> SqlFence[k] != '\n';
    if |raw| >= |SqlFence| {
      assert raw[..|SqlFence|][|query|] == '\n';
    }
  }

  /** With a trailing ``` and no leading ```sql, only the closing fence is dropped. */
  lemma {:induction false} DropClosingFence(query: string)
    requires !StartsWith(query, SqlFence)
    ensures DropFences(query + "\n" + Fence) == query + "\n"
  {
    var raw := query + "\n" + Fence;
    if |query| >= |SqlFence| {
      SqlFenceBeforeNewline(query);
    } else {
      NoSqlFenceBeforeNewline(query);
    }
    assert raw[|raw| - |Fence|..] == Fence;
    assert raw[..|raw| - |Fence|] == query + "\n";
  }

  /** A closing ``` with no opening ```sql is dropped on its own. */
  lemma {:induction false} CleanSqlClosingFenceOnly(query: string)
    requires IsStripped(query) && !StartsWith(query, SqlFence)
    ensures CleanSql(query + "\n" + Fence) == query
  {
    CleanClosingFence(query);
  }

  /** The three steps of the cleanup on a text that only closes a fence. */
  lemma {:induction false} CleanClosingFence(query: string)
    requires IsStripped(query) && !StartsWith(query, SqlFence)
    ensures Strip(DropFences(Strip(query + "\n" + Fence))) == query
  {
    if |query| == 0 {
      assert query + "\n" + Fence == Newline + Fence;
      CleanLoneClosingFence();
    } else {
      ClosedIsStripped(query);
      StripFixesStripped(query + Newline + Fence);
      DropClosingFence(query);
      StripBeforeNewline(query);
    }
  }

  /** A stripped text before a newline and a closing fence leaves the whole stripped. */
  lemma ClosedIsStripped(query: string)
    requires IsStripped(query) && |query| > 0
    ensures IsStripped(query + Newline + Fence)
  {
    var raw := query + Newline + Fence;
    assert raw[0] == query[0] && raw[|raw| - 1] == '`';
  }

  /** Stripping drops a newline put after a stripped text. */
  lemma StripBeforeNewline(query: string)
    requires IsStripped(query)
    ensures Strip(query + Newline) == query
  {
    NewlineIsBlank();
    StripRemovesPadding("", query, Newline);
    assert "" + query + Newline == query + Newline;
  }

  /** A newline and a closing fence, with nothing before, leave nothing. */
  lemma CleanLoneClosingFence()
    ensures Strip(DropFences(Strip(Newline + Fence))) == ""
  {
    NewlineIsBlank();
    assert Newline + Fence == Newline + Fence + "";
    StripRemovesPadding(Newline, Fence, "");
    assert DropFences(Fence) == "" by {
      assert Fence[..|Fence| - |Fence|] == "";
    }
    StripFixesStripped("");
  }

  /** `text_to_sql`: fails when no model is loaded; otherwise the cleaned completion of the
      prompt built from the schema and the request. */
  function TextToSql(model: Option<string -> string>, text: string, schema: seq<Table>): (r: Outcome<string>)
    ensures model.None? <==> r == Err(ModelNotLoaded)
    ensures r.Ok? ==> IsStripped(r.value)
    ensures model.Some? ==> r == Ok(CleanSql(model.value(Prompt(BuildSchemaContext(schema), text))))
  {
    match model
    case None => Err(ModelNotLoaded)
    case Some(complete) => Ok(CleanSql(complete(Prompt(BuildSchemaContext(schema), text))))
  }

  // ---------------------------------------------------------------- message templates

  /** `a`, `b` and `c` occur in `s` in that order, without overlapping. */
  predicate InOrder(s: string, a: string, b: string, c: string)
  {
    exists i, j, k | 0 <= i <= |s| && 0 <= j <= |s| && 0 <= k <= |s| ::
      OccursAt(s, a, i) && OccursAt(s, b, j) && OccursAt(s, c, k) && i + |a| <= j && j + |b| <= k
  }

  lemma InOrderIntro(s: string, a: string, b: string, c: string, i: int, j: int, k: int)
    requires OccursAt(s, a, i) && OccursAt(s, b, j) && OccursAt(s, c, k) && i + |a| <= j && j + |b| <= k
    ensures InOrder(s, a, b, c)
  {
  }

  /** In `a + x + b + y + c + z + d`, `x`, `y` and `z` appear in that order. */
  lemma {:induction false} InOrderInConcat(a: string, x: string, b: string, y: string, c: string, z: string, d: string)
    ensures InOrder(a + x + b + y + c + z + d, x, y, z)
  {
    var s := a + x + b + y + c + z + d;
    OccursInConcat(a, x, b);
    OccursInPrefix(a + x + b, y, x, |a|);
    OccursInPrefix(a + x + b + y, c, x, |a|);
    OccursInPrefix(a + x + b + y + c, z, x, |a|);
    OccursInPrefix(a + x + b + y + c + z, d, x, |a|);
    OccursInConcat(a + x + b, y, c);
    OccursInPrefix(a + x + b + y + c, z, y, |a + x + b|);
    OccursInPrefix(a + x + b + y + c + z, d, y, |a + x + b|);
    OccursInConcat(a + x + b + y + c, z, d);
    InOrderIntro(s, x, y, z, |a|, |a + x + b|, |a + x + b + y + c|);
  }

  const FailureHead := "Query execution failed."
  const FailureIntro := " Here's what I generated - can you check if this looks right?\n\nGenerated Query: "
  const FailureRequest := "\n\nOriginal Request: "
  const FailureError := "\n\nError: "
  const FailureTail := "\n\nI'm not confident about this query. Please review and let me know if adjustments are needed."

  /** `format_error_with_query`: shows the generated query, then the request, then the error. */
  function FormatErrorWithQuery(error: string, generatedQuery: string, originalText: string): (r: string)
    ensures InOrder(r, generatedQuery, originalText, error)
    ensures StartsWith(r, FailureHead)
  {
    var r := (FailureHead + FailureIntro) + generatedQuery + FailureRequest + originalText + FailureError + error + FailureTail;
    InOrderInConcat(FailureHead + FailureIntro, generatedQuery, FailureRequest, originalText, FailureError, error, FailureTail);
    assert r[..|FailureHead|] == FailureHead;
    r
  }

  const ExplanationHead := "Generated SQL query for: "

  /** `get_explanation`: names the original request in quotes. */
  function GetExplanation(sql: string, originalQuery: string): (r: string)
    ensures StartsWith(r, ExplanationHead)
    ensures OccursAt(r, "'" + originalQuery + "'", |ExplanationHead|)
  {
    var quoted := "'" + originalQuery + "'";
    var r := ExplanationHead + quoted + ". The query retrieves data based on your natural language request.";
    assert r[..|ExplanationHead|] == ExplanationHead;
    assert r[|ExplanationHead|..|ExplanationHead| + |quoted|] == quoted;
    r
  }

  /** The explanation does not depend on the generated SQL. */
  lemma ExplanationIgnoresSql(sql1: string, sql2: string, originalQuery: string)
    ensures GetExplanation(sql1, originalQuery) == GetExplanation(sql2, originalQuery)
  {
  }
}
