/** `QueryService`: the allow-list gate in front of ad-hoc SQL, the result envelope,
    transactions, execution plans and statistics. Every request goes through the
    manager's `Query`; the elapsed time that `Date.now()` would measure is a
    parameter. */
module Queries {
  import opened Wrappers
  import opened Strings
  import opened JsValues
  import opened Errors
  import opened DbTypes
  import opened MssqlManager

  // ---------------------------------------------------------------------------
  // Classification: getQueryType and isAllowedQueryType

  datatype QueryType = Select | Insert | Update | Delete | Execute | WithSelect | Unknown

  /** The text `getQueryType` returns for each class. */
  function Tag(t: QueryType): string {
    match t
    case Select => "SELECT"
    case Insert => "INSERT"
    case Update => "UPDATE"
    case Delete => "DELETE"
    case Execute => "EXECUTE"
    case WithSelect => "WITH_SELECT"
    case Unknown => "UNKNOWN"
  }

  /** The prefix that selects each class (`execute` also starts with `exec`). */
  function Keyword(t: QueryType): string
    requires t != Unknown
  {
    match t
    case Select => "select"
    case Insert => "insert"
    case Update => "update"
    case Delete => "delete"
    case Execute => "exec"
    case WithSelect => "with"
  }

  /** The chain of `startsWith` tests, on the trimmed and lower-cased text. */
  function Classify(clean: string): QueryType {
    if StartsWith(clean, "select") then Select
    else if StartsWith(clean, "insert") then Insert
    else if StartsWith(clean, "update") then Update
    else if StartsWith(clean, "delete") then Delete
    else if StartsWith(clean, "exec") || StartsWith(clean, "execute") then Execute
    else if StartsWith(clean, "with") then WithSelect
    else Unknown
  }

  /** `getQueryType`. */
  function GetQueryType(query: string): QueryType {
    Classify(Lower(Trim(query)))
  }

  /** `execute` adds nothing to the `exec` test. */
  lemma ExecuteSubsumedByExec(s: string)
    ensures StartsWith(s, "execute") ==> StartsWith(s, "exec")
  {
    if StartsWith(s, "execute") {
      assert s[..4] == s[..7][..4];
    }
  }

  lemma StartsWithFirst(s: string, p: string)
    requires p != [] && StartsWith(s, p)
    ensures s != [] && s[0] == p[0]
  {
    assert s[..|p|][0] == s[0];
  }

  /** A text that differs from `p` at some position of `p` does not start with `p`. */
  lemma MismatchAt(s: string, p: string, j: nat)
    requires j < |p| && (j >= |s| || s[j] != p[j])
    ensures !StartsWith(s, p)
  {
    if |p| <= |s| {
      assert s[..|p|][j] == s[j];
    }
  }

  /** The classifier is exactly "the keyword the cleaned text starts with": each
      class other than `UNKNOWN` is chosen exactly when its keyword is a prefix, and
      `UNKNOWN` exactly when none is. The keywords start with distinct letters, so
      the order of the tests does not matter. */
  lemma ClassifySpec(clean: string, t: QueryType)
    ensures t != Unknown ==> (Classify(clean) == t <==> StartsWith(clean, Keyword(t)))
    ensures Classify(clean) == Unknown <==> forall u :: u != Unknown ==> !StartsWith(clean, Keyword(u))
  {
    ExecuteSubsumedByExec(clean);
    forall u | u != Unknown && StartsWith(clean, Keyword(u))
      ensures Classify(clean) == u
    {
      StartsWithFirst(clean, Keyword(u));
    }
    if Classify(clean) != Unknown {
      var c := Classify(clean);
      assert StartsWith(clean, Keyword(c));
    }
  }

  /** The classification of a query, stated on the query itself. */
  lemma GetQueryTypeSpec(query: string, t: QueryType)
    ensures t != Unknown ==>
      (GetQueryType(query) == t <==> StartsWith(Lower(Trim(query)), Keyword(t)))
    ensures GetQueryType(query) == Unknown <==>
      forall u :: u != Unknown ==> !StartsWith(Lower(Trim(query)), Keyword(u))
  {
    ClassifySpec(Lower(Trim(query)), t);
  }

  predicate IsLowerWord(w: string) {
    forall i :: 0 <= i < |w| ==> 'a' <= w[i] <= 'z'
  }

  lemma LowerKeepsLowerPrefix(x: string, w: string)
    requires |w| <= |x| && x[..|w|] == w && IsLowerWord(w)
    ensures StartsWith(Lower(x), w)
  {
    LowerAt(x);
    assert forall i :: 0 <= i < |w| ==> Lower(x)[i] == LowerChar(x[i]) && x[i] == w[i];
  }

  /** A query that starts with a word that has no whitespace at either end is
      cleaned to a text that starts with that word, lower-cased. */
  lemma CleanPrefix(word: string, rest: string)
    requires word != [] && !IsJsWhitespace(word[0]) && !IsJsWhitespace(word[|word| - 1])
    ensures |word| <= |Lower(Trim(word + rest))|
    ensures Lower(Trim(word + rest))[..|word|] == Lower(word)
  {
    TrimKeepsPrefix(word, rest);
    var t := Trim(word + rest);
    LowerPrefix(t, |word|);
  }

  /** A prefix test, not a token test: a keyword followed by anything, `selection` or
      `execute` or `with_x` included, is classified by that keyword. */
  lemma KeywordSelects(t: QueryType, rest: string)
    requires t != Unknown
    ensures GetQueryType(Keyword(t) + rest) == t
  {
    var kw := Keyword(t);
    assert kw != [] && !IsJsWhitespace(kw[0]) && !IsJsWhitespace(kw[|kw| - 1]) && IsLowerWord(kw) by {
      match t
      case Select =>
      case Insert =>
      case Update =>
      case Delete =>
      case Execute =>
      case WithSelect =>
    }
    TrimKeepsPrefix(kw, rest);
    LowerKeepsLowerPrefix(Trim(kw + rest), kw);
    ClassifySpec(Lower(Trim(kw + rest)), t);
  }

  /** Leading whitespace does not change the class. */
  lemma LeadingWhitespaceIgnored(w: string, query: string)
    requires AllWhitespace(w)
    ensures GetQueryType(w + query) == GetQueryType(query)
  {
    TrimLeadingWhitespace(w, query);
  }

  /** Letter case does not change the class. */
  lemma CaseIgnored(query: string)
    ensures GetQueryType(Lower(query)) == GetQueryType(query)
  {
    TrimLowerCommute(query);
    LowerIdempotent(Trim(query));
  }

  /** Trimming first does not change the class (`executeQuery` classifies the trimmed
      text, `executeTransaction` the text as given). */
  lemma TrimIgnored(query: string)
    ensures GetQueryType(Trim(query)) == GetQueryType(query)
  {
    TrimIdempotent(query);
  }

  /** A text with nothing but whitespace is `UNKNOWN`. */
  lemma BlankIsUnknown(query: string)
    requires AllWhitespace(query)
    ensures GetQueryType(query) == Unknown
  {
    TrimSpec(query);
  }

  /** The six classes `isAllowedQueryType` lists. */
  const AllowedTypes: seq<string> := ["SELECT", "INSERT", "UPDATE", "DELETE", "EXECUTE", "WITH_SELECT"]

  /** `isAllowedQueryType`: membership of the class's text in the list. */
  predicate IsAllowedQueryType(t: QueryType) {
    Tag(t) in AllowedTypes
  }

  /** The gate admits every class the classifier can name and nothing else. */
  lemma AllowedIffKnown(t: QueryType)
    ensures IsAllowedQueryType(t) <==> t != Unknown
  {
    if t == Unknown {
      assert Tag(t) != AllowedTypes[0] && Tag(t) != AllowedTypes[1] && Tag(t) != AllowedTypes[2];
      assert Tag(t) != AllowedTypes[3] && Tag(t) != AllowedTypes[4] && Tag(t) != AllowedTypes[5];
    } else {
      match t
      case Select => assert Tag(t) == AllowedTypes[0];
      case Insert => assert Tag(t) == AllowedTypes[1];
      case Update => assert Tag(t) == AllowedTypes[2];
      case Delete => assert Tag(t) == AllowedTypes[3];
      case Execute => assert Tag(t) == AllowedTypes[4];
      case WithSelect => assert Tag(t) == AllowedTypes[5];
    }
  }

  lemma ClassifyUnknownByFirst(clean: string)
    requires clean == [] || clean[0] !in {'s', 'i', 'u', 'd', 'e', 'w'}
    ensures Classify(clean) == Unknown
  {
    forall u | u != Unknown ensures !StartsWith(clean, Keyword(u)) {
      MismatchAt(clean, Keyword(u), 0);
    }
    ClassifySpec(clean, Unknown);
  }

  /** A query whose first visible character, lower-cased, starts no keyword is
      `UNKNOWN`, whatever follows. */
  lemma FirstLetterDecides(word: string, rest: string)
    requires word != [] && !IsJsWhitespace(word[0])
    requires LowerChar(word[0]) !in {'s', 'i', 'u', 'd', 'e', 'w'}
    ensures GetQueryType(word + rest) == Unknown
  {
    assert [word[0]] + (word[1..] + rest) == word + rest;
    TrimKeepsPrefix([word[0]], word[1..] + rest);
    ClassifyUnknownByFirst(Lower(Trim(word + rest)));
  }

  /** A cleaned text that starts with `dr` has no keyword in front. */
  lemma ClassifyDr(clean: string)
    requires |clean| >= 2 && clean[0] == 'd' && clean[1] == 'r'
    ensures Classify(clean) == Unknown
  {
    forall u | u != Unknown ensures !StartsWith(clean, Keyword(u)) {
      MismatchAt(clean, Keyword(u), if u == Delete then 1 else 0);
    }
    ClassifySpec(clean, Unknown);
  }

  /** `DROP` is rejected whatever follows it, although `delete` starts with the same
      letter. */
  lemma DropRejected(ws: string, rest: string)
    requires AllWhitespace(ws)
    ensures GetQueryType(ws + "DROP" + rest) == Unknown
  {
    assert ws + "DROP" + rest == ws + ("DROP" + rest);
    LeadingWhitespaceIgnored(ws, "DROP" + rest);
    CleanPrefix("DROP", rest);
    var clean := Lower(Trim("DROP" + rest));
    assert Lower("DROP") == "drop";
    assert clean[..4] == "drop";
    assert clean[0] == clean[..4][0] && clean[1] == clean[..4][1];
    ClassifyDr(clean);
  }

  /** Transaction control cannot be sent as a query: `BEGIN`, `COMMIT` and `ROLLBACK`
      are rejected whatever follows them. */
  lemma TransactionControlRejected(word: string, rest: string)
    requires word in ["BEGIN", "COMMIT", "ROLLBACK"]
    ensures GetQueryType(word + rest) == Unknown
  {
    assert word[0] in {'B', 'C', 'R'};
    FirstLetterDecides(word, rest);
  }

  /** `TRUNCATE` is rejected whatever whitespace precedes it and whatever follows it. */
  lemma TruncateRejected(ws: string, rest: string)
    requires AllWhitespace(ws)
    ensures GetQueryType(ws + "TRUNCATE" + rest) == Unknown
  {
    FirstLetterDecides("TRUNCATE", rest);
    assert ws + "TRUNCATE" + rest == ws + ("TRUNCATE" + rest);
    LeadingWhitespaceIgnored(ws, "TRUNCATE" + rest);
  }

  // ---------------------------------------------------------------------------
  // The result envelope: formatQueryResult

  /** A tool reply: one text item made of a heading and the JSON rendering of `body`. */
  datatype Reply = Reply(heading: string, body: Json)

  /** What a best-effort operation answers: the listing, or a notice text in its place. */
  datatype Report = Listing(reply: Reply) | Notice(text: string)

  const ResultHeading := "查詢執行結果：\n"

  /** The classes whose envelope carries the record set. */
  predicate IsReadType(t: QueryType) {
    t == Select || t == WithSelect || t == Execute
  }

  /** The classes whose envelope carries the affected-row counts. */
  predicate IsWriteType(t: QueryType) {
    t == Insert || t == Update || t == Delete
  }

  function RowsJson(rows: seq<Row>): (j: Json)
    ensures j.Arr? && |j.items| == |rows|
    ensures forall i :: 0 <= i < |rows| ==> j.items[i] == Obj(rows[i])
  {
    Arr(seq(|rows|, i requires 0 <= i < |rows| => Obj(rows[i])))
  }

  function NumsJson(xs: seq<int>): (j: Json)
    ensures j.Arr? && |j.items| == |xs|
    ensures forall i :: 0 <= i < |xs| ==> j.items[i] == Num(xs[i])
  {
    Arr(seq(|xs|, i requires 0 <= i < |xs| => Num(xs[i])))
  }

  /** `counts.reduce((sum, count) => sum + count, 0)`, folding from the left. */
  function Sum(xs: seq<int>): int {
    if xs == [] then 0 else Sum(xs[..|xs| - 1]) + xs[|xs| - 1]
  }

  lemma {:induction false} SumConcat(a: seq<int>, b: seq<int>)
    ensures Sum(a + b) == Sum(a) + Sum(b)
    decreases |b|
  {
    if b == [] {
      assert a + b == a;
    } else {
      assert (a + b)[..|a + b| - 1] == a + b[..|b| - 1];
      SumConcat(a, b[..|b| - 1]);
    }
  }

  /** Counts of affected rows are never negative, so neither is their total. */
  lemma {:induction false} SumNonNegative(xs: seq<int>)
    requires forall i :: 0 <= i < |xs| ==> xs[i] >= 0
    ensures Sum(xs) >= 0
  {
    if xs != [] {
      SumNonNegative(xs[..|xs| - 1]);
    }
  }

  /** `result.recordset?.length || 0`. */
  function RecordCount(result: QueryResult): nat {
    if result.recordset.Some? then |result.recordset.value| else 0
  }

  /** `Array.isArray(result.rowsAffected) ? <sum> : result.rowsAffected || 0`. */
  function TotalRowsAffected(rowsAffected: Option<seq<int>>): int {
    match rowsAffected
    case Some(counts) => Sum(counts)
    case None => 0
  }

  function ReadFields(result: QueryResult): map<string, Json> {
    map["recordCount" := Num(RecordCount(result)), "records" := RowsJson(result.recordset.GetOr([]))]
  }

  function WriteFields(result: QueryResult): map<string, Json> {
    var counts := map[
      "rowsAffected" := NumsJson(result.rowsAffected.GetOr([0])),
      "totalRowsAffected" := Num(TotalRowsAffected(result.rowsAffected))];
    if result.recordset.Some? && |result.recordset.value| > 0
    then counts["records" := RowsJson(result.recordset.value)]
    else counts
  }

  /** `formatQueryResult`: the envelope for one driver result. */
  function FormatQueryResult(result: QueryResult, queryType: QueryType, elapsed: nat): Reply {
    var base := map["queryType" := Str(Tag(queryType)), "executionTime" := Str(Millis(elapsed)), "success" := Bool(true)];
    var fields :=
      if IsReadType(queryType) then base + ReadFields(result)
      else if IsWriteType(queryType) then base + WriteFields(result)
      else base;
    var response := if result.returnValue.Some? then fields["returnValue" := Num(result.returnValue.value)] else fields;
    Reply(ResultHeading, Obj(response))
  }

  /** Every envelope names the class, the elapsed time and success, and carries the
      return value exactly when the driver reported one. */
  lemma FormatCommonFields(result: QueryResult, queryType: QueryType, elapsed: nat)
    ensures var f := FormatQueryResult(result, queryType, elapsed).body.fields;
      && "queryType" in f && f["queryType"] == Str(Tag(queryType))
      && "executionTime" in f && f["executionTime"] == Str(Millis(elapsed))
      && "success" in f && f["success"] == Bool(true)
      && ("returnValue" in f <==> result.returnValue.Some?)
      && (result.returnValue.Some? ==> f["returnValue"] == Num(result.returnValue.value))
  {
  }

  /** A read envelope (`SELECT`, `WITH_SELECT`, `EXECUTE`) carries the rows, an empty
      list when there is no record set, and a count that always equals their number;
      it carries no affected-row counts. */
  lemma FormatReadFields(result: QueryResult, queryType: QueryType, elapsed: nat)
    requires IsReadType(queryType)
    ensures var f := FormatQueryResult(result, queryType, elapsed).body.fields;
      && "records" in f && f["records"] == RowsJson(result.recordset.GetOr([]))
      && "recordCount" in f && f["recordCount"] == Num(|f["records"].items|)
      && "rowsAffected" !in f && "totalRowsAffected" !in f
  {
  }

  /** A write envelope (`INSERT`, `UPDATE`, `DELETE`) carries the affected-row counts,
      `[0]` when the driver gave none, and a total that always equals their sum; it
      carries the rows only when there are some, and no record count. */
  lemma FormatWriteFields(result: QueryResult, queryType: QueryType, elapsed: nat)
    requires IsWriteType(queryType)
    ensures var f := FormatQueryResult(result, queryType, elapsed).body.fields;
      var counts := result.rowsAffected.GetOr([0]);
      && "rowsAffected" in f && f["rowsAffected"] == NumsJson(counts)
      && "totalRowsAffected" in f && f["totalRowsAffected"] == Num(Sum(counts))
      && ("records" in f <==> result.recordset.Some? && |result.recordset.value| > 0)
      && ("records" in f ==> f["records"] == RowsJson(result.recordset.value))
      && "recordCount" !in f
  {
    assert Sum([0]) == Sum([]) + 0;
  }

  /** An `UNKNOWN` class (never formatted by `executeQuery`, whose gate refuses it)
      would get the three common fields only. */
  lemma FormatUnknownFields(result: QueryResult, elapsed: nat)
    ensures FormatQueryResult(result, Unknown, elapsed).body.fields.Keys ==
      {"queryType", "executionTime", "success"} + (if result.returnValue.Some? then {"returnValue"} else {})
  {
  }

  /** A `SELECT` that returns one row is reported with that row and a count of one. */
  lemma FormatSingleRow(row: Row, elapsed: nat)
    ensures var f := FormatQueryResult(QueryResult(Some([row]), Some([1]), None), Select, elapsed).body.fields;
      f["recordCount"] == Num(1) && f["records"] == Arr([Obj(row)]) && "returnValue" !in f
  {
    var j := RowsJson([row]);
    assert j.items == [Obj(row)];
  }

  /** An `UPDATE` the driver reports no counts for is reported as `[0]` rows, none in
      total. */
  lemma FormatWriteWithoutCounts(elapsed: nat)
    ensures var f := FormatQueryResult(QueryResult(None, None, None), Update, elapsed).body.fields;
      f["rowsAffected"] == Arr([Num(0)]) && f["totalRowsAffected"] == Num(0) && "records" !in f
  {
    var j := NumsJson([0]);
    assert j.items == [Num(0)];
    assert Sum([0]) == Sum([]) + 0;
  }

  // ---------------------------------------------------------------------------
  // executeQuery

  /** `executeQuery` given whether a pool is held, the driver and the requests sent so
      far: the reply or error, and the new request history. */
  function ExecuteQuerySpec(
    hasPool: bool, respond: Responder, history: seq<Call>,
    queryText: string, parameters: Option<seq<QueryParameter>>, elapsed: nat
  ): (Result<Reply, Error>, seq<Call>)
  {
    var text := Trim(queryText);
    if text == [] then (Failure(Wrapped(QueryStage, EmptyQuery)), history)
    else
      var queryType := GetQueryType(text);
      if !IsAllowedQueryType(queryType) then
        (Failure(Wrapped(QueryStage, Disallowed(Tag(queryType)))), history)
      else
        var (answer, after) := QueryStep(hasPool, respond, history, text, parameters);
        match answer
        case Success(result) => (Success(FormatQueryResult(result, queryType, elapsed)), after)
        case Failure(e) => (Failure(Wrapped(QueryStage, e)), after)
  }

  /** The gate comes before the driver: a blank or disallowed query sends nothing, and
      an admitted one sends exactly one request, the trimmed text with its bound
      parameters. */
  lemma ExecuteQueryGate(
    hasPool: bool, respond: Responder, history: seq<Call>,
    queryText: string, parameters: Option<seq<QueryParameter>>, elapsed: nat)
    ensures var (r, after) := ExecuteQuerySpec(hasPool, respond, history, queryText, parameters, elapsed);
      && (Trim(queryText) == [] ==> r == Failure(Wrapped(QueryStage, EmptyQuery)) && after == history)
      && (Trim(queryText) != [] && GetQueryType(queryText) == Unknown ==>
            r == Failure(Wrapped(QueryStage, Disallowed("UNKNOWN"))) && after == history)
      && (Trim(queryText) != [] && GetQueryType(queryText) != Unknown && hasPool ==>
            after == history + [Call(Trim(queryText), Bindings(parameters.GetOr([])))])
      && (after != history ==> hasPool && GetQueryType(queryText) != Unknown)
  {
    TrimIgnored(queryText);
    AllowedIffKnown(GetQueryType(queryText));
  }

  /** Every failure is reported under the `查詢執行失敗` prefix; a success is the
      envelope of the driver's answer to the request that was sent. */
  lemma ExecuteQueryOutcome(
    hasPool: bool, respond: Responder, history: seq<Call>,
    queryText: string, parameters: Option<seq<QueryParameter>>, elapsed: nat)
    ensures var (r, after) := ExecuteQuerySpec(hasPool, respond, history, queryText, parameters, elapsed);
      && (r.Failure? ==>
            && r.error.Wrapped? && r.error.stage == QueryStage
            && StartsWith(Message(r.error), StagePrefix(QueryStage) + ": "))
      && (r.Success? ==>
            var call := Call(Trim(queryText), Bindings(parameters.GetOr([])));
            && after == history + [call]
            && respond(history, call).Success?
            && r.value == FormatQueryResult(respond(history, call).value, GetQueryType(queryText), elapsed))
  {
    TrimIgnored(queryText);
    var (r, after) := ExecuteQuerySpec(hasPool, respond, history, queryText, parameters, elapsed);
    if r.Failure? {
      var m := Message(r.error);
      assert m == StagePrefix(QueryStage) + ": " + Message(r.error.cause);
      assert m[..|StagePrefix(QueryStage) + ": "|] == StagePrefix(QueryStage) + ": ";
    }
  }

  // ---------------------------------------------------------------------------
  // executeTransaction

  /** One element of the `queries` argument. */
  datatype TransactionItem = TransactionItem(query: string, parameters: Option<seq<QueryParameter>>)

  /** One element of the `results` array: the text and the driver result. Its class,
      a function of the text alone, is taken by `StatementSummary`. */
  datatype ExecutedStatement = ExecutedStatement(query: string, result: QueryResult)

  const BeginSql := "BEGIN TRANSACTION"
  const CommitSql := "COMMIT TRANSACTION"
  const RollbackSql := "ROLLBACK TRANSACTION"

  function ControlCall(sql: string): Call {
    Call(sql, [])
  }

  /** The request one item becomes. */
  function StatementCall(item: TransactionItem): Call {
    Call(item.query, Bindings(item.parameters.GetOr([])))
  }

  function StatementCalls(items: seq<TransactionItem>): (calls: seq<Call>)
    ensures |calls| == |items|
    ensures forall i :: 0 <= i < |items| ==> calls[i] == StatementCall(items[i])
  {
    if items == [] then [] else [StatementCall(items[0])] + StatementCalls(items[1..])
  }

  /** The class of the first item, in order, that the gate refuses. */
  function FirstDisallowed(items: seq<TransactionItem>): (r: Option<QueryType>)
    ensures r.None? <==> forall i :: 0 <= i < |items| ==> IsAllowedQueryType(GetQueryType(items[i].query))
    ensures r.Some? ==> !IsAllowedQueryType(r.value)
  {
    if items == [] then None
    else if !IsAllowedQueryType(GetQueryType(items[0].query)) then Some(GetQueryType(items[0].query))
    else
      var rest := FirstDisallowed(items[1..]);
      assert forall i :: 1 <= i < |items| ==> items[i] == items[1..][i - 1];
      rest
  }

  /** The validation loop stops at the first refused item. */
  lemma {:induction false} FirstDisallowedAt(items: seq<TransactionItem>, k: nat)
    requires k < |items|
    requires forall i :: 0 <= i < k ==> IsAllowedQueryType(GetQueryType(items[i].query))
    requires !IsAllowedQueryType(GetQueryType(items[k].query))
    ensures FirstDisallowed(items) == Some(GetQueryType(items[k].query))
  {
    if k > 0 {
      var tail := items[1..];
      assert tail[k - 1] == items[k];
      forall i | 0 <= i < k - 1
        ensures IsAllowedQueryType(GetQueryType(tail[i].query))
      {
        assert tail[i] == items[i + 1];
      }
      FirstDisallowedAt(tail, k - 1);
    }
  }

  /** The statement loop: each item in order until the first failure, which ends it. */
  function RunStatements(hasPool: bool, respond: Responder, history: seq<Call>, items: seq<TransactionItem>)
    : (run: (Result<seq<ExecutedStatement>, Error>, seq<Call>))
    ensures run.0.Success? ==> |run.0.value| == |items|
    decreases |items|
  {
    if items == [] then (Success([]), history)
    else
      var (answer, after) := QueryStep(hasPool, respond, history, items[0].query, items[0].parameters);
      match answer
      case Failure(e) => (Failure(e), after)
      case Success(result) =>
        var executed := ExecutedStatement(items[0].query, result);
        Prepend(executed, RunStatements(hasPool, respond, after, items[1..]))
  }

  function Prepend(executed: ExecutedStatement, run: (Result<seq<ExecutedStatement>, Error>, seq<Call>))
    : (Result<seq<ExecutedStatement>, Error>, seq<Call>)
  {
    match run.0
    case Success(rest) => (Success([executed] + rest), run.1)
    case Failure(e) => run
  }

  function PrependAll(done: seq<ExecutedStatement>, run: (Result<seq<ExecutedStatement>, Error>, seq<Call>))
    : (Result<seq<ExecutedStatement>, Error>, seq<Call>)
  {
    match run.0
    case Success(rest) => (Success(done + rest), run.1)
    case Failure(e) => run
  }

  lemma StatementCallsCons(items: seq<TransactionItem>)
    requires items != []
    ensures StatementCalls(items) == [StatementCall(items[0])] + StatementCalls(items[1..])
  {
  }

  /** One turn of the statement loop, with a pool. */
  lemma RunStatementsStep(respond: Responder, history: seq<Call>, items: seq<TransactionItem>)
    requires items != []
    ensures var step := QueryStep(true, respond, history, items[0].query, items[0].parameters);
      && step.1 == history + [StatementCall(items[0])]
      && (step.0.Failure? ==> RunStatements(true, respond, history, items) == (Failure(step.0.error), step.1))
      && (step.0.Success? ==> RunStatements(true, respond, history, items) == Prepend(
            ExecutedStatement(items[0].query, step.0.value),
            RunStatements(true, respond, step.1, items[1..])))
  {
  }

  lemma AppendAssoc<T>(a: seq<T>, b: seq<T>, c: seq<T>)
    ensures (a + b) + c == a + (b + c)
  {
  }

  /** The requests of the first `i` items: the first item's, then those of the next
      `i - 1`. */
  lemma StatementCallsTail(items: seq<TransactionItem>, i: nat)
    requires 1 <= i <= |items|
    ensures StatementCalls(items[..i]) == [StatementCall(items[0])] + StatementCalls(items[1..][..i - 1])
  {
    assert items[..i][1..] == items[1..][..i - 1];
    StatementCallsCons(items[..i]);
  }

  /** The driver's answer to the `j`-th item, once `history` and the items before it
      have been sent. */
  function StatementAnswer(respond: Responder, history: seq<Call>, items: seq<TransactionItem>, j: nat)
    : Result<QueryResult, string>
    requires j < |items|
  {
    respond(history + StatementCalls(items[..j]), StatementCall(items[j]))
  }

  /** The driver answers every item before the `k`-th and refuses the `k`-th. */
  predicate FailsFirstAt(respond: Responder, history: seq<Call>, items: seq<TransactionItem>, k: nat) {
    && k < |items|
    && (forall j :: 0 <= j < k ==> StatementAnswer(respond, history, items, j).Success?)
    && StatementAnswer(respond, history, items, k).Failure?
  }

  /** The driver answers every item. */
  predicate AllAnswered(respond: Responder, history: seq<Call>, items: seq<TransactionItem>) {
    forall j :: 0 <= j < |items| ==> StatementAnswer(respond, history, items, j).Success?
  }

  lemma AnswerFirst(respond: Responder, history: seq<Call>, items: seq<TransactionItem>)
    requires items != []
    ensures StatementAnswer(respond, history, items, 0) == respond(history, StatementCall(items[0]))
  {
    assert items[..0] == [];
    assert history + StatementCalls(items[..0]) == history;
  }

  /** Seen from the second item on, the history includes the first item's request. */
  lemma AnswerShift(respond: Responder, history: seq<Call>, items: seq<TransactionItem>, i: nat)
    requires 1 <= i < |items|
    ensures StatementAnswer(respond, history, items, i)
      == StatementAnswer(respond, history + [StatementCall(items[0])], items[1..], i - 1)
  {
    StatementCallsTail(items, i);
    AppendAssoc(history, [StatementCall(items[0])], StatementCalls(items[1..][..i - 1]));
    assert items[1..][i - 1] == items[i];
  }

  /** With a pool, a statement loop that succeeds has sent every item, in order. */
  lemma {:induction false} RunStatementsSuccess(respond: Responder, history: seq<Call>, items: seq<TransactionItem>)
    requires RunStatements(true, respond, history, items).0.Success?
    ensures RunStatements(true, respond, history, items).1 == history + StatementCalls(items)
    decreases |items|
  {
    if items != [] {
      RunStatementsStep(respond, history, items);
      var step := QueryStep(true, respond, history, items[0].query, items[0].parameters);
      RunStatementsSuccess(respond, step.1, items[1..]);
      StatementCallsCons(items);
      AppendAssoc(history, [StatementCall(items[0])], StatementCalls(items[1..]));
    }
  }

  /** When the driver answers every item, the loop succeeds, has sent every item in
      order, and records each item's text with the driver's answer to it. */
  lemma {:induction false} RunStatementsAllAnswered(respond: Responder, history: seq<Call>, items: seq<TransactionItem>)
    requires AllAnswered(respond, history, items)
    ensures var run := RunStatements(true, respond, history, items);
      && run.0.Success? && run.1 == history + StatementCalls(items)
      && forall i :: 0 <= i < |items| ==>
           run.0.value[i] == ExecutedStatement(items[i].query, StatementAnswer(respond, history, items, i).value)
    decreases |items|
  {
    if items != [] {
      AnswerFirst(respond, history, items);
      RunStatementsStep(respond, history, items);
      var next := history + [StatementCall(items[0])];
      forall j | 0 <= j < |items| - 1
        ensures StatementAnswer(respond, next, items[1..], j).Success?
      {
        AnswerShift(respond, history, items, j + 1);
      }
      RunStatementsAllAnswered(respond, next, items[1..]);
      StatementCallsCons(items);
      AppendAssoc(history, [StatementCall(items[0])], StatementCalls(items[1..]));
      var done := RunStatements(true, respond, history, items).0.value;
      var rest := RunStatements(true, respond, next, items[1..]).0.value;
      assert done == [ExecutedStatement(items[0].query, StatementAnswer(respond, history, items, 0).value)] + rest;
      forall i | 1 <= i < |items|
        ensures done[i] == ExecutedStatement(items[i].query, StatementAnswer(respond, history, items, i).value)
      {
        AnswerShift(respond, history, items, i);
        assert done[i] == rest[i - 1] && items[1..][i - 1] == items[i];
      }
    }
  }

  /** A statement loop that succeeds had every item answered by the driver, and records
      each item's text with the driver's answer to it, in order (the `results` array). */
  lemma {:induction false} RunStatementsRecords(hasPool: bool, respond: Responder, history: seq<Call>, items: seq<TransactionItem>)
    requires RunStatements(hasPool, respond, history, items).0.Success?
    ensures AllAnswered(respond, history, items)
    ensures var done := RunStatements(hasPool, respond, history, items).0.value;
      forall i :: 0 <= i < |items| ==>
        done[i] == ExecutedStatement(items[i].query, StatementAnswer(respond, history, items, i).value)
    decreases |items|
  {
    if items != [] {
      var step := QueryStep(hasPool, respond, history, items[0].query, items[0].parameters);
      assert step.0.Success? && hasPool;
      var next := history + [StatementCall(items[0])];
      RunStatementsStep(respond, history, items);
      RunStatementsRecords(true, respond, next, items[1..]);
      AnswerFirst(respond, history, items);
      forall j | 1 <= j < |items|
        ensures StatementAnswer(respond, history, items, j).Success?
      {
        AnswerShift(respond, history, items, j);
      }
      RunStatementsAllAnswered(respond, history, items);
    }
  }

  /** The statement loop stops at the first item the driver refuses: the items up to
      and including it have been sent, nothing after, and that answer's message is the
      error. */
  lemma {:induction false} RunStatementsFirstFailure(
    respond: Responder, history: seq<Call>, items: seq<TransactionItem>, k: nat)
    requires FailsFirstAt(respond, history, items, k)
    ensures RunStatements(true, respond, history, items)
      == (Failure(Driver(StatementAnswer(respond, history, items, k).error)), history + StatementCalls(items[..k + 1]))
    decreases k
  {
    AnswerFirst(respond, history, items);
    RunStatementsStep(respond, history, items);
    StatementCallsTail(items, k + 1);
    var next := history + [StatementCall(items[0])];
    if k == 0 {
      assert items[1..][..0] == [];
      assert StatementCalls(items[..1]) == [StatementCall(items[0])];
      assert QueryStep(true, respond, history, items[0].query, items[0].parameters).0
        == Failure(Driver(StatementAnswer(respond, history, items, 0).error));
    } else {
      assert StatementAnswer(respond, history, items, 0).Success?;
      forall j | 0 <= j < k - 1
        ensures StatementAnswer(respond, next, items[1..], j).Success?
      {
        AnswerShift(respond, history, items, j + 1);
      }
      AnswerShift(respond, history, items, k);
      RunStatementsFirstFailure(respond, next, items[1..], k - 1);
      AppendAssoc(history, [StatementCall(items[0])], StatementCalls(items[1..][..k]));
    }
  }

  /** A statement loop that fails met an item the driver refused after answering all
      the earlier ones. */
  lemma {:induction false} RunStatementsFailurePoint(respond: Responder, history: seq<Call>, items: seq<TransactionItem>)
    returns (k: nat)
    requires RunStatements(true, respond, history, items).0.Failure?
    ensures FailsFirstAt(respond, history, items, k)
    decreases |items|
  {
    AnswerFirst(respond, history, items);
    RunStatementsStep(respond, history, items);
    if StatementAnswer(respond, history, items, 0).Failure? {
      k := 0;
    } else {
      var next := history + [StatementCall(items[0])];
      var j := RunStatementsFailurePoint(respond, next, items[1..]);
      k := j + 1;
      forall i | 1 <= i <= k
        ensures StatementAnswer(respond, history, items, i) == StatementAnswer(respond, next, items[1..], i - 1)
      {
        AnswerShift(respond, history, items, i);
      }
    }
  }

  /** With a pool, a statement loop that fails stopped at the first item the driver
      refused: the items up to and including it were sent, nothing after, and the
      error is that answer's message. */
  lemma RunStatementsFailure(respond: Responder, history: seq<Call>, items: seq<TransactionItem>)
    requires RunStatements(true, respond, history, items).0.Failure?
    ensures exists k ::
      && FailsFirstAt(respond, history, items, k)
      && RunStatements(true, respond, history, items)
         == (Failure(Driver(StatementAnswer(respond, history, items, k).error)), history + StatementCalls(items[..k + 1]))
  {
    var k := RunStatementsFailurePoint(respond, history, items);
    RunStatementsFirstFailure(respond, history, items, k);
  }

  /** Without a pool the first request fails and nothing is sent. */
  lemma RunStatementsNoPool(respond: Responder, history: seq<Call>, items: seq<TransactionItem>)
    requires items != []
    ensures RunStatements(false, respond, history, items) == (Failure(NotConnected), history)
  {
  }

  const TransactionHeading := "交易執行成功：\n"

  function StatementSummary(e: ExecutedStatement): Json {
    Obj(map[
      "queryType" := Str(Tag(GetQueryType(e.query))),
      "rowsAffected" := NumsJson(e.result.rowsAffected.GetOr([0])),
      "recordCount" := Num(RecordCount(e.result))])
  }

  /** The reply of a committed transaction. */
  function TransactionSummary(queryCount: nat, executed: seq<ExecutedStatement>, elapsed: nat): Reply {
    Reply(TransactionHeading, Obj(map[
      "success" := Bool(true),
      "executionTime" := Str(Millis(elapsed)),
      "queryCount" := Num(queryCount),
      "results" := Arr(seq(|executed|, i requires 0 <= i < |executed| => StatementSummary(executed[i])))]))
  }

  /** After a failure inside the transaction: `ROLLBACK`, then the error re-thrown, or
      the rollback's own error when the rollback fails too. */
  function RollBack(hasPool: bool, respond: Responder, history: seq<Call>, cause: Error)
    : (Result<Reply, Error>, seq<Call>)
  {
    var (answer, after) := QueryStep(hasPool, respond, history, RollbackSql, None);
    var error := if answer.Failure? then answer.error else cause;
    (Failure(Wrapped(TransactionStage, error)), after)
  }

  /** `executeTransaction` given whether a pool is held, the driver and the requests
      sent so far. */
  function TransactionSpec(
    hasPool: bool, respond: Responder, history: seq<Call>,
    items: seq<TransactionItem>, elapsed: nat
  ): (Result<Reply, Error>, seq<Call>)
  {
    if items == [] then (Failure(Wrapped(TransactionStage, EmptyTransaction)), history)
    else if FirstDisallowed(items).Some? then
      (Failure(Wrapped(TransactionStage, DisallowedInTransaction(Tag(FirstDisallowed(items).value)))), history)
    else
      var (begin, afterBegin) := QueryStep(hasPool, respond, history, BeginSql, None);
      if begin.Failure? then (Failure(Wrapped(TransactionStage, begin.error)), afterBegin)
      else
        var (run, afterRun) := RunStatements(hasPool, respond, afterBegin, items);
        if run.Failure? then RollBack(hasPool, respond, afterRun, run.error)
        else
          var (commit, afterCommit) := QueryStep(hasPool, respond, afterRun, CommitSql, None);
          if commit.Failure? then RollBack(hasPool, respond, afterCommit, commit.error)
          else (Success(TransactionSummary(|items|, run.value, elapsed)), afterCommit)
  }

  /** The requests of a transaction that was rolled back: `BEGIN`, the statements up to
      the failing one, `ROLLBACK`; or all statements, a failed `COMMIT`, `ROLLBACK`. */
  /** The control requests carry no parameters. */
  lemma ControlStep(hasPool: bool, respond: Responder, history: seq<Call>, sql: string)
    ensures hasPool ==> QueryStep(hasPool, respond, history, sql, None).1 == history + [ControlCall(sql)]
    ensures !hasPool ==> QueryStep(hasPool, respond, history, sql, None) == (Failure(NotConnected), history)
  {
    assert Bindings([]) == [];
  }

  /** Nothing is sent unless every item passes the gate and a pool is held; without
      a pool a valid transaction fails on `BEGIN` with the not-connected error. */
  lemma TransactionGate(
    hasPool: bool, respond: Responder, history: seq<Call>, items: seq<TransactionItem>, elapsed: nat)
    ensures var (r, trace) := TransactionSpec(hasPool, respond, history, items, elapsed);
      && (items == [] ==> r == Failure(Wrapped(TransactionStage, EmptyTransaction)) && trace == history)
      && (trace != history ==>
            && hasPool && items != []
            && forall i :: 0 <= i < |items| ==> GetQueryType(items[i].query) != Unknown)
      && (!hasPool && items != [] && FirstDisallowed(items).None? ==>
            r == Failure(Wrapped(TransactionStage, NotConnected)) && trace == history)
  {
    if items != [] && FirstDisallowed(items).None? {
      forall i | 0 <= i < |items| ensures GetQueryType(items[i].query) != Unknown {
        AllowedIffKnown(GetQueryType(items[i].query));
      }
    }
    ControlStep(hasPool, respond, history, BeginSql);
  }

  /** A committed transaction held a pool and sent `BEGIN`, every statement in order
      and `COMMIT`. */
  lemma TransactionCommittedTrace(
    hasPool: bool, respond: Responder, history: seq<Call>, items: seq<TransactionItem>, elapsed: nat)
    requires TransactionSpec(hasPool, respond, history, items, elapsed).0.Success?
    ensures hasPool
    ensures TransactionSpec(hasPool, respond, history, items, elapsed).1
      == history + [ControlCall(BeginSql)] + StatementCalls(items) + [ControlCall(CommitSql)]
  {
    ControlStep(hasPool, respond, history, BeginSql);
    var begun := history + [ControlCall(BeginSql)];
    var run := RunStatements(true, respond, begun, items);
    RunStatementsSuccess(respond, begun, items);
    ControlStep(true, respond, run.1, CommitSql);
  }

  /** A committed transaction reports one summary per statement, from the statement
      loop run right after `BEGIN`. */
  lemma TransactionCommittedSummary(
    hasPool: bool, respond: Responder, history: seq<Call>, items: seq<TransactionItem>, elapsed: nat)
    requires TransactionSpec(hasPool, respond, history, items, elapsed).0.Success?
    ensures RunStatements(true, respond, history + [ControlCall(BeginSql)], items).0.Success?
    ensures TransactionSpec(hasPool, respond, history, items, elapsed).0.value
      == TransactionSummary(|items|, RunStatements(true, respond, history + [ControlCall(BeginSql)], items).0.value, elapsed)
  {
    ControlStep(hasPool, respond, history, BeginSql);
  }

  /** Each entry of a committed transaction's `results` names the class of the item
      at the same position. */
  lemma TransactionReportsClasses(
    hasPool: bool, respond: Responder, history: seq<Call>, items: seq<TransactionItem>, elapsed: nat)
    requires TransactionSpec(hasPool, respond, history, items, elapsed).0.Success?
    ensures var body := TransactionSpec(hasPool, respond, history, items, elapsed).0.value.body;
      && |body.fields["results"].items| == |items|
      && forall i :: 0 <= i < |items| ==>
        && body.fields["results"].items[i].Obj?
        && body.fields["results"].items[i].fields["queryType"] == Str(Tag(GetQueryType(items[i].query)))
  {
    TransactionCommittedSummary(hasPool, respond, history, items, elapsed);
    var begun := history + [ControlCall(BeginSql)];
    var done := RunStatements(true, respond, begun, items).0.value;
    RunStatementsRecords(true, respond, begun, items);
    var results := TransactionSummary(|items|, done, elapsed).body.fields["results"];
    assert forall i :: 0 <= i < |items| ==> results.items[i] == StatementSummary(done[i]);
  }

  /** The error a failure inside the transaction ends with once `ROLLBACK` has been
      sent after `trace`: the rollback's own message when the driver refuses it, the
      cause otherwise. */
  function RollbackError(respond: Responder, trace: seq<Call>, cause: Error): Error {
    var answer := respond(trace, ControlCall(RollbackSql));
    if answer.Failure? then Driver(answer.error) else cause
  }

  /** A refused `BEGIN` is not rolled back: the transaction fails with its message and
      nothing else is sent. */
  lemma TransactionBeginFails(
    hasPool: bool, respond: Responder, history: seq<Call>, items: seq<TransactionItem>, elapsed: nat)
    requires hasPool && items != [] && FirstDisallowed(items).None?
    requires respond(history, ControlCall(BeginSql)).Failure?
    ensures TransactionSpec(hasPool, respond, history, items, elapsed)
      == (Failure(Wrapped(TransactionStage, Driver(respond(history, ControlCall(BeginSql)).error))),
          history + [ControlCall(BeginSql)])
  {
    assert Bindings([]) == [];
  }

  /** A statement the driver refuses after answering every earlier one: the statements
      up to and including it follow `BEGIN`, then `ROLLBACK`; `COMMIT` is never sent. */
  lemma TransactionStatementFails(
    hasPool: bool, respond: Responder, history: seq<Call>, items: seq<TransactionItem>, elapsed: nat, k: nat)
    requires hasPool && FirstDisallowed(items).None?
    requires respond(history, ControlCall(BeginSql)).Success?
    requires FailsFirstAt(respond, history + [ControlCall(BeginSql)], items, k)
    ensures var begun := history + [ControlCall(BeginSql)];
      var sent := begun + StatementCalls(items[..k + 1]);
      var cause := Driver(StatementAnswer(respond, begun, items, k).error);
      TransactionSpec(hasPool, respond, history, items, elapsed)
        == (Failure(Wrapped(TransactionStage, RollbackError(respond, sent, cause))), sent + [ControlCall(RollbackSql)])
  {
    assert Bindings([]) == [];
    var begun := history + [ControlCall(BeginSql)];
    RunStatementsFirstFailure(respond, begun, items, k);
  }

  /** Every statement answered and `COMMIT` refused: `ROLLBACK` follows the `COMMIT`. */
  lemma TransactionCommitFails(
    hasPool: bool, respond: Responder, history: seq<Call>, items: seq<TransactionItem>, elapsed: nat)
    requires hasPool && items != [] && FirstDisallowed(items).None?
    requires respond(history, ControlCall(BeginSql)).Success?
    requires AllAnswered(respond, history + [ControlCall(BeginSql)], items)
    requires respond(history + [ControlCall(BeginSql)] + StatementCalls(items), ControlCall(CommitSql)).Failure?
    ensures var run := history + [ControlCall(BeginSql)] + StatementCalls(items);
      var sent := run + [ControlCall(CommitSql)];
      var cause := Driver(respond(run, ControlCall(CommitSql)).error);
      TransactionSpec(hasPool, respond, history, items, elapsed)
        == (Failure(Wrapped(TransactionStage, RollbackError(respond, sent, cause))), sent + [ControlCall(RollbackSql)])
  {
    assert Bindings([]) == [];
    RunStatementsAllAnswered(respond, history + [ControlCall(BeginSql)], items);
  }

  /** Every statement and `COMMIT` answered: the transaction commits after sending
      `BEGIN`, the statements in order and `COMMIT`, and its `results` report, for each
      statement, the driver's answer to it. */
  lemma {:induction false} TransactionCommits(
    hasPool: bool, respond: Responder, history: seq<Call>, items: seq<TransactionItem>, elapsed: nat)
    requires hasPool && items != [] && FirstDisallowed(items).None?
    requires respond(history, ControlCall(BeginSql)).Success?
    requires AllAnswered(respond, history + [ControlCall(BeginSql)], items)
    requires respond(history + [ControlCall(BeginSql)] + StatementCalls(items), ControlCall(CommitSql)).Success?
    ensures var run := TransactionSpec(hasPool, respond, history, items, elapsed);
      var begun := history + [ControlCall(BeginSql)];
      && run.0.Success?
      && run.1 == begun + StatementCalls(items) + [ControlCall(CommitSql)]
      && run.0.value.body.Obj?
      && "queryCount" in run.0.value.body.fields && run.0.value.body.fields["queryCount"] == Num(|items|)
      && "results" in run.0.value.body.fields && run.0.value.body.fields["results"].Arr?
      && |run.0.value.body.fields["results"].items| == |items|
      && forall i :: 0 <= i < |items| ==>
           run.0.value.body.fields["results"].items[i]
             == StatementSummary(ExecutedStatement(items[i].query, StatementAnswer(respond, begun, items, i).value))
  {
    assert Bindings([]) == [];
    var begun := history + [ControlCall(BeginSql)];
    RunStatementsAllAnswered(respond, begun, items);
    TransactionCommittedTrace(hasPool, respond, history, items, elapsed);
    TransactionCommittedSummary(hasPool, respond, history, items, elapsed);
    var done := RunStatements(true, respond, begun, items).0.value;
    var results := TransactionSummary(|items|, done, elapsed).body.fields["results"];
    forall i | 0 <= i < |items|
      ensures results.items[i] == StatementSummary(done[i])
    {
    }
  }

  /** The driver refused `BEGIN`, and nothing followed it. */
  predicate BeginRefused(respond: Responder, history: seq<Call>, trace: seq<Call>) {
    && respond(history, ControlCall(BeginSql)).Failure?
    && trace == history + [ControlCall(BeginSql)]
  }

  /** `BEGIN` was answered, the driver refused a statement after answering every
      earlier one, and `ROLLBACK` followed the statement it refused. */
  predicate StatementRefused(respond: Responder, history: seq<Call>, items: seq<TransactionItem>, trace: seq<Call>) {
    var begun := history + [ControlCall(BeginSql)];
    && respond(history, ControlCall(BeginSql)).Success?
    && exists k :: 0 <= k < |items|
         && FailsFirstAt(respond, begun, items, k)
         && trace == begun + StatementCalls(items[..k + 1]) + [ControlCall(RollbackSql)]
  }

  /** `BEGIN` and every statement were answered, the driver refused `COMMIT`, and
      `ROLLBACK` followed it. */
  predicate CommitRefused(respond: Responder, history: seq<Call>, items: seq<TransactionItem>, trace: seq<Call>) {
    var begun := history + [ControlCall(BeginSql)];
    && respond(history, ControlCall(BeginSql)).Success?
    && AllAnswered(respond, begun, items)
    && respond(begun + StatementCalls(items), ControlCall(CommitSql)).Failure?
    && trace == begun + StatementCalls(items) + [ControlCall(CommitSql), ControlCall(RollbackSql)]
  }

  /** Every failure carries the `交易執行失敗` stage, and either nothing was sent or
      the gate passed, a pool was held and the trace has one of the three shapes
      above. */
  lemma TransactionFailed(
    hasPool: bool, respond: Responder, history: seq<Call>, items: seq<TransactionItem>, elapsed: nat)
    requires TransactionSpec(hasPool, respond, history, items, elapsed).0.Failure?
    ensures var run := TransactionSpec(hasPool, respond, history, items, elapsed);
      && run.0.error.Wrapped? && run.0.error.stage == TransactionStage
      && (|| run.1 == history
          || (&& hasPool && items != [] && FirstDisallowed(items).None?
              && (|| BeginRefused(respond, history, run.1)
                  || StatementRefused(respond, history, items, run.1)
                  || CommitRefused(respond, history, items, run.1))))
  {
    ControlStep(hasPool, respond, history, BeginSql);
    if hasPool && items != [] && FirstDisallowed(items).None? {
      var begun := history + [ControlCall(BeginSql)];
      var run := TransactionSpec(hasPool, respond, history, items, elapsed);
      if respond(history, ControlCall(BeginSql)).Failure? {
        TransactionBeginFails(hasPool, respond, history, items, elapsed);
        assert BeginRefused(respond, history, run.1);
      } else if RunStatements(true, respond, begun, items).0.Failure? {
        var k := RunStatementsFailurePoint(respond, begun, items);
        TransactionStatementFails(hasPool, respond, history, items, elapsed, k);
        assert StatementRefused(respond, history, items, run.1);
      } else {
        RunStatementsRecords(true, respond, begun, items);
        RunStatementsAllAnswered(respond, begun, items);
        assert respond(begun + StatementCalls(items), ControlCall(CommitSql)).Failure?;
        TransactionCommitFails(hasPool, respond, history, items, elapsed);
        assert begun + StatementCalls(items) + [ControlCall(CommitSql)] + [ControlCall(RollbackSql)]
          == begun + StatementCalls(items) + [ControlCall(CommitSql), ControlCall(RollbackSql)];
        assert CommitRefused(respond, history, items, run.1);
      }
    }
  }

  // ---------------------------------------------------------------------------
  // explainQuery and getQueryStatistics: no gate, the text is wrapped as given

  const ExplainPrefix := "SET SHOWPLAN_ALL ON; "
  const ExplainSuffix := "; SET SHOWPLAN_ALL OFF;"
  const ExplainHeading := "查詢執行計畫：\n"

  /** The batch `explainQuery` sends: the plan switch around the caller's text. */
  function ExplainText(queryText: string): string {
    ExplainPrefix + queryText + ExplainSuffix
  }

  /** `result.recordset` as a reply body; absent when the driver gave none. */
  function RecordsetJson(result: QueryResult): Json {
    match result.recordset
    case Some(rows) => RowsJson(rows)
    case None => Undefined
  }

  /** `explainQuery` given whether a pool is held, the driver and the requests sent so far. */
  function ExplainSpec(
    hasPool: bool, respond: Responder, history: seq<Call>,
    queryText: string, parameters: Option<seq<QueryParameter>>
  ): (Result<Reply, Error>, seq<Call>)
  {
    var (answer, after) := QueryStep(hasPool, respond, history, ExplainText(queryText), parameters);
    match answer
    case Success(result) => (Success(Reply(ExplainHeading, RecordsetJson(result))), after)
    case Failure(e) => (Failure(Wrapped(ExplainStage, e)), after)
  }

  const StatisticsPrefix := "\n        SET STATISTICS IO ON;\n        SET STATISTICS TIME ON;\n        "
  const StatisticsSuffix := ";\n        SET STATISTICS IO OFF;\n        SET STATISTICS TIME OFF;\n      "
  const StatisticsHeading := "查詢統計資訊：\n"
  const StatisticsNote := "詳細的 IO 和時間統計會顯示在 SQL Server 的訊息輸出中"

  /** The batch `getQueryStatistics` sends: the IO and TIME switches around the text. */
  function StatisticsText(queryText: string): string {
    StatisticsPrefix + queryText + StatisticsSuffix
  }

  /** The statistics body: the record count, the records and the fixed note. */
  function StatisticsBody(result: QueryResult): Json {
    Obj(ReadFields(result)["note" := Str(StatisticsNote)])
  }

  /** `getQueryStatistics` given whether a pool is held, the driver and the requests
      sent so far. */
  function StatisticsSpec(
    hasPool: bool, respond: Responder, history: seq<Call>,
    queryText: string, parameters: Option<seq<QueryParameter>>
  ): (Result<Reply, Error>, seq<Call>)
  {
    var (answer, after) := QueryStep(hasPool, respond, history, StatisticsText(queryText), parameters);
    match answer
    case Success(result) => (Success(Reply(StatisticsHeading, StatisticsBody(result))), after)
    case Failure(e) => (Failure(Wrapped(StatisticsStage, e)), after)
  }

  /** The caller's text sits unchanged between the fixed prefix and suffix, so it can
      be read back and two different texts never give the same batch. */
  lemma WrappedTextRecoverable(prefix: string, suffix: string, q: string)
    ensures var w := prefix + q + suffix;
      && StartsWith(w, prefix) && EndsWith(w, suffix)
      && w[|prefix|..|w| - |suffix|] == q
  {
    var w := prefix + q + suffix;
    assert w[..|prefix|] == prefix;
    assert w[|w| - |suffix|..] == suffix;
    assert w[|prefix|..|w| - |suffix|] == q;
  }

  lemma ExplainTextInjective(q1: string, q2: string)
    requires ExplainText(q1) == ExplainText(q2)
    ensures q1 == q2
  {
    WrappedTextRecoverable(ExplainPrefix, ExplainSuffix, q1);
    WrappedTextRecoverable(ExplainPrefix, ExplainSuffix, q2);
  }

  lemma StatisticsTextInjective(q1: string, q2: string)
    requires StatisticsText(q1) == StatisticsText(q2)
    ensures q1 == q2
  {
    WrappedTextRecoverable(StatisticsPrefix, StatisticsSuffix, q1);
    WrappedTextRecoverable(StatisticsPrefix, StatisticsSuffix, q2);
  }

  /** Neither the plan nor the statistics request consults the gate: with a pool, any
      text, even one `executeQuery` refuses, is sent wrapped; failures carry the
      method's own prefix. */
  lemma ExplainBypassesGate(
    respond: Responder, history: seq<Call>, queryText: string, parameters: Option<seq<QueryParameter>>)
    ensures ExplainSpec(true, respond, history, queryText, parameters).1
      == history + [Call(ExplainText(queryText), Bindings(parameters.GetOr([])))]
    ensures StatisticsSpec(true, respond, history, queryText, parameters).1
      == history + [Call(StatisticsText(queryText), Bindings(parameters.GetOr([])))]
  {
  }

  lemma ExplainOutcome(
    hasPool: bool, respond: Responder, history: seq<Call>,
    queryText: string, parameters: Option<seq<QueryParameter>>)
    ensures var r := ExplainSpec(hasPool, respond, history, queryText, parameters).0;
      && (r.Failure? ==> StartsWith(Message(r.error), StagePrefix(ExplainStage) + ": "))
      && (r.Success? ==> r.value.heading == ExplainHeading)
    ensures var r := StatisticsSpec(hasPool, respond, history, queryText, parameters).0;
      && (r.Failure? ==> StartsWith(Message(r.error), StagePrefix(StatisticsStage) + ": "))
      && (r.Success? ==> r.value.heading == StatisticsHeading)
    ensures !hasPool ==>
      && ExplainSpec(hasPool, respond, history, queryText, parameters)
         == (Failure(Wrapped(ExplainStage, NotConnected)), history)
      && StatisticsSpec(hasPool, respond, history, queryText, parameters)
         == (Failure(Wrapped(StatisticsStage, NotConnected)), history)
  {
    var plan := QueryStep(hasPool, respond, history, ExplainText(queryText), parameters).0;
    if plan.Failure? {
      WrappedMessage(ExplainStage, plan.error);
    }
    var stats := QueryStep(hasPool, respond, history, StatisticsText(queryText), parameters).0;
    if stats.Failure? {
      WrappedMessage(StatisticsStage, stats.error);
    }
  }

  /** With a pool, the plan request succeeds exactly when the driver answers the
      wrapped text; the reply then holds the answer's recordset as sent, absent when
      the driver gave none, and a refusal carries the driver's message. */
  lemma ExplainAnswered(
    respond: Responder, history: seq<Call>, queryText: string, parameters: Option<seq<QueryParameter>>)
    ensures var answer := respond(history, Call(ExplainText(queryText), Bindings(parameters.GetOr([]))));
      var r := ExplainSpec(true, respond, history, queryText, parameters).0;
      && r.Success? == answer.Success?
      && (answer.Failure? ==> r.error == Wrapped(ExplainStage, Driver(answer.error)))
      && (answer.Success? && answer.value.recordset.Some? ==>
            r.value.body == RowsJson(answer.value.recordset.value))
      && (answer.Success? && answer.value.recordset.None? ==> r.value.body == Undefined)
  {
  }

  /** With a pool, the statistics request succeeds exactly when the driver answers the
      wrapped text; the reply then lists the answer's rows, empty when it gave none,
      with `recordCount` equal to the number listed, and the fixed note. */
  lemma StatisticsAnswered(
    respond: Responder, history: seq<Call>, queryText: string, parameters: Option<seq<QueryParameter>>)
    ensures var answer := respond(history, Call(StatisticsText(queryText), Bindings(parameters.GetOr([]))));
      var r := StatisticsSpec(true, respond, history, queryText, parameters).0;
      && r.Success? == answer.Success?
      && (answer.Failure? ==> r.error == Wrapped(StatisticsStage, Driver(answer.error)))
      && (answer.Success? ==>
            && r.value.body.Obj?
            && r.value.body.fields.Keys == {"recordCount", "records", "note"}
            && r.value.body.fields["records"] == RowsJson(answer.value.recordset.GetOr([]))
            && r.value.body.fields["recordCount"] == Num(|answer.value.recordset.GetOr([])|)
            && r.value.body.fields["note"] == Str(StatisticsNote))
  {
  }

  /** A wrapped failure's message starts with its stage prefix. */
  lemma WrappedMessage(stage: Stage, cause: Error)
    ensures StartsWith(Message(Wrapped(stage, cause)), StagePrefix(stage) + ": ")
  {
    var m := Message(Wrapped(stage, cause));
    assert m[..|StagePrefix(stage) + ": "|] == StagePrefix(stage) + ": ";
  }

  // ---------------------------------------------------------------------------
  // The service object

  /** Results already recorded, then one more statement's outcome. */
  lemma PrependAllStep(done: seq<ExecutedStatement>, executed: ExecutedStatement,
                       run: (Result<seq<ExecutedStatement>, Error>, seq<Call>))
    ensures PrependAll(done, Prepend(executed, run)) == PrependAll(done + [executed], run)
  {
    if run.0.Success? {
      AppendAssoc(done, [executed], run.0.value);
    }
  }

  /** One turn of the statement loop seen from the whole run: `done` recorded so far,
      item `i` next. */
  lemma RunStatementsLoopStep(
    respond: Responder, history: seq<Call>, items: seq<TransactionItem>, done: seq<ExecutedStatement>, i: nat)
    requires i < |items|
    ensures var step := QueryStep(true, respond, history, items[i].query, items[i].parameters);
      var whole := PrependAll(done, RunStatements(true, respond, history, items[i..]));
      && (step.0.Failure? ==> whole == (Failure(step.0.error), step.1))
      && (step.0.Success? ==> whole == PrependAll(
            done + [ExecutedStatement(items[i].query, step.0.value)],
            RunStatements(true, respond, step.1, items[i + 1..])))
  {
    RunStatementsStep(respond, history, items[i..]);
    assert items[i..][1..] == items[i + 1..];
    var step := QueryStep(true, respond, history, items[i].query, items[i].parameters);
    if step.0.Success? {
      PrependAllStep(done, ExecutedStatement(items[i].query, step.0.value),
        RunStatements(true, respond, step.1, items[i + 1..]));
    }
  }

  class QueryService {
    const db: Manager

    constructor (db: Manager)
      ensures this.db == db
    {
      this.db := db;
    }

    /** `executeQuery`: trim, refuse blank and disallowed text, send, wrap the result. */
    method ExecuteQuery(queryText: string, parameters: Option<seq<QueryParameter>>, elapsed: nat)
      returns (r: Result<Reply, Error>)
      modifies db`calls
      ensures (r, db.calls) == ExecuteQuerySpec(db.pool.Some?, db.respond, old(db.calls), queryText, parameters, elapsed)
    {
      var text := Trim(queryText);
      if text == [] {
        return Failure(Wrapped(QueryStage, EmptyQuery));
      }
      var queryType := GetQueryType(text);
      if !IsAllowedQueryType(queryType) {
        return Failure(Wrapped(QueryStage, Disallowed(Tag(queryType))));
      }
      var answer := db.Query(text, parameters);
      match answer
      case Success(result) => r := Success(FormatQueryResult(result, queryType, elapsed));
      case Failure(e) => r := Failure(Wrapped(QueryStage, e));
    }

    /** The `catch` around the statements and `COMMIT`: send `ROLLBACK`, then re-throw. */
    method RollBackAfter(cause: Error) returns (r: Result<Reply, Error>)
      modifies db`calls
      ensures (r, db.calls) == RollBack(db.pool.Some?, db.respond, old(db.calls), cause)
    {
      var answer := db.Query(RollbackSql, None);
      if answer.Failure? {
        return Failure(Wrapped(TransactionStage, answer.error));
      }
      return Failure(Wrapped(TransactionStage, cause));
    }

    /** The validation loop of `executeTransaction`: the position of the first item the
        gate refuses, if any. */
    method FindDisallowed(queries: seq<TransactionItem>) returns (refused: Option<nat>)
      ensures refused.None? ==> forall i :: 0 <= i < |queries| ==> IsAllowedQueryType(GetQueryType(queries[i].query))
      ensures refused.Some? ==>
        && refused.value < |queries|
        && !IsAllowedQueryType(GetQueryType(queries[refused.value].query))
        && forall i :: 0 <= i < refused.value ==> IsAllowedQueryType(GetQueryType(queries[i].query))
    {
      for k := 0 to |queries|
        invariant forall i :: 0 <= i < k ==> IsAllowedQueryType(GetQueryType(queries[i].query))
      {
        var queryType := GetQueryType(queries[k].query);
        if !IsAllowedQueryType(queryType) {
          return Some(k);
        }
      }
      return None;
    }

    /** The statement loop of `executeTransaction`: each item in order, recording its
        text, result and class, until the first failure. */
    method RunQueries(queries: seq<TransactionItem>) returns (run: Result<seq<ExecutedStatement>, Error>)
      requires db.pool.Some?
      modifies db`calls
      ensures (run, db.calls) == RunStatements(true, db.respond, old(db.calls), queries)
    {
      ghost var whole := RunStatements(true, db.respond, db.calls, queries);
      assert queries[0..] == queries;
      assert whole.0.Success? ==> [] + whole.0.value == whole.0.value;
      var results: seq<ExecutedStatement> := [];
      var failure: Option<Error> := None;
      var i := 0;
      while i < |queries| && failure.None?
        invariant 0 <= i <= |queries|
        invariant failure.None? ==> whole == PrependAll(results, RunStatements(true, db.respond, db.calls, queries[i..]))
        invariant failure.Some? ==> whole == (Failure(failure.value), db.calls)
        decreases |queries| - i
      {
        RunStatementsLoopStep(db.respond, db.calls, queries, results, i);
        var answer := db.Query(queries[i].query, queries[i].parameters);
        if answer.Failure? {
          failure := Some(answer.error);
        } else {
          results := results + [ExecutedStatement(queries[i].query, answer.value)];
        }
        i := i + 1;
      }
      if failure.Some? {
        return Failure(failure.value);
      }
      assert queries[i..] == [];
      assert results + [] == results;
      return Success(results);
    }

    /** `executeTransaction`: check every item, then `BEGIN`, the statements in order,
        `COMMIT`; roll back on the first failure after `BEGIN`. */
    method ExecuteTransaction(queries: seq<TransactionItem>, elapsed: nat) returns (r: Result<Reply, Error>)
      modifies db`calls
      ensures (r, db.calls) == TransactionSpec(db.pool.Some?, db.respond, old(db.calls), queries, elapsed)
    {
      if queries == [] {
        return Failure(Wrapped(TransactionStage, EmptyTransaction));
      }
      var refused := FindDisallowed(queries);
      if refused.Some? {
        var queryType := GetQueryType(queries[refused.value].query);
        FirstDisallowedAt(queries, refused.value);
        return Failure(Wrapped(TransactionStage, DisallowedInTransaction(Tag(queryType))));
      }
      assert FirstDisallowed(queries).None?;
      var begin := db.Query(BeginSql, None);
      if begin.Failure? {
        return Failure(Wrapped(TransactionStage, begin.error));
      }
      var run := RunQueries(queries);
      if run.Failure? {
        r := RollBackAfter(run.error);
        return;
      }
      var commit := db.Query(CommitSql, None);
      if commit.Failure? {
        r := RollBackAfter(commit.error);
        return;
      }
      return Success(TransactionSummary(|queries|, run.value, elapsed));
    }

    /** `explainQuery`: the text, unchecked, between the plan switches. */
    method ExplainQuery(queryText: string, parameters: Option<seq<QueryParameter>>) returns (r: Result<Reply, Error>)
      modifies db`calls
      ensures (r, db.calls) == ExplainSpec(db.pool.Some?, db.respond, old(db.calls), queryText, parameters)
    {
      var answer := db.Query(ExplainText(queryText), parameters);
      match answer
      case Success(result) => r := Success(Reply(ExplainHeading, RecordsetJson(result)));
      case Failure(e) => r := Failure(Wrapped(ExplainStage, e));
    }

    /** `getQueryStatistics`: the text, unchecked, between the statistics switches. */
    method GetQueryStatistics(queryText: string, parameters: Option<seq<QueryParameter>>)
      returns (r: Result<Reply, Error>)
      modifies db`calls
      ensures (r, db.calls) == StatisticsSpec(db.pool.Some?, db.respond, old(db.calls), queryText, parameters)
    {
      var answer := db.Query(StatisticsText(queryText), parameters);
      match answer
      case Success(result) => r := Success(Reply(StatisticsHeading, StatisticsBody(result)));
      case Failure(e) => r := Failure(Wrapped(StatisticsStage, e));
    }
  }
}
