/** `StoredProcedureService`: catalog lookups for procedures, the `EXEC` text built
    from the caller's parameters, the execution record, the search request and the
    best-effort dependency report. Every request goes through the manager's `Query`. */
module StoredProcedures {
  import opened Wrappers
  import opened Strings
  import opened JsValues
  import opened Errors
  import opened DbTypes
  import opened MssqlManager
  import opened Queries

  // ---------------------------------------------------------------------------
  // Shared pieces

  /** The default schema the operations take when the caller gives none. */
  const DefaultSchema := "dbo"

  function SchemaOrDefault(schema: Option<string>): string {
    schema.GetOr(DefaultSchema)
  }

  /** `{ name, value, type: 'varchar' }`. */
  function Varchar(name: string, value: string): QueryParameter {
    QueryParameter(name, Str(value), Some("varchar"))
  }

  /** `${schema}.${name}`. */
  function FullName(schema: string, name: string): string {
    schema + "." + name
  }

  /** A text descriptor with a name is bound as `VarChar`. */
  lemma VarcharBound(name: string, value: string)
    requires name != ""
    ensures BindOne(Varchar(name, value)) == BoundParam(name, Str(value), Some(VarChar))
    ensures IsBindable(Varchar(name, value))
  {
    GetSqlTypeListed(VarChar);
  }

  /** The catalog lookups bind every descriptor they build. */
  lemma VarcharsBound(a: string, x: string, b: string, y: string)
    requires a != "" && b != ""
    ensures Bindings([Varchar(a, x)]) == [BoundParam(a, Str(x), Some(VarChar))]
    ensures Bindings([Varchar(a, x), Varchar(b, y)])
      == [BoundParam(a, Str(x), Some(VarChar)), BoundParam(b, Str(y), Some(VarChar))]
  {
    VarcharBound(a, x);
    VarcharBound(b, y);
    assert [Varchar(a, x)][1..] == [];
    assert [Varchar(a, x), Varchar(b, y)][1..] == [Varchar(b, y)];
    assert Bindings([Varchar(b, y)]) == [BoundParam(b, Str(y), Some(VarChar))];
  }

  // ---------------------------------------------------------------------------
  // The catalog queries

  const ListProceduresSql := "\n      SELECT \n        p.name as procedure_name,\n        s.name as schema_name,\n        p.object_id,\n        p.create_date,\n        p.modify_date,\n        p.type_desc\n      FROM sys.procedures p\n      INNER JOIN sys.schemas s ON p.schema_id = s.schema_id\n      WHERE s.name = @schema\n      ORDER BY p.name\n    "
  const DefinitionSql := "\n      SELECT sm.definition\n      FROM sys.procedures p\n      INNER JOIN sys.schemas s ON p.schema_id = s.schema_id\n      INNER JOIN sys.sql_modules sm ON p.object_id = sm.object_id\n      WHERE p.name = @procedureName AND s.name = @schema\n    "
  const DateInfoSql := "\n      SELECT p.create_date, p.modify_date\n      FROM sys.procedures p\n      INNER JOIN sys.schemas s ON p.schema_id = s.schema_id\n      WHERE p.name = @procedureName AND s.name = @schema\n    "
  const ParametersSql := "\n      SELECT \n        par.name,\n        t.name as type_name,\n        par.max_length,\n        par.precision,\n        par.scale,\n        par.is_output,\n        par.has_default_value,\n        par.default_value,\n        par.is_readonly\n      FROM sys.parameters par\n      INNER JOIN sys.procedures p ON par.object_id = p.object_id\n      INNER JOIN sys.schemas s ON p.schema_id = s.schema_id\n      INNER JOIN sys.types t ON par.user_type_id = t.user_type_id\n      WHERE p.name = @procedureName AND s.name = @schema\n      ORDER BY par.parameter_id\n    "
  const SearchSql := "\n      SELECT \n        p.name as procedure_name,\n        s.name as schema_name,\n        p.create_date,\n        p.modify_date,\n        CASE \n          WHEN sm.definition LIKE @searchPattern THEN 'Definition contains term'\n          WHEN p.name LIKE @searchPattern THEN 'Name contains term'\n          ELSE 'Match found'\n        END as match_type\n      FROM sys.procedures p\n      INNER JOIN sys.schemas s ON p.schema_id = s.schema_id\n      LEFT JOIN sys.sql_modules sm ON p.object_id = sm.object_id\n      WHERE (p.name LIKE @searchPattern OR sm.definition LIKE @searchPattern)\n    "
  const ProcedureDependenciesSql := "\n      SELECT DISTINCT\n        'REFERENCED_BY' as dependency_type,\n        OBJECT_SCHEMA_NAME(d.referencing_id) as referencing_schema,\n        OBJECT_NAME(d.referencing_id) as referencing_object,\n        o.type_desc as referencing_type\n      FROM sys.sql_expression_dependencies d\n      INNER JOIN sys.objects o ON d.referencing_id = o.object_id\n      WHERE d.referenced_id = OBJECT_ID(@procedureFullName)\n      \n      UNION ALL\n      \n      SELECT DISTINCT\n        'REFERENCES' as dependency_type,\n        OBJECT_SCHEMA_NAME(d.referenced_id) as referenced_schema,\n        OBJECT_NAME(d.referenced_id) as referenced_object,\n        o.type_desc as referenced_type\n      FROM sys.sql_expression_dependencies d\n      INNER JOIN sys.objects o ON d.referenced_id = o.object_id\n      WHERE d.referencing_id = OBJECT_ID(@procedureFullName)\n      \n      ORDER BY dependency_type, referencing_schema, referencing_object\n    "

  // ---------------------------------------------------------------------------
  // listStoredProcedures

  function ListProceduresHeading(schema: string): string {
    "Schema \"" + schema + "\" 的預存程序列表：\n"
  }

  function ListProceduresSpec(hasPool: bool, respond: Responder, history: seq<Call>, schema: Option<string>)
    : (Result<Reply, Error>, seq<Call>)
  {
    var s := SchemaOrDefault(schema);
    var (answer, after) := QueryStep(hasPool, respond, history, ListProceduresSql, Some([Varchar("schema", s)]));
    match answer
    case Success(result) => (Success(Reply(ListProceduresHeading(s), RecordsetJson(result))), after)
    case Failure(e) => (Failure(Wrapped(ListProceduresStage, e)), after)
  }

  /** One request, with the schema bound as `VarChar`; the listing is the record set
      under a heading naming the schema, a failure carries the list prefix. */
  lemma ListProceduresOutcome(hasPool: bool, respond: Responder, history: seq<Call>, schema: Option<string>)
    ensures var s := SchemaOrDefault(schema);
      var call := Call(ListProceduresSql, [BoundParam("schema", Str(s), Some(VarChar))]);
      var r := ListProceduresSpec(hasPool, respond, history, schema).0;
      var after := ListProceduresSpec(hasPool, respond, history, schema).1;
      && (hasPool ==> after == history + [call])
      && (!hasPool ==> after == history && r == Failure(Wrapped(ListProceduresStage, NotConnected)))
      && (r.Success? ==>
            respond(history, call).Success?
            && r.value == Reply(ListProceduresHeading(s), RecordsetJson(respond(history, call).value)))
      && (r.Failure? ==> StartsWith(Message(r.error), StagePrefix(ListProceduresStage) + ": "))
  {
    var s := SchemaOrDefault(schema);
    VarcharsBound("schema", s, "schema", s);
    var r := ListProceduresSpec(hasPool, respond, history, schema).0;
    if r.Failure? {
      WrappedMessage(ListProceduresStage, r.error.cause);
    }
  }

  // ---------------------------------------------------------------------------
  // describeStoredProcedure and its three lookups

  /** The descriptors every per-procedure lookup binds. */
  function ProcedureLookup(name: string, schema: string): seq<QueryParameter> {
    [Varchar("procedureName", name), Varchar("schema", schema)]
  }

  /** `result.recordset?.[0]?.definition || ''`. */
  function DefinitionOf(result: QueryResult): (d: Json)
    ensures Truthy(d) || d == Str("")
  {
    var first := if result.recordset.Some? && |result.recordset.value| > 0
      then Field(result.recordset.value[0], "definition") else Undefined;
    if Truthy(first) then first else Str("")
  }

  /** The create and modify dates of the first row, or `null` without one. */
  function DateInfoOf(result: QueryResult): Option<(Json, Json)> {
    if result.recordset.Some? && |result.recordset.value| > 0 then
      var row := result.recordset.value[0];
      Some((Field(row, "create_date"), Field(row, "modify_date")))
    else None
  }

  /** The parameter row mapper: column names to the parameter record. */
  function ParameterOf(row: Row): StoredProcedureParameter {
    StoredProcedureParameter(
      Field(row, "name"), Field(row, "type_name"), Field(row, "max_length"), Field(row, "precision"),
      Field(row, "scale"), Field(row, "is_output"), Field(row, "has_default_value"),
      Field(row, "default_value"), Field(row, "is_readonly"))
  }

  /** `result.recordset?.map(mapper) || []`. */
  function ParametersOf(result: QueryResult): (ps: seq<StoredProcedureParameter>)
    ensures result.recordset.None? ==> ps == []
    ensures result.recordset.Some? ==>
      |ps| == |result.recordset.value|
      && forall i :: 0 <= i < |ps| ==> ps[i] == ParameterOf(result.recordset.value[i])
  {
    match result.recordset
    case None => []
    case Some(rows) => seq(|rows|, i requires 0 <= i < |rows| => ParameterOf(rows[i]))
  }

  function DefinitionLookup(hasPool: bool, respond: Responder, history: seq<Call>, name: string, schema: string)
    : (Result<Json, Error>, seq<Call>)
  {
    var (answer, after) := QueryStep(hasPool, respond, history, DefinitionSql, Some(ProcedureLookup(name, schema)));
    (if answer.Success? then Success(DefinitionOf(answer.value)) else Failure(answer.error), after)
  }

  function DateInfoLookup(hasPool: bool, respond: Responder, history: seq<Call>, name: string, schema: string)
    : (Result<Option<(Json, Json)>, Error>, seq<Call>)
  {
    var (answer, after) := QueryStep(hasPool, respond, history, DateInfoSql, Some(ProcedureLookup(name, schema)));
    (if answer.Success? then Success(DateInfoOf(answer.value)) else Failure(answer.error), after)
  }

  function ParametersLookup(hasPool: bool, respond: Responder, history: seq<Call>, name: string, schema: string)
    : (Result<seq<StoredProcedureParameter>, Error>, seq<Call>)
  {
    var (answer, after) := QueryStep(hasPool, respond, history, ParametersSql, Some(ProcedureLookup(name, schema)));
    (if answer.Success? then Success(ParametersOf(answer.value)) else Failure(answer.error), after)
  }

  /** The record `describeStoredProcedure` builds: the clock reading `now` stands for
      both dates until a date row replaces them. */
  function ProcedureInfo(
    name: string, schema: string, definition: Json, parameters: seq<StoredProcedureParameter>,
    dates: Option<(Json, Json)>, now: Json
  ): StoredProcedureInfo
  {
    var info := StoredProcedureInfo(name, schema, definition, now, now, parameters);
    if dates.Some? then info.(createDate := dates.value.0, modifyDate := dates.value.1) else info
  }

  function ParameterJson(p: StoredProcedureParameter): Json {
    Obj(map[
      "name" := p.name, "type" := p.typeName, "maxLength" := p.maxLength, "precision" := p.precision,
      "scale" := p.scale, "isOutput" := p.isOutput, "hasDefaultValue" := p.hasDefaultValue,
      "defaultValue" := p.defaultValue, "isReadonly" := p.isReadonly])
  }

  function InfoJson(info: StoredProcedureInfo): Json {
    Obj(map[
      "name" := Str(info.name), "schema" := Str(info.schema), "definition" := info.definition,
      "createDate" := info.createDate, "modifyDate" := info.modifyDate,
      "parameters" := Arr(seq(|info.parameters|, i requires 0 <= i < |info.parameters| => ParameterJson(info.parameters[i])))])
  }

  function DescribeHeading(schema: string, name: string): string {
    "預存程序 \"" + FullName(schema, name) + "\" 詳細資訊：\n"
  }

  /** `describeStoredProcedure`: the definition, the parameters and the dates, looked up
      in that order; the first failure ends it under the describe prefix. */
  function DescribeProcedureSpec(
    hasPool: bool, respond: Responder, history: seq<Call>, name: string, schema: Option<string>, now: Json
  ): (Result<Reply, Error>, seq<Call>)
  {
    var s := SchemaOrDefault(schema);
    var (definition, h1) := DefinitionLookup(hasPool, respond, history, name, s);
    if definition.Failure? then (Failure(Wrapped(DescribeProcedureStage, definition.error)), h1)
    else
      var (parameters, h2) := ParametersLookup(hasPool, respond, h1, name, s);
      if parameters.Failure? then (Failure(Wrapped(DescribeProcedureStage, parameters.error)), h2)
      else
        var (dates, h3) := DateInfoLookup(hasPool, respond, h2, name, s);
        if dates.Failure? then (Failure(Wrapped(DescribeProcedureStage, dates.error)), h3)
        else
          var info := ProcedureInfo(name, s, definition.value, parameters.value, dates.value, now);
          (Success(Reply(DescribeHeading(s, name), InfoJson(info))), h3)
  }

  /** The dates are the date row's when there is one and the clock's otherwise; the
      rest of the record never depends on them. */
  lemma ProcedureInfoDates(
    name: string, schema: string, definition: Json, parameters: seq<StoredProcedureParameter>,
    dates: Option<(Json, Json)>, now: Json)
    ensures var info := ProcedureInfo(name, schema, definition, parameters, dates, now);
      && info.name == name && info.schema == schema
      && info.definition == definition && info.parameters == parameters
      && (dates.Some? ==> info.createDate == dates.value.0 && info.modifyDate == dates.value.1)
      && (dates.None? ==> info.createDate == now && info.modifyDate == now)
  {
  }

  /** A date row exists exactly when the lookup returned at least one row, and then it
      is the first one; the definition is `''` unless the first row has a truthy one. */
  lemma LookupDefaults(result: QueryResult)
    ensures DateInfoOf(result).Some? <==> result.recordset.Some? && |result.recordset.value| > 0
    ensures (result.recordset.None? || result.recordset.value == []) ==> DefinitionOf(result) == Str("")
    ensures result.recordset.Some? && |result.recordset.value| > 0
            && Truthy(Field(result.recordset.value[0], "definition")) ==>
              DefinitionOf(result) == Field(result.recordset.value[0], "definition")
  {
  }

  /** With a pool and no failure, the three lookups go out in order, each with the
      procedure name and the schema bound. */
  lemma DescribeProcedureTrace(
    respond: Responder, history: seq<Call>, name: string, schema: Option<string>, now: Json)
    requires DescribeProcedureSpec(true, respond, history, name, schema, now).0.Success?
    ensures var bound := [BoundParam("procedureName", Str(name), Some(VarChar)),
                          BoundParam("schema", Str(SchemaOrDefault(schema)), Some(VarChar))];
      DescribeProcedureSpec(true, respond, history, name, schema, now).1
        == history + [Call(DefinitionSql, bound), Call(ParametersSql, bound), Call(DateInfoSql, bound)]
  {
    VarcharsBound("procedureName", name, "schema", SchemaOrDefault(schema));
  }

  /** Every failure of `describeStoredProcedure` carries the describe prefix; without
      a pool nothing is sent. */
  lemma DescribeProcedureFailure(
    hasPool: bool, respond: Responder, history: seq<Call>, name: string, schema: Option<string>, now: Json)
    ensures var r := DescribeProcedureSpec(hasPool, respond, history, name, schema, now).0;
      r.Failure? ==> StartsWith(Message(r.error), StagePrefix(DescribeProcedureStage) + ": ")
    ensures !hasPool ==>
      DescribeProcedureSpec(hasPool, respond, history, name, schema, now)
        == (Failure(Wrapped(DescribeProcedureStage, NotConnected)), history)
  {
    var r := DescribeProcedureSpec(hasPool, respond, history, name, schema, now).0;
    if r.Failure? {
      WrappedMessage(DescribeProcedureStage, r.error.cause);
    }
  }

  // ---------------------------------------------------------------------------
  // executeStoredProcedure

  /** `@\${p.name} = @\${p.name}`. */
  function Assignment(p: QueryParameter): string {
    "@" + p.name + " = @" + p.name
  }

  function Assignments(ps: seq<QueryParameter>): (r: seq<string>)
    ensures |r| == |ps| && forall i :: 0 <= i < |ps| ==> r[i] == Assignment(ps[i])
  {
    seq(|ps|, i requires 0 <= i < |ps| => Assignment(ps[i]))
  }

  const ExecKeyword := "EXEC "

  /** The `EXEC` text: the qualified name, then one assignment per descriptor when
      there are any. */
  function ExecText(schema: string, name: string, parameters: Option<seq<QueryParameter>>): string {
    var base := ExecKeyword + FullName(schema, name);
    if parameters.Some? && |parameters.value| > 0 then base + " " + Join(", ", Assignments(parameters.value))
    else base
  }

  /** Without descriptors the text is the bare `EXEC schema.name`; with them it is that,
      a space, and the assignments joined by `, `, which splitting on `, ` gives back
      when no name contains a comma. */
  lemma ExecTextShape(schema: string, name: string, parameters: Option<seq<QueryParameter>>)
    ensures parameters.None? || parameters.value == [] ==>
      ExecText(schema, name, parameters) == "EXEC " + schema + "." + name
    ensures parameters.Some? && parameters.value != [] ==>
      var head := "EXEC " + schema + "." + name + " ";
      var text := ExecText(schema, name, parameters);
      && StartsWith(text, head)
      && text[|head|..] == Join(", ", Assignments(parameters.value))
  {
    if parameters.Some? && parameters.value != [] {
      var head := "EXEC " + schema + "." + name + " ";
      var text := ExecText(schema, name, parameters);
      assert text == head + Join(", ", Assignments(parameters.value));
      assert text[..|head|] == head;
      assert text[|head|..] == Join(", ", Assignments(parameters.value));
    }
  }

  lemma AssignmentsWithoutComma(ps: seq<QueryParameter>)
    requires forall i :: 0 <= i < |ps| ==> ',' !in ps[i].name
    ensures forall k :: 0 <= k < |ps| ==> ',' !in Assignments(ps)[k]
  {
    forall k | 0 <= k < |ps| ensures ',' !in Assignments(ps)[k] {
      var n := ps[k].name;
      assert Assignments(ps)[k] == "@" + n + " = @" + n;
      assert forall c :: c in "@" + n + " = @" + n ==> c in n || c in "@ =";
    }
  }

  /** The assignments can be read back from the text, one per descriptor, in order. */
  lemma ExecTextRecoverable(schema: string, name: string, ps: seq<QueryParameter>)
    requires ps != [] && forall i :: 0 <= i < |ps| ==> ',' !in ps[i].name
    ensures var head := "EXEC " + schema + "." + name + " ";
      Split(ExecText(schema, name, Some(ps))[|head|..], ", ") == Assignments(ps)
  {
    ExecTextShape(schema, name, Some(ps));
    AssignmentsWithoutComma(ps);
    SplitJoin(Assignments(ps), ", ");
  }

  /** The assignments name every descriptor, including those the binding drops. */
  lemma ExecTextNamesDroppedDescriptor(schema: string, name: string, p: QueryParameter)
    requires p.name != "" && p.value == Undefined
    ensures ExecText(schema, name, Some([p])) == "EXEC " + schema + "." + name + " @" + p.name + " = @" + p.name
    ensures Bindings([p]) == []
  {
    assert Assignments([p]) == [Assignment(p)];
  }

  const ExecuteHeading := "預存程序執行結果：\n"

  /** The execution record: every field is present whatever the driver returned. */
  function ExecutionRecord(fullName: string, result: QueryResult, elapsed: nat): Json {
    Obj(map[
      "procedureName" := Str(fullName),
      "executionTime" := Str(Millis(elapsed)),
      "recordCount" := Num(RecordCount(result)),
      "records" := RowsJson(result.recordset.GetOr([])),
      "rowsAffected" := NumsJson(result.rowsAffected.GetOr([0])),
      "returnValue" := if result.returnValue.Some? then Num(result.returnValue.value) else Undefined])
  }

  /** `recordCount` is the number of `records`, `records` defaults to `[]`,
      `rowsAffected` to `[0]`, and the return value is passed through. */
  lemma ExecutionRecordFields(fullName: string, result: QueryResult, elapsed: nat)
    ensures var f := ExecutionRecord(fullName, result, elapsed).fields;
      && f.Keys == {"procedureName", "executionTime", "recordCount", "records", "rowsAffected", "returnValue"}
      && f["procedureName"] == Str(fullName)
      && f["recordCount"] == Num(|f["records"].items|)
      && (result.recordset.None? ==> f["records"] == Arr([]))
      && (result.rowsAffected.None? ==> f["rowsAffected"] == Arr([Num(0)]))
      && (result.rowsAffected.Some? ==> f["rowsAffected"] == NumsJson(result.rowsAffected.value))
      && (result.returnValue.Some? <==> f["returnValue"] != Undefined)
      && (result.returnValue.Some? ==> f["returnValue"] == Num(result.returnValue.value))
  {
    var f := ExecutionRecord(fullName, result, elapsed).fields;
    assert f["records"] == RowsJson(result.recordset.GetOr([]));
    if result.rowsAffected.None? {
      assert NumsJson([0]).items == [Num(0)];
    }
    if result.recordset.None? {
      assert RowsJson([]).items == [];
    }
  }

  /** `executeStoredProcedure`, given the time the call took. */
  function ExecuteProcedureSpec(
    hasPool: bool, respond: Responder, history: seq<Call>,
    name: string, schema: Option<string>, parameters: Option<seq<QueryParameter>>, elapsed: nat
  ): (Result<Reply, Error>, seq<Call>)
  {
    var s := SchemaOrDefault(schema);
    var (answer, after) := QueryStep(hasPool, respond, history, ExecText(s, name, parameters), parameters);
    match answer
    case Success(result) => (Success(Reply(ExecuteHeading, ExecutionRecord(FullName(s, name), result, elapsed))), after)
    case Failure(e) => (Failure(Wrapped(ExecuteProcedureStage, e)), after)
  }

  /** One request: the `EXEC` text with the caller's descriptors bound; a failure
      carries the execute prefix. */
  lemma ExecuteProcedureOutcome(
    hasPool: bool, respond: Responder, history: seq<Call>,
    name: string, schema: Option<string>, parameters: Option<seq<QueryParameter>>, elapsed: nat)
    ensures var call := Call(ExecText(SchemaOrDefault(schema), name, parameters), Bindings(parameters.GetOr([])));
      var run := ExecuteProcedureSpec(hasPool, respond, history, name, schema, parameters, elapsed);
      && (hasPool ==> run.1 == history + [call])
      && (!hasPool ==> run == (Failure(Wrapped(ExecuteProcedureStage, NotConnected)), history))
      && (run.0.Failure? ==> StartsWith(Message(run.0.error), StagePrefix(ExecuteProcedureStage) + ": "))
  {
    var r := ExecuteProcedureSpec(hasPool, respond, history, name, schema, parameters, elapsed).0;
    if r.Failure? {
      WrappedMessage(ExecuteProcedureStage, r.error.cause);
    }
  }

  // ---------------------------------------------------------------------------
  // searchStoredProcedures

  const SchemaFilter := " AND s.name = @schema"
  const ProcedureOrder := " ORDER BY p.name"

  /** `if (schema)`: an absent or empty schema does not filter. */
  predicate Filters(schema: Option<string>) {
    schema.Some? && schema.value != ""
  }

  /** The search text and descriptors: the pattern always, the schema filter and its
      descriptor only with a schema, the ordering last. */
  function SearchRequest(searchTerm: string, schema: Option<string>): (string, seq<QueryParameter>) {
    var pattern := Varchar("searchPattern", "%" + searchTerm + "%");
    if Filters(schema) then (SearchSql + SchemaFilter + ProcedureOrder, [pattern, Varchar("schema", schema.value)])
    else (SearchSql + ProcedureOrder, [pattern])
  }

  /** The pattern is `%term%` and comes first; a second descriptor, the schema, is
      there exactly when the text carries the schema filter; the text always ends with
      the ordering. */
  lemma SearchRequestShape(searchTerm: string, schema: Option<string>)
    ensures var (sql, ps) := SearchRequest(searchTerm, schema);
      && |ps| >= 1 && ps[0] == QueryParameter("searchPattern", Str("%" + searchTerm + "%"), Some("varchar"))
      && StartsWith(sql, SearchSql)
      && EndsWith(sql, ProcedureOrder)
      && (|ps| == 2 <==> Filters(schema))
      && (|ps| == 2 ==> ps[1] == Varchar("schema", schema.value))
      && |ps| <= 2
      && (Filters(schema) <==> sql[|SearchSql|..] == SchemaFilter + ProcedureOrder)
  {
    var (sql, ps) := SearchRequest(searchTerm, schema);
    assert sql[..|SearchSql|] == SearchSql;
    assert sql[|sql| - |ProcedureOrder|..] == ProcedureOrder;
    assert sql[|SearchSql|..] == if Filters(schema) then SchemaFilter + ProcedureOrder else ProcedureOrder;
    assert |SchemaFilter + ProcedureOrder| != |ProcedureOrder|;
  }

  /** The search request as the source builds it: start from the text and the pattern,
      append the filter and its descriptor when there is a schema, then the ordering. */
  method BuildSearchRequest(searchTerm: string, schema: Option<string>)
    returns (query: string, parameters: seq<QueryParameter>)
    ensures (query, parameters) == SearchRequest(searchTerm, schema)
  {
    query := SearchSql;
    parameters := [Varchar("searchPattern", "%" + searchTerm + "%")];
    if schema.Some? && schema.value != "" {
      query := query + SchemaFilter;
      parameters := parameters + [Varchar("schema", schema.value)];
      assert parameters == [Varchar("searchPattern", "%" + searchTerm + "%"), Varchar("schema", schema.value)];
    }
    query := query + ProcedureOrder;
  }

  function SearchTitle(searchTerm: string, schema: Option<string>): string {
    if Filters(schema) then "Schema \"" + schema.value + "\" 中包含 \"" + searchTerm + "\" 的預存程序："
    else "包含 \"" + searchTerm + "\" 的預存程序："
  }

  function SearchProceduresSpec(hasPool: bool, respond: Responder, history: seq<Call>, searchTerm: string, schema: Option<string>)
    : (Result<Reply, Error>, seq<Call>)
  {
    var (query, parameters) := SearchRequest(searchTerm, schema);
    var (answer, after) := QueryStep(hasPool, respond, history, query, Some(parameters));
    match answer
    case Success(result) => (Success(Reply(SearchTitle(searchTerm, schema) + "\n", RecordsetJson(result))), after)
    case Failure(e) => (Failure(Wrapped(SearchProceduresStage, e)), after)
  }

  /** Every descriptor of the search is bound, so the driver receives the pattern and,
      with a schema, the schema; a failure carries the search prefix. */
  lemma SearchProceduresOutcome(hasPool: bool, respond: Responder, history: seq<Call>, searchTerm: string, schema: Option<string>)
    ensures var run := SearchProceduresSpec(hasPool, respond, history, searchTerm, schema);
      var req := SearchRequest(searchTerm, schema);
      && (hasPool ==> run.1 == history + [Call(req.0, Bindings(req.1))])
      && |Bindings(req.1)| == |req.1|
      && (run.0.Failure? ==> StartsWith(Message(run.0.error), StagePrefix(SearchProceduresStage) + ": "))
  {
    var pattern := "%" + searchTerm + "%";
    VarcharsBound("searchPattern", pattern, "schema", schema.GetOr(""));
    var r := SearchProceduresSpec(hasPool, respond, history, searchTerm, schema).0;
    if r.Failure? {
      WrappedMessage(SearchProceduresStage, r.error.cause);
    }
  }

  // ---------------------------------------------------------------------------
  // getProcedureDependencies

  const ProcedureDependenciesNotice := "無法取得預存程序相依關係資訊: "

  function ProcedureDependenciesHeading(fullName: string): string {
    "預存程序 \"" + fullName + "\" 的相依關係：\n"
  }

  /** `getProcedureDependencies`: never fails; a driver error becomes a notice. */
  function ProcedureDependenciesSpec(
    hasPool: bool, respond: Responder, history: seq<Call>, name: string, schema: Option<string>
  ): (Report, seq<Call>)
  {
    var fullName := FullName(SchemaOrDefault(schema), name);
    var (answer, after) := QueryStep(hasPool, respond, history, ProcedureDependenciesSql,
      Some([Varchar("procedureFullName", fullName)]));
    match answer
    case Success(result) => (Listing(Reply(ProcedureDependenciesHeading(fullName), RecordsetJson(result))), after)
    case Failure(e) => (Notice(ProcedureDependenciesNotice + Message(e)), after)
  }

  /** The full name `schema.name` is the one descriptor; a failure is reported as a
      notice carrying the error's message, never raised. */
  lemma ProcedureDependenciesBestEffort(
    hasPool: bool, respond: Responder, history: seq<Call>, name: string, schema: Option<string>)
    ensures var fullName := SchemaOrDefault(schema) + "." + name;
      var call := Call(ProcedureDependenciesSql, [BoundParam("procedureFullName", Str(fullName), Some(VarChar))]);
      var run := ProcedureDependenciesSpec(hasPool, respond, history, name, schema);
      && (hasPool ==> run.1 == history + [call])
      && (!hasPool ==> run == (Notice(ProcedureDependenciesNotice + Message(NotConnected)), history))
      && (hasPool && respond(history, call).Failure? ==>
            run.0 == Notice(ProcedureDependenciesNotice + respond(history, call).error))
      && (hasPool && respond(history, call).Success? ==>
            run.0 == Listing(Reply(ProcedureDependenciesHeading(fullName), RecordsetJson(respond(history, call).value))))
  {
    var fullName := SchemaOrDefault(schema) + "." + name;
    VarcharsBound("procedureFullName", fullName, "procedureFullName", fullName);
  }

  // ---------------------------------------------------------------------------
  // The service object

  class StoredProcedureService {
    const db: Manager

    constructor (db: Manager)
      ensures this.db == db
    {
      this.db := db;
    }

    method ListStoredProcedures(schema: Option<string>) returns (r: Result<Reply, Error>)
      modifies db`calls
      ensures (r, db.calls) == ListProceduresSpec(db.pool.Some?, db.respond, old(db.calls), schema)
    {
      var s := SchemaOrDefault(schema);
      var answer := db.Query(ListProceduresSql, Some([Varchar("schema", s)]));
      match answer
      case Success(result) => r := Success(Reply(ListProceduresHeading(s), RecordsetJson(result)));
      case Failure(e) => r := Failure(Wrapped(ListProceduresStage, e));
    }

    method GetProcedureDefinition(name: string, schema: string) returns (r: Result<Json, Error>)
      modifies db`calls
      ensures (r, db.calls) == DefinitionLookup(db.pool.Some?, db.respond, old(db.calls), name, schema)
    {
      var answer := db.Query(DefinitionSql, Some(ProcedureLookup(name, schema)));
      r := if answer.Success? then Success(DefinitionOf(answer.value)) else Failure(answer.error);
    }

    method GetProcedureDateInfo(name: string, schema: string) returns (r: Result<Option<(Json, Json)>, Error>)
      modifies db`calls
      ensures (r, db.calls) == DateInfoLookup(db.pool.Some?, db.respond, old(db.calls), name, schema)
    {
      var answer := db.Query(DateInfoSql, Some(ProcedureLookup(name, schema)));
      r := if answer.Success? then Success(DateInfoOf(answer.value)) else Failure(answer.error);
    }

    method GetProcedureParameters(name: string, schema: string) returns (r: Result<seq<StoredProcedureParameter>, Error>)
      modifies db`calls
      ensures (r, db.calls) == ParametersLookup(db.pool.Some?, db.respond, old(db.calls), name, schema)
    {
      var answer := db.Query(ParametersSql, Some(ProcedureLookup(name, schema)));
      r := if answer.Success? then Success(ParametersOf(answer.value)) else Failure(answer.error);
    }

    /** Build the record with the clock's dates, then overwrite them from the date row
        when there is one. */
    method DescribeStoredProcedure(name: string, schema: Option<string>, now: Json) returns (r: Result<Reply, Error>)
      modifies db`calls
      ensures (r, db.calls) == DescribeProcedureSpec(db.pool.Some?, db.respond, old(db.calls), name, schema, now)
    {
      var s := SchemaOrDefault(schema);
      var definition := GetProcedureDefinition(name, s);
      if definition.Failure? {
        return Failure(Wrapped(DescribeProcedureStage, definition.error));
      }
      var parameters := GetProcedureParameters(name, s);
      if parameters.Failure? {
        return Failure(Wrapped(DescribeProcedureStage, parameters.error));
      }
      var info := StoredProcedureInfo(name, s, definition.value, now, now, parameters.value);
      var dateInfo := GetProcedureDateInfo(name, s);
      if dateInfo.Failure? {
        return Failure(Wrapped(DescribeProcedureStage, dateInfo.error));
      }
      if dateInfo.value.Some? {
        info := info.(createDate := dateInfo.value.value.0, modifyDate := dateInfo.value.value.1);
      }
      return Success(Reply(DescribeHeading(s, name), InfoJson(info)));
    }

    /** Build `EXEC schema.name`, append the assignments when there are descriptors,
        send it with the descriptors. */
    method ExecuteStoredProcedure(name: string, schema: Option<string>, parameters: Option<seq<QueryParameter>>, elapsed: nat)
      returns (r: Result<Reply, Error>)
      modifies db`calls
      ensures (r, db.calls) == ExecuteProcedureSpec(db.pool.Some?, db.respond, old(db.calls), name, schema, parameters, elapsed)
    {
      var fullName := FullName(SchemaOrDefault(schema), name);
      var execQuery := ExecKeyword + fullName;
      if parameters.Some? && |parameters.value| > 0 {
        execQuery := execQuery + " " + Join(", ", Assignments(parameters.value));
      }
      var answer := db.Query(execQuery, parameters);
      match answer
      case Success(result) => r := Success(Reply(ExecuteHeading, ExecutionRecord(fullName, result, elapsed)));
      case Failure(e) => r := Failure(Wrapped(ExecuteProcedureStage, e));
    }

    method SearchStoredProcedures(searchTerm: string, schema: Option<string>) returns (r: Result<Reply, Error>)
      modifies db`calls
      ensures (r, db.calls) == SearchProceduresSpec(db.pool.Some?, db.respond, old(db.calls), searchTerm, schema)
    {
      var query, parameters := BuildSearchRequest(searchTerm, schema);
      var answer := db.Query(query, Some(parameters));
      match answer
      case Success(result) => r := Success(Reply(SearchTitle(searchTerm, schema) + "\n", RecordsetJson(result)));
      case Failure(e) => r := Failure(Wrapped(SearchProceduresStage, e));
    }

    method GetProcedureDependencies(name: string, schema: Option<string>) returns (r: Report)
      modifies db`calls
      ensures (r, db.calls) == ProcedureDependenciesSpec(db.pool.Some?, db.respond, old(db.calls), name, schema)
    {
      var fullName := FullName(SchemaOrDefault(schema), name);
      var answer := db.Query(ProcedureDependenciesSql, Some([Varchar("procedureFullName", fullName)]));
      match answer
      case Success(result) => r := Listing(Reply(ProcedureDependenciesHeading(fullName), RecordsetJson(result)));
      case Failure(e) => r := Notice(ProcedureDependenciesNotice + Message(e));
    }
  }
}
