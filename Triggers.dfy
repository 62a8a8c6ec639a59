/** `TriggerService`: the trigger listing with its optional table filter, the row
    mapping (events split, enabled flag negated), the not-found rule of the description
    and the best-effort dependency report. */
module Triggers {
  import opened Wrappers
  import opened Strings
  import opened JsValues
  import opened Errors
  import opened DbTypes
  import opened MssqlManager
  import opened Queries
  import opened StoredProcedures

  // ---------------------------------------------------------------------------
  // The catalog queries

  const ListTriggersSql := "\n      SELECT \n        tr.name as trigger_name,\n        s.name as schema_name,\n        t.name as table_name,\n        tr.type_desc,\n        tr.is_disabled,\n        tr.create_date,\n        tr.modify_date,\n        CASE \n          WHEN EXISTS (SELECT 1 FROM sys.trigger_events te WHERE te.object_id = tr.object_id AND te.type = 1) THEN 'INSERT'\n          ELSE ''\n        END +\n        CASE \n          WHEN EXISTS (SELECT 1 FROM sys.trigger_events te WHERE te.object_id = tr.object_id AND te.type = 2) THEN \n            CASE WHEN LEN(CASE WHEN EXISTS (SELECT 1 FROM sys.trigger_events te WHERE te.object_id = tr.object_id AND te.type = 1) THEN 'INSERT' ELSE '' END) > 0 THEN ', UPDATE' ELSE 'UPDATE' END\n          ELSE ''\n        END +\n        CASE \n          WHEN EXISTS (SELECT 1 FROM sys.trigger_events te WHERE te.object_id = tr.object_id AND te.type = 3) THEN \n            CASE WHEN LEN(CASE WHEN EXISTS (SELECT 1 FROM sys.trigger_events te WHERE te.object_id = tr.object_id AND te.type = 1) THEN 'INSERT' ELSE '' END + CASE WHEN EXISTS (SELECT 1 FROM sys.trigger_events te WHERE te.object_id = tr.object_id AND te.type = 2) THEN ', UPDATE' ELSE '' END) > 0 THEN ', DELETE' ELSE 'DELETE' END\n          ELSE ''\n        END as events\n      FROM sys.triggers tr\n      INNER JOIN sys.tables t ON tr.parent_id = t.object_id\n      INNER JOIN sys.schemas s ON t.schema_id = s.schema_id\n      WHERE s.name = @schema\n    "
  const DescribeTriggerSql := "\n      SELECT \n        tr.name as trigger_name,\n        s.name as schema_name,\n        t.name as table_name,\n        tr.type_desc,\n        tr.is_disabled,\n        tr.create_date,\n        tr.modify_date,\n        sm.definition,\n        CASE \n          WHEN EXISTS (SELECT 1 FROM sys.trigger_events te WHERE te.object_id = tr.object_id AND te.type = 1) THEN 'INSERT'\n          ELSE ''\n        END +\n        CASE \n          WHEN EXISTS (SELECT 1 FROM sys.trigger_events te WHERE te.object_id = tr.object_id AND te.type = 2) THEN \n            CASE WHEN LEN(CASE WHEN EXISTS (SELECT 1 FROM sys.trigger_events te WHERE te.object_id = tr.object_id AND te.type = 1) THEN 'INSERT' ELSE '' END) > 0 THEN ', UPDATE' ELSE 'UPDATE' END\n          ELSE ''\n        END +\n        CASE \n          WHEN EXISTS (SELECT 1 FROM sys.trigger_events te WHERE te.object_id = tr.object_id AND te.type = 3) THEN \n            CASE WHEN LEN(CASE WHEN EXISTS (SELECT 1 FROM sys.trigger_events te WHERE te.object_id = tr.object_id AND te.type = 1) THEN 'INSERT' ELSE '' END + CASE WHEN EXISTS (SELECT 1 FROM sys.trigger_events te WHERE te.object_id = tr.object_id AND te.type = 2) THEN ', UPDATE' ELSE '' END) > 0 THEN ', DELETE' ELSE 'DELETE' END\n          ELSE ''\n        END as events\n      FROM sys.triggers tr\n      INNER JOIN sys.tables t ON tr.parent_id = t.object_id\n      INNER JOIN sys.schemas s ON t.schema_id = s.schema_id\n      INNER JOIN sys.sql_modules sm ON tr.object_id = sm.object_id\n      WHERE tr.name = @triggerName AND s.name = @schema\n    "
  const TriggerDependenciesSql := "\n      SELECT \n        d.referencing_schema_name,\n        d.referencing_entity_name,\n        d.referencing_class_desc,\n        d.referenced_schema_name,\n        d.referenced_entity_name,\n        d.referenced_class_desc\n      FROM sys.dm_sql_referencing_entities(@triggerFullName, 'OBJECT') d\n      UNION ALL\n      SELECT \n        d.referencing_schema_name,\n        d.referencing_entity_name,\n        d.referencing_class_desc,\n        d.referenced_schema_name,\n        d.referenced_entity_name,\n        d.referenced_class_desc\n      FROM sys.dm_sql_referenced_entities(@triggerFullName, 'OBJECT') d\n    "

  // ---------------------------------------------------------------------------
  // The events column

  const EventSeparator := ", "

  /** The `events` column as the catalog query builds it: the trigger's events among
      INSERT, UPDATE and DELETE, in that order, separated by `, `. */
  function EventsColumn(onInsert: bool, onUpdate: bool, onDelete: bool): string {
    (if onInsert then "INSERT" else "")
    + (if onUpdate then (if onInsert then ", UPDATE" else "UPDATE") else "")
    + (if onDelete then (if onInsert || onUpdate then ", DELETE" else "DELETE") else "")
  }

  /** The event names a trigger fires on, in catalog order. */
  function EventNames(onInsert: bool, onUpdate: bool, onDelete: bool): seq<string> {
    (if onInsert then ["INSERT"] else [])
    + (if onUpdate then ["UPDATE"] else [])
    + (if onDelete then ["DELETE"] else [])
  }

  /** `row.events ? row.events.split(', ') : []`: a falsy value gives no events, a
      string is split, anything else makes `split` fail. */
  function EventsOf(events: Json): Result<seq<string>, Error> {
    if !Truthy(events) then Success([])
    else if events.Str? then Success(Split(events.s, EventSeparator))
    else Failure(EventsNotText)
  }

  /** An absent, null or empty column lists no events. */
  lemma EventsOfBlank(events: Json)
    requires events in [Undefined, Null, Str("")]
    ensures EventsOf(events) == Success([])
  {
  }

  /** Splitting loses nothing: the events, joined again, are the column text. */
  lemma EventsRejoin(s: string)
    requires s != ""
    ensures EventsOf(Str(s)).Success? && Join(EventSeparator, EventsOf(Str(s)).value) == s
  {
    JoinSplit(s, EventSeparator);
  }

  /** The column is the event names joined by the separator. */
  lemma EventsColumnJoins(onInsert: bool, onUpdate: bool, onDelete: bool)
    ensures EventsColumn(onInsert, onUpdate, onDelete) == Join(EventSeparator, EventNames(onInsert, onUpdate, onDelete))
  {
    var names := EventNames(onInsert, onUpdate, onDelete);
    if onInsert && onUpdate && onDelete {
      assert names == ["INSERT", "UPDATE", "DELETE"];
      JoinCons(EventSeparator, "UPDATE", ["DELETE"]);
      JoinCons(EventSeparator, "INSERT", ["UPDATE", "DELETE"]);
    } else if onInsert && onUpdate {
      assert names == ["INSERT", "UPDATE"];
      JoinCons(EventSeparator, "INSERT", ["UPDATE"]);
    } else if onInsert && onDelete {
      assert names == ["INSERT", "DELETE"];
      JoinCons(EventSeparator, "INSERT", ["DELETE"]);
    } else if onUpdate && onDelete {
      assert names == ["UPDATE", "DELETE"];
      JoinCons(EventSeparator, "UPDATE", ["DELETE"]);
    }
  }

  /** Names without a comma, joined, are split back into the same names. */
  lemma EventsOfJoined(names: seq<string>)
    requires names != [] && names[0] != ""
    requires forall k :: 0 <= k < |names| ==> ',' !in names[k]
    ensures EventsOf(Str(Join(EventSeparator, names))) == Success(names)
  {
    var s := Join(EventSeparator, names);
    if |names| > 1 {
      JoinCons(EventSeparator, names[0], names[1..]);
      assert names == [names[0]] + names[1..];
    }
    assert |s| >= |names[0]|;
    SplitJoin(names, EventSeparator);
  }

  /** The split recovers exactly the events the catalog column lists. */
  lemma EventsOfColumn(onInsert: bool, onUpdate: bool, onDelete: bool)
    ensures EventsOf(Str(EventsColumn(onInsert, onUpdate, onDelete))) == Success(EventNames(onInsert, onUpdate, onDelete))
  {
    var names := EventNames(onInsert, onUpdate, onDelete);
    EventsColumnJoins(onInsert, onUpdate, onDelete);
    if names != [] {
      assert names[0] in {"INSERT", "UPDATE", "DELETE"};
      assert forall k :: 0 <= k < |names| ==> names[k] in {"INSERT", "UPDATE", "DELETE"};
      EventsOfJoined(names);
    }
  }

  // ---------------------------------------------------------------------------
  // Row mapping

  /** `isEnabled: !row.is_disabled`: enabled exactly when the flag is falsy. */
  function IsEnabled(row: Row): (enabled: bool)
    ensures enabled <==> Field(row, "is_disabled") in [Undefined, Null, Bool(false), Num(0), Str("")]
  {
    !Truthy(Field(row, "is_disabled"))
  }

  /** One element of the trigger list. */
  datatype TriggerEntry = TriggerEntry(
    name: Json, schema: Json, tableName: Json, triggerType: Json,
    events: seq<string>, isEnabled: bool, createDate: Json, modifyDate: Json)

  /** The list row mapper; it fails only where the events split fails. */
  function EntryOf(row: Row): Result<TriggerEntry, Error> {
    var events := EventsOf(Field(row, "events"));
    if events.Failure? then Failure(events.error)
    else Success(TriggerEntry(
      Field(row, "trigger_name"), Field(row, "schema_name"), Field(row, "table_name"), Field(row, "type_desc"),
      events.value, IsEnabled(row), Field(row, "create_date"), Field(row, "modify_date")))
  }

  /** `rows.map(mapper)`: every row in order, or the first row's failure. */
  function EntriesOf(rows: seq<Row>): (r: Result<seq<TriggerEntry>, Error>)
    ensures r.Success? ==> |r.value| == |rows| && forall i :: 0 <= i < |rows| ==> EntryOf(rows[i]) == Success(r.value[i])
    ensures r.Success? <==> forall i :: 0 <= i < |rows| ==> EntryOf(rows[i]).Success?
  {
    if rows == [] then Success([])
    else
      var first := EntryOf(rows[0]);
      var rest := EntriesOf(rows[1..]);
      assert forall i :: 1 <= i < |rows| ==> rows[i] == rows[1..][i - 1];
      if first.Failure? then Failure(first.error)
      else if rest.Failure? then Failure(rest.error)
      else Success([first.value] + rest.value)
  }

  /** `result.recordset?.map(mapper) || []`. */
  function TriggerList(result: QueryResult): Result<seq<TriggerEntry>, Error> {
    match result.recordset
    case None => Success([])
    case Some(rows) => EntriesOf(rows)
  }

  /** A mapping failure is the events `TypeError`. */
  lemma {:induction false} EntriesFailure(rows: seq<Row>)
    requires EntriesOf(rows).Failure?
    ensures EntriesOf(rows).error == EventsNotText
  {
    if EntryOf(rows[0]).Success? {
      EntriesFailure(rows[1..]);
    }
  }

  function StringsJson(xs: seq<string>): Json {
    Arr(seq(|xs|, i requires 0 <= i < |xs| => Str(xs[i])))
  }

  function EntryJson(e: TriggerEntry): Json {
    Obj(map[
      "name" := e.name, "schema" := e.schema, "tableName" := e.tableName, "type" := e.triggerType,
      "events" := StringsJson(e.events), "isEnabled" := Bool(e.isEnabled),
      "createDate" := e.createDate, "modifyDate" := e.modifyDate])
  }

  function EntriesJson(entries: seq<TriggerEntry>): Json {
    Arr(seq(|entries|, i requires 0 <= i < |entries| => EntryJson(entries[i])))
  }

  // ---------------------------------------------------------------------------
  // listTriggers

  const TableFilter := " AND t.name = @tableName"
  const TriggerOrder := " ORDER BY tr.name"

  /** `if (tableName)`: an absent or empty table name does not filter. */
  predicate FiltersTable(tableName: Option<string>) {
    tableName.Some? && tableName.value != ""
  }

  /** The listing text and descriptors: the schema always, the table filter and its
      descriptor only with a table name, the ordering last. */
  function ListRequest(tableName: Option<string>, schema: string): (string, seq<QueryParameter>) {
    if FiltersTable(tableName) then
      (ListTriggersSql + TableFilter + TriggerOrder, [Varchar("schema", schema), Varchar("tableName", tableName.value)])
    else (ListTriggersSql + TriggerOrder, [Varchar("schema", schema)])
  }

  /** The schema is always the first descriptor; a second one, the table name, is there
      exactly when the text carries the table filter; the text ends with the ordering. */
  lemma ListRequestShape(tableName: Option<string>, schema: string)
    ensures var (sql, ps) := ListRequest(tableName, schema);
      && |ps| >= 1 && ps[0] == QueryParameter("schema", Str(schema), Some("varchar"))
      && StartsWith(sql, ListTriggersSql)
      && EndsWith(sql, TriggerOrder)
      && (|ps| == 2 <==> FiltersTable(tableName))
      && (|ps| == 2 ==> ps[1] == Varchar("tableName", tableName.value))
      && |ps| <= 2
      && (FiltersTable(tableName) <==> sql[|ListTriggersSql|..] == TableFilter + TriggerOrder)
  {
    var (sql, ps) := ListRequest(tableName, schema);
    assert sql[..|ListTriggersSql|] == ListTriggersSql;
    assert sql[|sql| - |TriggerOrder|..] == TriggerOrder;
    assert sql[|ListTriggersSql|..] == if FiltersTable(tableName) then TableFilter + TriggerOrder else TriggerOrder;
    assert |TableFilter + TriggerOrder| != |TriggerOrder|;
  }

  /** The listing request as the source builds it, appending to the text and pushing
      onto the descriptors. */
  method BuildListRequest(tableName: Option<string>, schema: string)
    returns (query: string, parameters: seq<QueryParameter>)
    ensures (query, parameters) == ListRequest(tableName, schema)
  {
    query := ListTriggersSql;
    parameters := [Varchar("schema", schema)];
    if tableName.Some? && tableName.value != "" {
      query := query + TableFilter;
      parameters := parameters + [Varchar("tableName", tableName.value)];
      assert parameters == [Varchar("schema", schema), Varchar("tableName", tableName.value)];
    }
    query := query + TriggerOrder;
  }

  function ListTitle(tableName: Option<string>, schema: string): string {
    if FiltersTable(tableName) then "資料表 \"" + schema + "." + tableName.value + "\" 的觸發器列表："
    else "Schema \"" + schema + "\" 的所有觸發器列表："
  }

  /** What `listTriggers` makes of the driver's answer. */
  function ListOutcome(result: QueryResult, tableName: Option<string>, schema: string): Result<Reply, Error> {
    var entries := TriggerList(result);
    if entries.Failure? then Failure(Wrapped(ListTriggersStage, entries.error))
    else Success(Reply(ListTitle(tableName, schema) + "\n", EntriesJson(entries.value)))
  }

  function ListTriggersSpec(
    hasPool: bool, respond: Responder, history: seq<Call>, tableName: Option<string>, schema: Option<string>
  ): (Result<Reply, Error>, seq<Call>)
  {
    var s := SchemaOrDefault(schema);
    var (query, parameters) := ListRequest(tableName, s);
    var (answer, after) := QueryStep(hasPool, respond, history, query, Some(parameters));
    match answer
    case Success(result) => (ListOutcome(result, tableName, s), after)
    case Failure(e) => (Failure(Wrapped(ListTriggersStage, e)), after)
  }

  /** The listing has one entry per row, in order, and none without a record set; it
      fails, under the list prefix, only on a row whose events are not text. */
  lemma ListOutcomeEntries(result: QueryResult, tableName: Option<string>, schema: string)
    ensures var r := ListOutcome(result, tableName, schema);
      && (result.recordset.None? ==> r == Success(Reply(ListTitle(tableName, schema) + "\n", Arr([]))))
      && (r.Success? && result.recordset.Some? ==>
            var rows := result.recordset.value;
            && |r.value.body.items| == |rows|
            && forall i :: 0 <= i < |rows| ==> r.value.body.items[i] == EntryJson(EntryOf(rows[i]).value))
      && (r.Failure? ==> r.error == Wrapped(ListTriggersStage, EventsNotText))
  {
    var r := ListOutcome(result, tableName, schema);
    if result.recordset.Some? {
      var rows := result.recordset.value;
      if EntriesOf(rows).Failure? {
        EntriesFailure(rows);
      }
    } else {
      assert EntriesJson([]) == Arr([]);
    }
  }

  /** Every descriptor of the listing is bound; a failure carries the list prefix. */
  lemma ListTriggersOutcome(
    hasPool: bool, respond: Responder, history: seq<Call>, tableName: Option<string>, schema: Option<string>)
    ensures var run := ListTriggersSpec(hasPool, respond, history, tableName, schema);
      var req := ListRequest(tableName, SchemaOrDefault(schema));
      var call := Call(req.0, Bindings(req.1));
      && (hasPool ==> run.1 == history + [call])
      && (hasPool && respond(history, call).Success? ==>
            run.0 == ListOutcome(respond(history, call).value, tableName, SchemaOrDefault(schema)))
      && (hasPool && respond(history, call).Failure? ==>
            run.0 == Failure(Wrapped(ListTriggersStage, Driver(respond(history, call).error))))
      && |Bindings(req.1)| == |req.1|
      && (run.0.Failure? ==> StartsWith(Message(run.0.error), StagePrefix(ListTriggersStage) + ": "))
  {
    VarcharsBound("schema", SchemaOrDefault(schema), "tableName", tableName.GetOr(""));
    var r := ListTriggersSpec(hasPool, respond, history, tableName, schema).0;
    if r.Failure? {
      WrappedMessage(ListTriggersStage, r.error.cause);
    }
  }

  // ---------------------------------------------------------------------------
  // describeTrigger

  /** The describe row mapper. */
  function TriggerInfoOf(row: Row): Result<TriggerInfo, Error> {
    var events := EventsOf(Field(row, "events"));
    if events.Failure? then Failure(events.error)
    else Success(TriggerInfo(
      Field(row, "trigger_name"), Field(row, "schema_name"), Field(row, "table_name"), Field(row, "type_desc"),
      events.value, Field(row, "definition"), IsEnabled(row)))
  }

  function TriggerInfoJson(info: TriggerInfo): Json {
    Obj(map[
      "name" := info.name, "schema" := info.schema, "tableName" := info.tableName, "type" := info.triggerType,
      "events" := StringsJson(info.events), "definition" := info.definition, "isEnabled" := Bool(info.isEnabled)])
  }

  function DescribeTriggerHeading(schema: string, triggerName: string): string {
    "觸發器 \"" + schema + "." + triggerName + "\" 詳細資訊：\n"
  }

  /** What `describeTrigger` makes of the driver's answer: not found without rows,
      otherwise the first row. */
  function DescribeOutcome(result: QueryResult, triggerName: string, schema: string): Result<Reply, Error> {
    if result.recordset.None? || |result.recordset.value| == 0 then
      Failure(Wrapped(DescribeTriggerStage, TriggerNotFound(schema, triggerName)))
    else
      var info := TriggerInfoOf(result.recordset.value[0]);
      if info.Failure? then Failure(Wrapped(DescribeTriggerStage, info.error))
      else Success(Reply(DescribeTriggerHeading(schema, triggerName), TriggerInfoJson(info.value)))
  }

  function DescribeTriggerSpec(
    hasPool: bool, respond: Responder, history: seq<Call>, triggerName: string, schema: Option<string>
  ): (Result<Reply, Error>, seq<Call>)
  {
    var s := SchemaOrDefault(schema);
    var (answer, after) := QueryStep(hasPool, respond, history, DescribeTriggerSql,
      Some([Varchar("triggerName", triggerName), Varchar("schema", s)]));
    match answer
    case Success(result) => (DescribeOutcome(result, triggerName, s), after)
    case Failure(e) => (Failure(Wrapped(DescribeTriggerStage, e)), after)
  }

  /** No rows means not found, reported under the describe prefix with the qualified
      name; rows after the first are never looked at. */
  lemma DescribeOutcomeRules(result: QueryResult, triggerName: string, schema: string)
    ensures result.recordset.None? || result.recordset.value == [] ==>
      && DescribeOutcome(result, triggerName, schema).Failure?
      && Message(DescribeOutcome(result, triggerName, schema).error)
         == StagePrefix(DescribeTriggerStage) + ": " + "找不到觸發器 \"" + schema + "." + triggerName + "\""
    ensures result.recordset.Some? && result.recordset.value != [] ==>
      DescribeOutcome(result, triggerName, schema)
        == DescribeOutcome(result.(recordset := Some([result.recordset.value[0]])), triggerName, schema)
    ensures DescribeOutcome(result, triggerName, schema).Success? ==>
      var row := result.recordset.value[0];
      var fields := DescribeOutcome(result, triggerName, schema).value.body.fields;
      && fields["isEnabled"] == Bool(IsEnabled(row))
      && fields["events"] == StringsJson(EventsOf(Field(row, "events")).value)
      && fields["definition"] == Field(row, "definition")
  {
  }

  /** One request with the trigger name and the schema bound; every failure carries
      the describe prefix. */
  lemma DescribeTriggerOutcome(hasPool: bool, respond: Responder, history: seq<Call>, triggerName: string, schema: Option<string>)
    ensures var s := SchemaOrDefault(schema);
      var call := Call(DescribeTriggerSql,
        [BoundParam("triggerName", Str(triggerName), Some(VarChar)), BoundParam("schema", Str(s), Some(VarChar))]);
      var run := DescribeTriggerSpec(hasPool, respond, history, triggerName, schema);
      && (hasPool ==> run.1 == history + [call])
      && (hasPool && respond(history, call).Success? ==> run.0 == DescribeOutcome(respond(history, call).value, triggerName, s))
      && (run.0.Failure? ==> StartsWith(Message(run.0.error), StagePrefix(DescribeTriggerStage) + ": "))
  {
    VarcharsBound("triggerName", triggerName, "schema", SchemaOrDefault(schema));
    var r := DescribeTriggerSpec(hasPool, respond, history, triggerName, schema).0;
    if r.Failure? {
      WrappedMessage(DescribeTriggerStage, r.error.cause);
    }
  }

  // ---------------------------------------------------------------------------
  // getTriggerDependencies

  const TriggerDependenciesNotice := "無法取得觸發器相依關係資訊: "

  function TriggerDependenciesHeading(fullName: string): string {
    "觸發器 \"" + fullName + "\" 的相依關係：\n"
  }

  /** `getTriggerDependencies`: never fails; a driver error becomes a notice. */
  function TriggerDependenciesSpec(
    hasPool: bool, respond: Responder, history: seq<Call>, triggerName: string, schema: Option<string>
  ): (Report, seq<Call>)
  {
    var fullName := FullName(SchemaOrDefault(schema), triggerName);
    var (answer, after) := QueryStep(hasPool, respond, history, TriggerDependenciesSql,
      Some([Varchar("triggerFullName", fullName)]));
    match answer
    case Success(result) => (Listing(Reply(TriggerDependenciesHeading(fullName), RecordsetJson(result))), after)
    case Failure(e) => (Notice(TriggerDependenciesNotice + Message(e)), after)
  }

  /** The full name `schema.name` is the one descriptor; a failure is reported as a
      notice carrying the error's message, never raised. */
  lemma TriggerDependenciesBestEffort(
    hasPool: bool, respond: Responder, history: seq<Call>, triggerName: string, schema: Option<string>)
    ensures var fullName := SchemaOrDefault(schema) + "." + triggerName;
      var call := Call(TriggerDependenciesSql, [BoundParam("triggerFullName", Str(fullName), Some(VarChar))]);
      var run := TriggerDependenciesSpec(hasPool, respond, history, triggerName, schema);
      && (hasPool ==> run.1 == history + [call])
      && (!hasPool ==> run == (Notice(TriggerDependenciesNotice + Message(NotConnected)), history))
      && (hasPool && respond(history, call).Failure? ==>
            run.0 == Notice(TriggerDependenciesNotice + respond(history, call).error))
      && (hasPool && respond(history, call).Success? ==>
            run.0 == Listing(Reply(TriggerDependenciesHeading(fullName), RecordsetJson(respond(history, call).value))))
  {
    var fullName := SchemaOrDefault(schema) + "." + triggerName;
    VarcharsBound("triggerFullName", fullName, "triggerFullName", fullName);
  }

  // ---------------------------------------------------------------------------
  // The service object

  class TriggerService {
    const db: Manager

    constructor (db: Manager)
      ensures this.db == db
    {
      this.db := db;
    }

    method ListTriggers(tableName: Option<string>, schema: Option<string>) returns (r: Result<Reply, Error>)
      modifies db`calls
      ensures (r, db.calls) == ListTriggersSpec(db.pool.Some?, db.respond, old(db.calls), tableName, schema)
    {
      var s := SchemaOrDefault(schema);
      var query, parameters := BuildListRequest(tableName, s);
      var answer := db.Query(query, Some(parameters));
      if answer.Failure? {
        return Failure(Wrapped(ListTriggersStage, answer.error));
      }
      r := ListOutcome(answer.value, tableName, s);
    }

    method DescribeTrigger(triggerName: string, schema: Option<string>) returns (r: Result<Reply, Error>)
      modifies db`calls
      ensures (r, db.calls) == DescribeTriggerSpec(db.pool.Some?, db.respond, old(db.calls), triggerName, schema)
    {
      var s := SchemaOrDefault(schema);
      var answer := db.Query(DescribeTriggerSql, Some([Varchar("triggerName", triggerName), Varchar("schema", s)]));
      if answer.Failure? {
        return Failure(Wrapped(DescribeTriggerStage, answer.error));
      }
      var result := answer.value;
      if result.recordset.None? || |result.recordset.value| == 0 {
        return Failure(Wrapped(DescribeTriggerStage, TriggerNotFound(s, triggerName)));
      }
      var info := TriggerInfoOf(result.recordset.value[0]);
      if info.Failure? {
        return Failure(Wrapped(DescribeTriggerStage, info.error));
      }
      return Success(Reply(DescribeTriggerHeading(s, triggerName), TriggerInfoJson(info.value)));
    }

    method GetTriggerDependencies(triggerName: string, schema: Option<string>) returns (r: Report)
      modifies db`calls
      ensures (r, db.calls) == TriggerDependenciesSpec(db.pool.Some?, db.respond, old(db.calls), triggerName, schema)
    {
      var fullName := FullName(SchemaOrDefault(schema), triggerName);
      var answer := db.Query(TriggerDependenciesSql, Some([Varchar("triggerFullName", fullName)]));
      match answer
      case Success(result) => r := Listing(Reply(TriggerDependenciesHeading(fullName), RecordsetJson(result)));
      case Failure(e) => r := Notice(TriggerDependenciesNotice + Message(e));
    }
  }
}
