/** `MSSQLManager`: the configuration loader, the single connection pool, parameter
    binding and the one `query` primitive every service goes through. The `mssql`
    driver is an oracle: a `Responder` answers each request, given every request sent
    before it, and the outcomes of closing and opening a pool are parameters. */
module MssqlManager {
  import opened Wrappers
  import opened Strings
  import opened JsValues
  import opened Errors
  import opened DbTypes

  // ---------------------------------------------------------------------------
  // Driver types: getSqlType

  datatype SqlType =
    | Int | BigInt | VarChar | NVarChar | Text | NText | DateTime | DateTime2
    | Date | Time | Bit | Float | Decimal | Money | UniqueIdentifier

  /** The lower-case name under which `getSqlType` lists each driver type. */
  function TypeName(t: SqlType): string {
    match t
    case Int => "int"
    case BigInt => "bigint"
    case VarChar => "varchar"
    case NVarChar => "nvarchar"
    case Text => "text"
    case NText => "ntext"
    case DateTime => "datetime"
    case DateTime2 => "datetime2"
    case Date => "date"
    case Time => "time"
    case Bit => "bit"
    case Float => "float"
    case Decimal => "decimal"
    case Money => "money"
    case UniqueIdentifier => "uniqueidentifier"
  }

  /** The `switch` of `getSqlType`, on a name already lower-cased. */
  function TypeFromName(name: string): SqlType {
    if name == "int" then Int
    else if name == "bigint" then BigInt
    else if name == "varchar" then VarChar
    else if name == "nvarchar" then NVarChar
    else if name == "text" then Text
    else if name == "ntext" then NText
    else if name == "datetime" then DateTime
    else if name == "datetime2" then DateTime2
    else if name == "date" then Date
    else if name == "time" then Time
    else if name == "bit" then Bit
    else if name == "float" then Float
    else if name == "decimal" then Decimal
    else if name == "money" then Money
    else if name == "uniqueidentifier" then UniqueIdentifier
    else VarChar
  }

  /** `getSqlType`: the type named by the lower-cased string, `VarChar` by default. */
  function GetSqlType(typeString: string): SqlType {
    TypeFromName(Lower(typeString))
  }

  predicate IsListedTypeName(name: string) {
    exists t :: TypeName(t) == name
  }

  lemma LowerOfLowerCase(s: string)
    requires forall i :: 0 <= i < |s| ==> !('A' <= s[i] <= 'Z')
    ensures Lower(s) == s
  {
  }

  lemma TypeFromNameListed(t: SqlType)
    ensures TypeFromName(TypeName(t)) == t
  {
    match t
    case Int =>
    case BigInt =>
    case VarChar =>
    case NVarChar =>
    case Text =>
    case NText =>
    case DateTime =>
    case DateTime2 =>
    case Date =>
    case Time =>
    case Bit =>
    case Float =>
    case Decimal =>
    case Money =>
    case UniqueIdentifier =>
  }

  /** Every listed name selects its own driver type, in any letter case. */
  lemma GetSqlTypeListed(t: SqlType)
    ensures GetSqlType(TypeName(t)) == t
  {
    var name := TypeName(t);
    assert forall i :: 0 <= i < |name| ==> !('A' <= name[i] <= 'Z') by {
      match t
      case Int =>
      case BigInt =>
      case VarChar =>
      case NVarChar =>
      case Text =>
      case NText =>
      case DateTime =>
      case DateTime2 =>
      case Date =>
      case Time =>
      case Bit =>
      case Float =>
      case Decimal =>
      case Money =>
      case UniqueIdentifier =>
    }
    LowerOfLowerCase(name);
    TypeFromNameListed(t);
  }

  lemma TypeFromNameUnlisted(name: string)
    requires !IsListedTypeName(name)
    ensures TypeFromName(name) == VarChar
  {
    assert name != "int" by { assert TypeName(Int) == "int"; }
    assert name != "bigint" by { assert TypeName(BigInt) == "bigint"; }
    assert name != "nvarchar" by { assert TypeName(NVarChar) == "nvarchar"; }
    assert name != "text" by { assert TypeName(Text) == "text"; }
    assert name != "ntext" by { assert TypeName(NText) == "ntext"; }
    assert name != "datetime" by { assert TypeName(DateTime) == "datetime"; }
    assert name != "datetime2" by { assert TypeName(DateTime2) == "datetime2"; }
    assert name != "date" by { assert TypeName(Date) == "date"; }
    assert name != "time" by { assert TypeName(Time) == "time"; }
    assert name != "bit" by { assert TypeName(Bit) == "bit"; }
    assert name != "float" by { assert TypeName(Float) == "float"; }
    assert name != "decimal" by { assert TypeName(Decimal) == "decimal"; }
    assert name != "money" by { assert TypeName(Money) == "money"; }
    assert name != "uniqueidentifier" by { assert TypeName(UniqueIdentifier) == "uniqueidentifier"; }
  }

  /** The table is the whole of `getSqlType`: a string selects type `t` exactly when its
      lower-cased form is `t`'s listed name, or when `t` is `VarChar` and the
      lower-cased form is no listed name at all. */
  lemma GetSqlTypeTable(s: string, t: SqlType)
    ensures GetSqlType(s) == t <==>
      (Lower(s) == TypeName(t) || (t == VarChar && !IsListedTypeName(Lower(s))))
  {
    var name := Lower(s);
    if IsListedTypeName(name) {
      var u :| TypeName(u) == name;
      TypeFromNameListed(u);
      if TypeName(t) == name {
        assert t == u by {
          if t != u { TypeNameInjective(t, u); }
        }
      }
    } else {
      TypeFromNameUnlisted(name);
    }
  }

  lemma TypeNameInjective(t: SqlType, u: SqlType)
    requires t != u
    ensures TypeName(t) != TypeName(u)
  {
    TypeFromNameListed(t);
    TypeFromNameListed(u);
  }

  /** `getSqlType` ignores letter case. */
  lemma GetSqlTypeIgnoresCase(s: string)
    ensures GetSqlType(Lower(s)) == GetSqlType(s)
  {
    LowerIdempotent(s);
  }

  // ---------------------------------------------------------------------------
  // Parameter binding: the forEach loop of query

  /** One `request.input(...)` call: a name, a value, and a driver type when the
      parameter named one (`None` lets the driver infer it from the value). */
  datatype BoundParam = BoundParam(name: string, value: Json, sqlType: Option<SqlType>)

  /** `param.name && param.value !== undefined`: `null` is bound, `undefined` is not. */
  predicate IsBindable(p: QueryParameter) {
    p.name != "" && p.value != Undefined
  }

  /** `if (param.type)`: an absent or empty type name is no type. */
  predicate HasTypeHint(p: QueryParameter) {
    p.typeName.Some? && p.typeName.value != ""
  }

  function BindOne(p: QueryParameter): BoundParam {
    BoundParam(p.name, p.value, if HasTypeHint(p) then Some(GetSqlType(p.typeName.value)) else None)
  }

  /** The parameters bound for a descriptor list, in list order. */
  function Bindings(ps: seq<QueryParameter>): seq<BoundParam> {
    if ps == [] then []
    else (if IsBindable(ps[0]) then [BindOne(ps[0])] else []) + Bindings(ps[1..])
  }

  /** Binding is done descriptor by descriptor: the bindings of a concatenation are the
      bindings of its parts, in order. */
  lemma {:induction false} BindingsConcat(a: seq<QueryParameter>, b: seq<QueryParameter>)
    ensures Bindings(a + b) == Bindings(a) + Bindings(b)
  {
    if a == [] {
      assert a + b == b;
    } else {
      assert (a + b)[1..] == a[1..] + b;
      BindingsConcat(a[1..], b);
    }
  }

  /** The number of descriptors that qualify for binding. */
  function BindableIndices(ps: seq<QueryParameter>): set<nat> {
    set i: nat | i < |ps| && IsBindable(ps[i])
  }

  function BindableCount(ps: seq<QueryParameter>): nat {
    |BindableIndices(ps)|
  }

  /** As many parameters are bound as there are descriptors with a name and a
      defined value. */
  lemma {:induction false} BindingsCount(ps: seq<QueryParameter>)
    ensures |Bindings(ps)| == BindableCount(ps)
    decreases |ps|
  {
    if ps != [] {
      var n := |ps| - 1;
      var init := ps[..n];
      assert ps == init + [ps[n]];
      BindingsConcat(init, [ps[n]]);
      assert Bindings([ps[n]]) == (if IsBindable(ps[n]) then [BindOne(ps[n])] else []) + Bindings([]);
      BindingsCount(init);
      if IsBindable(ps[n]) {
        assert BindableIndices(ps) == BindableIndices(init) + {n};
      } else {
        assert BindableIndices(ps) == BindableIndices(init);
      }
    } else {
      assert forall i :: i !in BindableIndices(ps);
      assert BindableIndices(ps) == {};
    }
  }

  /** Nothing is bound that no descriptor asked for: each bound parameter is the
      binding of some qualifying descriptor. */
  lemma {:induction false} BindingsSound(ps: seq<QueryParameter>, k: nat)
    requires k < |Bindings(ps)|
    ensures exists i :: 0 <= i < |ps| && IsBindable(ps[i]) && Bindings(ps)[k] == BindOne(ps[i])
  {
    if IsBindable(ps[0]) {
      if k > 0 {
        BindingsSound(ps[1..], k - 1);
        var i :| 0 <= i < |ps[1..]| && IsBindable(ps[1..][i]) && Bindings(ps[1..])[k - 1] == BindOne(ps[1..][i]);
        assert ps[i + 1] == ps[1..][i];
      } else {
        assert Bindings(ps)[0] == BindOne(ps[0]);
      }
    } else {
      BindingsSound(ps[1..], k);
      var i :| 0 <= i < |ps[1..]| && IsBindable(ps[1..][i]) && Bindings(ps[1..])[k] == BindOne(ps[1..][i]);
      assert ps[i + 1] == ps[1..][i];
    }
  }

  /** Every qualifying descriptor is bound, at the position given by the number of
      qualifying descriptors before it. */
  lemma BindingsComplete(ps: seq<QueryParameter>, i: nat)
    requires i < |ps| && IsBindable(ps[i])
    ensures |Bindings(ps[..i])| < |Bindings(ps)|
    ensures Bindings(ps)[|Bindings(ps[..i])|] == BindOne(ps[i])
  {
    assert ps == ps[..i] + [ps[i]] + ps[i + 1..];
    BindingsConcat(ps[..i] + [ps[i]], ps[i + 1..]);
    BindingsConcat(ps[..i], [ps[i]]);
    assert Bindings([ps[i]]) == [BindOne(ps[i])] + Bindings([]);
  }

  /** A bound parameter always has a name and a defined value, and carries a driver
      type exactly when its descriptor named a type. */
  lemma BindingsWellFormed(ps: seq<QueryParameter>, k: nat)
    requires k < |Bindings(ps)|
    ensures Bindings(ps)[k].name != "" && Bindings(ps)[k].value != Undefined
    ensures exists i ::
      && 0 <= i < |ps| && IsBindable(ps[i]) && Bindings(ps)[k].name == ps[i].name
      && (Bindings(ps)[k].sqlType.Some? <==> HasTypeHint(ps[i]))
  {
    BindingsSound(ps, k);
  }

  /** The `forEach` over the descriptors: each qualifying one becomes one
      `request.input(...)` call, in order. */
  method BindParameters(parameters: Option<seq<QueryParameter>>) returns (bound: seq<BoundParam>)
    ensures bound == Bindings(parameters.GetOr([]))
  {
    bound := [];
    if parameters.Some? {
      var ps := parameters.value;
      var i := 0;
      while i < |ps|
        invariant 0 <= i <= |ps|
        invariant bound == Bindings(ps[..i])
      {
        var param := ps[i];
        if param.name != "" && param.value != Undefined {
          if param.typeName.Some? && param.typeName.value != "" {
            bound := bound + [BoundParam(param.name, param.value, Some(GetSqlType(param.typeName.value)))];
          } else {
            bound := bound + [BoundParam(param.name, param.value, None)];
          }
        }
        assert ps[..i + 1] == ps[..i] + [param];
        BindingsConcat(ps[..i], [param]);
        assert Bindings([param]) == (if IsBindable(param) then [BindOne(param)] else []) + Bindings([]);
        i := i + 1;
      }
      assert ps[..|ps|] == ps;
    }
  }

  // ---------------------------------------------------------------------------
  // The driver oracle and the query primitive

  /** One request as the driver receives it: the SQL text and its bound parameters. */
  datatype Call = Call(sql: string, bound: seq<BoundParam>)

  /** The database behind the driver: the answer to a request may depend on every
      request sent before it. A failure carries the driver's message. */
  type Responder = (seq<Call>, Call) -> Result<QueryResult, string>

  /** The outcome of `pool.close()` or `pool.connect()`. */
  datatype Ack = Done | Failed(message: string)

  /** What `query` does given whether a pool is held, the requests sent so far, the
      text and the descriptors: the result and the new request history. */
  function QueryStep(
    hasPool: bool, respond: Responder, history: seq<Call>,
    sql: string, parameters: Option<seq<QueryParameter>>
  ): (Result<QueryResult, Error>, seq<Call>)
  {
    if !hasPool then (Failure(NotConnected), history)
    else
      var call := Call(sql, Bindings(parameters.GetOr([])));
      var answer := match respond(history, call)
        case Success(result) => Success(result)
        case Failure(message) => Failure(Driver(message));
      (answer, history + [call])
  }

  // ---------------------------------------------------------------------------
  // loadConfig

  type Environment = map<string, string>

  /** `process.env.KEY` used as a condition or with `||`: unset and empty are alike. */
  function EnvValue(env: Environment, key: string): Option<string> {
    if key in env && env[key] != "" then Some(env[key]) else None
  }

  function EnvOr(env: Environment, key: string, default: string): string {
    EnvValue(env, key).GetOr(default)
  }

  function EnvNumber(env: Environment, key: string, parseInt: string -> int, default: int): int {
    match EnvValue(env, key)
    case Some(v) => parseInt(v)
    case None => default
  }

  /** `process.env.KEY === value`. */
  predicate EnvIs(env: Environment, key: string, value: string) {
    key in env && env[key] == value
  }

  function AuthOptionsFrom(env: Environment): AuthOptions {
    AuthOptions(
      EnvValue(env, "MSSQL_AUTH_DOMAIN"),
      EnvValue(env, "MSSQL_AUTH_TOKEN"),
      EnvValue(env, "MSSQL_AUTH_CLIENT_ID"),
      EnvValue(env, "MSSQL_AUTH_CLIENT_SECRET"),
      EnvValue(env, "MSSQL_AUTH_TENANT_ID"))
  }

  /** The variables that are set to a non-empty text: in `loadConfig` every read goes
      through `||`, a truthiness test or `===` against a non-empty text, so an empty
      variable counts as unset. */
  function SetVariables(env: Environment): Environment {
    map k | k in env && env[k] != "" :: env[k]
  }

  /** `loadConfig`: the configuration read from the environment. `parseInt` is the
      engine's number parser. */
  function LoadConfig(env: Environment, parseInt: string -> int): DatabaseConfig {
    ConfigFrom(SetVariables(env), parseInt)
  }

  function ConfigFrom(env: Environment, parseInt: string -> int): DatabaseConfig
  {
    DatabaseConfig(
      server := EnvOr(env, "MSSQL_SERVER", "localhost"),
      port := EnvNumber(env, "MSSQL_PORT", parseInt, 1433),
      database := EnvOr(env, "MSSQL_DATABASE", "master"),
      user := EnvOr(env, "MSSQL_USER", "sa"),
      password := EnvOr(env, "MSSQL_PASSWORD", ""),
      encrypt := EnvIs(env, "MSSQL_ENCRYPT", "true"),
      trustServerCertificate := EnvIs(env, "MSSQL_TRUST_SERVER_CERTIFICATE", "true"),
      domain := EnvValue(env, "MSSQL_DOMAIN"),
      instanceName := EnvValue(env, "MSSQL_INSTANCE_NAME"),
      connectionTimeout := EnvNumber(env, "MSSQL_CONNECTION_TIMEOUT", parseInt, 15000),
      requestTimeout := EnvNumber(env, "MSSQL_REQUEST_TIMEOUT", parseInt, 15000),
      cancelTimeout := EnvNumber(env, "MSSQL_CANCEL_TIMEOUT", parseInt, 5000),
      enableArithAbort := EnvIs(env, "MSSQL_ENABLE_ARITH_ABORT", "true"),
      useUTC := !EnvIs(env, "MSSQL_USE_UTC", "false"),
      parseJSON := EnvIs(env, "MSSQL_PARSE_JSON", "true"),
      arrayRowMode := EnvIs(env, "MSSQL_ARRAY_ROW_MODE", "true"),
      appName := EnvOr(env, "MSSQL_APP_NAME", "mssql-server-mcp"),
      workstationId := EnvValue(env, "MSSQL_WORKSTATION_ID"),
      readOnlyIntent := EnvIs(env, "MSSQL_READ_ONLY_INTENT", "true"),
      stream := EnvIs(env, "MSSQL_STREAM", "true"),
      fallbackToDefaultDb := EnvIs(env, "MSSQL_FALLBACK_TO_DEFAULT_DB", "true"),
      pool := PoolSettings(
        max := EnvNumber(env, "MSSQL_POOL_MAX", parseInt, 10),
        min := EnvNumber(env, "MSSQL_POOL_MIN", parseInt, 0),
        idleTimeoutMillis := EnvNumber(env, "MSSQL_POOL_IDLE_TIMEOUT", parseInt, 30000),
        acquireTimeoutMillis := EnvNumber(env, "MSSQL_POOL_ACQUIRE_TIMEOUT", parseInt, 60000),
        createTimeoutMillis := EnvNumber(env, "MSSQL_POOL_CREATE_TIMEOUT", parseInt, 30000),
        destroyTimeoutMillis := EnvNumber(env, "MSSQL_POOL_DESTROY_TIMEOUT", parseInt, 5000),
        reapIntervalMillis := EnvNumber(env, "MSSQL_POOL_REAP_INTERVAL", parseInt, 1000),
        createRetryIntervalMillis := EnvNumber(env, "MSSQL_POOL_CREATE_RETRY_INTERVAL", parseInt, 200)),
      authentication :=
        if EnvValue(env, "MSSQL_AUTH_TYPE").Some? && EnvValue(env, "MSSQL_AUTH_TYPE").value != "default"
        then Some(Authentication(EnvValue(env, "MSSQL_AUTH_TYPE").value, AuthOptionsFrom(env)))
        else None)
  }

  /** The configuration of an empty environment. */
  const DefaultConfig := DatabaseConfig(
    server := "localhost", port := 1433, database := "master", user := "sa", password := "",
    encrypt := false, trustServerCertificate := false, domain := None, instanceName := None,
    connectionTimeout := 15000, requestTimeout := 15000, cancelTimeout := 5000,
    enableArithAbort := false, useUTC := true, parseJSON := false, arrayRowMode := false,
    appName := "mssql-server-mcp", workstationId := None, readOnlyIntent := false,
    stream := false, fallbackToDefaultDb := false,
    pool := PoolSettings(10, 0, 30000, 60000, 30000, 5000, 1000, 200),
    authentication := None)

  /** With nothing set, every field takes its documented default. */
  lemma LoadConfigDefaults(parseInt: string -> int)
    ensures LoadConfig(map[], parseInt) == DefaultConfig
  {
  }

  /** Boolean switches: on only for the exact text `true`, except `useUTC`, which is
      off only for the exact text `false`. */
  lemma LoadConfigFlags(env: Environment, parseInt: string -> int)
    ensures var c := LoadConfig(env, parseInt);
      && (c.encrypt <==> EnvIs(env, "MSSQL_ENCRYPT", "true"))
      && (c.trustServerCertificate <==> EnvIs(env, "MSSQL_TRUST_SERVER_CERTIFICATE", "true"))
      && (c.enableArithAbort <==> EnvIs(env, "MSSQL_ENABLE_ARITH_ABORT", "true"))
      && (c.useUTC <==> !EnvIs(env, "MSSQL_USE_UTC", "false"))
      && (c.parseJSON <==> EnvIs(env, "MSSQL_PARSE_JSON", "true"))
      && (c.arrayRowMode <==> EnvIs(env, "MSSQL_ARRAY_ROW_MODE", "true"))
      && (c.readOnlyIntent <==> EnvIs(env, "MSSQL_READ_ONLY_INTENT", "true"))
      && (c.stream <==> EnvIs(env, "MSSQL_STREAM", "true"))
      && (c.fallbackToDefaultDb <==> EnvIs(env, "MSSQL_FALLBACK_TO_DEFAULT_DB", "true"))
  {
  }

  /** Authentication is configured exactly when `MSSQL_AUTH_TYPE` is set to something
      other than `default`; its options are the `MSSQL_AUTH_*` variables that are set. */
  lemma LoadConfigAuthentication(env: Environment, parseInt: string -> int)
    ensures var c := LoadConfig(env, parseInt);
      && (c.authentication.Some? <==>
           ("MSSQL_AUTH_TYPE" in env && env["MSSQL_AUTH_TYPE"] != "" && env["MSSQL_AUTH_TYPE"] != "default"))
      && (c.authentication.Some? ==> c.authentication.value.authType == env["MSSQL_AUTH_TYPE"])
      && (c.authentication.Some? ==>
           var o := c.authentication.value.options;
           && (o.domain.Some? <==> "MSSQL_AUTH_DOMAIN" in env && env["MSSQL_AUTH_DOMAIN"] != "")
           && (o.token.Some? <==> "MSSQL_AUTH_TOKEN" in env && env["MSSQL_AUTH_TOKEN"] != "")
           && (o.clientId.Some? <==> "MSSQL_AUTH_CLIENT_ID" in env && env["MSSQL_AUTH_CLIENT_ID"] != "")
           && (o.clientSecret.Some? <==> "MSSQL_AUTH_CLIENT_SECRET" in env && env["MSSQL_AUTH_CLIENT_SECRET"] != "")
           && (o.tenantId.Some? <==> "MSSQL_AUTH_TENANT_ID" in env && env["MSSQL_AUTH_TENANT_ID"] != ""))
  {
  }

  /** A variable set to the empty string reads exactly like an unset one. */
  lemma LoadConfigEmptyIsUnset(env: Environment, key: string, parseInt: string -> int)
    ensures LoadConfig(env[key := ""], parseInt) == LoadConfig(env - {key}, parseInt)
  {
    assert SetVariables(env[key := ""]) == SetVariables(env - {key});
  }

  /** One numeric setting read from the set variables. */
  lemma EnvNumberSet(env: Environment, key: string, parseInt: string -> int, default: int)
    ensures EnvNumber(SetVariables(env), key, parseInt, default)
      == if EnvValue(env, key).Some? then parseInt(env[key]) else default
  {
    assert (key in SetVariables(env)) <==> EnvValue(env, key).Some?;
  }

  /** Numeric settings: the parsed variable when it is set, the default otherwise. */
  lemma LoadConfigNumbers(env: Environment, parseInt: string -> int)
    ensures var c := LoadConfig(env, parseInt);
      && c.port == (if EnvValue(env, "MSSQL_PORT").Some? then parseInt(env["MSSQL_PORT"]) else 1433)
      && c.connectionTimeout == (if EnvValue(env, "MSSQL_CONNECTION_TIMEOUT").Some? then parseInt(env["MSSQL_CONNECTION_TIMEOUT"]) else 15000)
      && c.requestTimeout == (if EnvValue(env, "MSSQL_REQUEST_TIMEOUT").Some? then parseInt(env["MSSQL_REQUEST_TIMEOUT"]) else 15000)
      && c.cancelTimeout == (if EnvValue(env, "MSSQL_CANCEL_TIMEOUT").Some? then parseInt(env["MSSQL_CANCEL_TIMEOUT"]) else 5000)
      && c.pool.max == (if EnvValue(env, "MSSQL_POOL_MAX").Some? then parseInt(env["MSSQL_POOL_MAX"]) else 10)
      && c.pool.min == (if EnvValue(env, "MSSQL_POOL_MIN").Some? then parseInt(env["MSSQL_POOL_MIN"]) else 0)
      && c.pool.idleTimeoutMillis
         == (if EnvValue(env, "MSSQL_POOL_IDLE_TIMEOUT").Some? then parseInt(env["MSSQL_POOL_IDLE_TIMEOUT"]) else 30000)
      && c.pool.acquireTimeoutMillis
         == (if EnvValue(env, "MSSQL_POOL_ACQUIRE_TIMEOUT").Some? then parseInt(env["MSSQL_POOL_ACQUIRE_TIMEOUT"]) else 60000)
      && c.pool.createTimeoutMillis
         == (if EnvValue(env, "MSSQL_POOL_CREATE_TIMEOUT").Some? then parseInt(env["MSSQL_POOL_CREATE_TIMEOUT"]) else 30000)
      && c.pool.destroyTimeoutMillis
         == (if EnvValue(env, "MSSQL_POOL_DESTROY_TIMEOUT").Some? then parseInt(env["MSSQL_POOL_DESTROY_TIMEOUT"]) else 5000)
      && c.pool.reapIntervalMillis
         == (if EnvValue(env, "MSSQL_POOL_REAP_INTERVAL").Some? then parseInt(env["MSSQL_POOL_REAP_INTERVAL"]) else 1000)
      && c.pool.createRetryIntervalMillis
         == (if EnvValue(env, "MSSQL_POOL_CREATE_RETRY_INTERVAL").Some? then parseInt(env["MSSQL_POOL_CREATE_RETRY_INTERVAL"]) else 200)
  {
    EnvNumberSet(env, "MSSQL_PORT", parseInt, 1433);
    EnvNumberSet(env, "MSSQL_CONNECTION_TIMEOUT", parseInt, 15000);
    EnvNumberSet(env, "MSSQL_REQUEST_TIMEOUT", parseInt, 15000);
    EnvNumberSet(env, "MSSQL_CANCEL_TIMEOUT", parseInt, 5000);
    EnvNumberSet(env, "MSSQL_POOL_MAX", parseInt, 10);
    EnvNumberSet(env, "MSSQL_POOL_MIN", parseInt, 0);
    EnvNumberSet(env, "MSSQL_POOL_IDLE_TIMEOUT", parseInt, 30000);
    EnvNumberSet(env, "MSSQL_POOL_ACQUIRE_TIMEOUT", parseInt, 60000);
    EnvNumberSet(env, "MSSQL_POOL_CREATE_TIMEOUT", parseInt, 30000);
    EnvNumberSet(env, "MSSQL_POOL_DESTROY_TIMEOUT", parseInt, 5000);
    EnvNumberSet(env, "MSSQL_POOL_REAP_INTERVAL", parseInt, 1000);
    EnvNumberSet(env, "MSSQL_POOL_CREATE_RETRY_INTERVAL", parseInt, 200);
  }

  // ---------------------------------------------------------------------------
  // The pool configuration handed to the driver

  function OptionalText(o: Option<string>): Json {
    match o
    case Some(s) => Str(s)
    case None => Undefined
  }

  function PoolJson(p: PoolSettings): Json {
    Obj(map[
      "max" := Num(p.max),
      "min" := Num(p.min),
      "idleTimeoutMillis" := Num(p.idleTimeoutMillis),
      "acquireTimeoutMillis" := Num(p.acquireTimeoutMillis),
      "createTimeoutMillis" := Num(p.createTimeoutMillis),
      "destroyTimeoutMillis" := Num(p.destroyTimeoutMillis),
      "reapIntervalMillis" := Num(p.reapIntervalMillis),
      "createRetryIntervalMillis" := Num(p.createRetryIntervalMillis)])
  }

  /** The authentication options object: only the options the loader set. */
  function AuthOptionsJson(o: AuthOptions): map<string, Json> {
    (if o.domain.Some? then map["domain" := Str(o.domain.value)] else map[])
    + (if o.token.Some? then map["token" := Str(o.token.value)] else map[])
    + (if o.clientId.Some? then map["clientId" := Str(o.clientId.value)] else map[])
    + (if o.clientSecret.Some? then map["clientSecret" := Str(o.clientSecret.value)] else map[])
    + (if o.tenantId.Some? then map["tenantId" := Str(o.tenantId.value)] else map[])
  }

  function AuthJson(a: Authentication): Json {
    Obj(map["type" := Str(a.authType), "options" := Obj(AuthOptionsJson(a.options))])
  }

  /** The `options` object literal of `connect`. */
  function OptionsJson(c: DatabaseConfig): map<string, Json> {
    map[
      "encrypt" := Bool(c.encrypt),
      "trustServerCertificate" := Bool(c.trustServerCertificate),
      "enableArithAbort" := Bool(c.enableArithAbort),
      "instanceName" := OptionalText(c.instanceName),
      "useUTC" := Bool(c.useUTC),
      "appName" := Str(c.appName),
      "workstationId" := OptionalText(c.workstationId),
      "readOnlyIntent" := Bool(c.readOnlyIntent),
      "fallbackToDefaultDb" := Bool(c.fallbackToDefaultDb)]
  }

  /** The `poolConfig` object literal of `connect`, before anything is removed. */
  function RawPoolConfig(c: DatabaseConfig): map<string, Json> {
    map[
      "server" := Str(c.server),
      "port" := Num(c.port),
      "database" := Str(c.database),
      "user" := Str(c.user),
      "password" := Str(c.password),
      "domain" := OptionalText(c.domain),
      "options" := Obj(OptionsJson(c)),
      "connectionTimeout" := Num(c.connectionTimeout),
      "requestTimeout" := Num(c.requestTimeout),
      "cancelTimeout" := Num(c.cancelTimeout),
      "parseJSON" := Bool(c.parseJSON),
      "arrayRowMode" := Bool(c.arrayRowMode),
      "stream" := Bool(c.stream),
      "pool" := PoolJson(c.pool)]
  }

  /** The object as it stands before the clean-up: the literal plus `authentication`
      when the configuration has one. */
  function PoolConfigWithAuth(c: DatabaseConfig): map<string, Json> {
    if c.authentication.Some? then RawPoolConfig(c)["authentication" := AuthJson(c.authentication.value)]
    else RawPoolConfig(c)
  }

  /** The optional entries of the `options` literal. */
  lemma OptionsEntries(c: DatabaseConfig)
    ensures "instanceName" in OptionsJson(c) && OptionsJson(c)["instanceName"] == OptionalText(c.instanceName)
    ensures "workstationId" in OptionsJson(c) && OptionsJson(c)["workstationId"] == OptionalText(c.workstationId)
  {
    var o := OptionsJson(c);
    assert o == OptionsJson(c)["instanceName" := OptionalText(c.instanceName)];
    assert o == OptionsJson(c)["workstationId" := OptionalText(c.workstationId)];
  }

  /** The entries of the literal itself: `options` and `domain`. */
  lemma RawPoolConfigEntries(c: DatabaseConfig)
    ensures "options" in RawPoolConfig(c) && RawPoolConfig(c)["options"] == Obj(OptionsJson(c))
    ensures "domain" in RawPoolConfig(c) && RawPoolConfig(c)["domain"] == OptionalText(c.domain)
  {
    var raw := RawPoolConfig(c);
    assert raw == RawPoolConfig(c)["options" := Obj(OptionsJson(c))];
    assert raw == RawPoolConfig(c)["domain" := OptionalText(c.domain)];
  }

  /** The literal has no `authentication` entry. */
  lemma RawPoolConfigWithoutAuth(c: DatabaseConfig)
    ensures "authentication" !in RawPoolConfig(c)
  {
    var keys := RawPoolConfig(c).Keys;
    assert forall k | k in keys :: |k| != 14 || k[0] == 'r';
  }

  /** The entries of the literal that the rest of `connect` depends on. */
  lemma PoolConfigEntries(c: DatabaseConfig)
    ensures var top := PoolConfigWithAuth(c);
      && "options" in top && top["options"] == Obj(OptionsJson(c))
      && "domain" in top && top["domain"] == OptionalText(c.domain)
      && ("authentication" in top <==> c.authentication.Some?)
      && (c.authentication.Some? ==> top["authentication"] != Undefined)
      && "instanceName" in OptionsJson(c) && OptionsJson(c)["instanceName"] == OptionalText(c.instanceName)
      && "workstationId" in OptionsJson(c) && OptionsJson(c)["workstationId"] == OptionalText(c.workstationId)
  {
    RawPoolConfigEntries(c);
    RawPoolConfigWithoutAuth(c);
    OptionsEntries(c);
  }

  /** An object without its `undefined` properties. */
  function DefinedEntries(m: map<string, Json>): map<string, Json> {
    map k | k in m && m[k] != Undefined :: m[k]
  }

  /** The configuration the driver receives for `c`: the literal with `authentication`
      added when present, without its `undefined` properties at the top level and
      under `options`. */
  function DriverConfig(c: DatabaseConfig): map<string, Json> {
    DefinedEntries(PoolConfigWithAuth(c))["options" := Obj(DefinedEntries(OptionsJson(c)))]
  }

  /** `Object.keys(o).forEach(key => { if (o[key] === undefined) delete o[key]; })`:
      the defined properties survive unchanged and nothing else does. */
  method StripUndefined(obj: map<string, Json>) returns (r: map<string, Json>)
    ensures r == DefinedEntries(obj)
    ensures NoUndefined(r)
    ensures forall k :: k in obj && obj[k] != Undefined ==> k in r && r[k] == obj[k]
  {
    r := obj;
    var keys := obj.Keys;
    while keys != {}
      invariant keys <= obj.Keys
      invariant forall k :: k in r ==> k in obj && r[k] == obj[k]
      invariant forall k :: k in obj && obj[k] != Undefined ==> k in r
      invariant forall k :: k in r && k !in keys ==> r[k] != Undefined
      decreases keys
    {
      var key :| key in keys;
      if key in r && r[key] == Undefined {
        r := r - {key};
      }
      keys := keys - {key};
    }
    assert r == DefinedEntries(obj);
  }

  /** The `poolConfig` preparation of `connect`: the literal, the `authentication`
      entry, and the two clean-up loops. */
  method PreparePoolConfig(c: DatabaseConfig) returns (settings: map<string, Json>)
    ensures settings == DriverConfig(c)
  {
    var poolConfig := RawPoolConfig(c);
    if c.authentication.Some? {
      poolConfig := poolConfig["authentication" := AuthJson(c.authentication.value)];
    }
    assert poolConfig == PoolConfigWithAuth(c);
    PoolConfigEntries(c);
    var top := StripUndefined(poolConfig);
    assert "options" in top && top["options"] == Obj(OptionsJson(c));
    var options := StripUndefined(top["options"].fields);
    settings := top["options" := Obj(options)];
  }

  /** No `undefined` is left where `connect` cleans. */
  lemma DriverConfigClean(c: DatabaseConfig)
    ensures var settings := DriverConfig(c);
      && NoUndefined(settings)
      && "options" in settings && settings["options"].Obj?
      && NoUndefined(settings["options"].fields)
  {
  }

  /** `domain`, `instanceName`, `workstationId` and `authentication` reach the driver
      exactly when they are configured. */
  lemma DriverConfigOptional(c: DatabaseConfig)
    ensures var settings := DriverConfig(c);
      && ("authentication" in settings <==> c.authentication.Some?)
      && ("domain" in settings <==> c.domain.Some?)
      && "options" in settings && settings["options"].Obj?
      && ("instanceName" in settings["options"].fields <==> c.instanceName.Some?)
      && ("workstationId" in settings["options"].fields <==> c.workstationId.Some?)
  {
    PoolConfigEntries(c);
    var top := PoolConfigWithAuth(c);
    assert "domain" in DefinedEntries(top) <==> c.domain.Some?;
  }

  lemma DriverConfigEntry(c: DatabaseConfig, k: string)
    requires k != "options" && k in PoolConfigWithAuth(c) && PoolConfigWithAuth(c)[k] != Undefined
    ensures k in DriverConfig(c) && DriverConfig(c)[k] == PoolConfigWithAuth(c)[k]
  {
    var top := PoolConfigWithAuth(c);
    assert k in DefinedEntries(top) && DefinedEntries(top)[k] == top[k];
  }

  /** The credentials are passed unchanged: the password even when it is empty, and
      the authentication block when one is configured. */
  lemma DriverConfigKeepsCredentials(c: DatabaseConfig)
    ensures "password" in DriverConfig(c) && DriverConfig(c)["password"] == Str(c.password)
    ensures c.authentication.Some? ==>
      "authentication" in DriverConfig(c) && DriverConfig(c)["authentication"] == AuthJson(c.authentication.value)
  {
    var top := PoolConfigWithAuth(c);
    assert "password" in top && top["password"] == Str(c.password);
    DriverConfigEntry(c, "password");
    if c.authentication.Some? {
      assert "authentication" in top && top["authentication"] == AuthJson(c.authentication.value);
      DriverConfigEntry(c, "authentication");
    }
  }

  /** The pool settings are passed unchanged. */
  lemma DriverConfigKeepsPool(c: DatabaseConfig)
    ensures "pool" in DriverConfig(c) && DriverConfig(c)["pool"] == PoolJson(c.pool)
  {
    var top := PoolConfigWithAuth(c);
    assert "pool" in top && top["pool"] == PoolJson(c.pool);
    DriverConfigEntry(c, "pool");
  }

  /** The target entries of the literal. */
  lemma RawPoolConfigTarget(c: DatabaseConfig)
    ensures "server" in RawPoolConfig(c) && RawPoolConfig(c)["server"] == Str(c.server)
    ensures "port" in RawPoolConfig(c) && RawPoolConfig(c)["port"] == Num(c.port)
    ensures "database" in RawPoolConfig(c) && RawPoolConfig(c)["database"] == Str(c.database)
    ensures "user" in RawPoolConfig(c) && RawPoolConfig(c)["user"] == Str(c.user)
  {
    var raw := RawPoolConfig(c);
    assert raw == RawPoolConfig(c)["server" := Str(c.server)];
    assert raw == RawPoolConfig(c)["port" := Num(c.port)];
    assert raw == RawPoolConfig(c)["database" := Str(c.database)];
    assert raw == RawPoolConfig(c)["user" := Str(c.user)];
  }

  /** Where the driver connects: the configured server, port, database and user. */
  lemma DriverTargetEntries(c: DatabaseConfig)
    ensures "server" in DriverConfig(c) && DriverConfig(c)["server"] == Str(c.server)
    ensures "port" in DriverConfig(c) && DriverConfig(c)["port"] == Num(c.port)
    ensures "database" in DriverConfig(c) && DriverConfig(c)["database"] == Str(c.database)
    ensures "user" in DriverConfig(c) && DriverConfig(c)["user"] == Str(c.user)
  {
    RawPoolConfigTarget(c);
    DriverConfigEntry(c, "server");
    DriverConfigEntry(c, "port");
    DriverConfigEntry(c, "database");
    DriverConfigEntry(c, "user");
  }

  /** The fields the debug log prints: never the password. */
  function DebugSummary(c: DatabaseConfig): (m: map<string, Json>)
    ensures "password" !in m
    ensures "authType" in m && (c.authentication.None? ==> m["authType"] == Str("default"))
  {
    map[
      "server" := Str(c.server),
      "port" := Num(c.port),
      "database" := Str(c.database),
      "user" := Str(c.user),
      "encrypt" := Bool(c.encrypt),
      "authType" := Str(if c.authentication.Some? && c.authentication.value.authType != "" then c.authentication.value.authType else "default"),
      "poolMax" := Num(c.pool.max),
      "poolMin" := Num(c.pool.min)]
  }

  // ---------------------------------------------------------------------------
  // The manager

  /** A pool the manager created: its id, the configuration it was given, and whether
      its `connect()` succeeded. */
  datatype Pool = Pool(id: nat, settings: map<string, Json>, connected: bool)

  /** What the manager asked of the driver's pools, with the outcome. */
  datatype PoolAction =
    | Create(id: nat, settings: map<string, Json>)
    | Open(id: nat, ok: bool)
    | Close(id: nat, ok: bool)

  /** The pools created and not yet closed successfully. */
  function Live(log: seq<PoolAction>): set<nat> {
    if log == [] then {}
    else
      var rest := Live(log[..|log| - 1]);
      match log[|log| - 1]
      case Create(id, _) => rest + {id}
      case Open(_, _) => rest
      case Close(id, ok) => if ok then rest - {id} else rest
  }

  /** The effect of one more action on the live pools. */
  lemma LiveSnoc(log: seq<PoolAction>, a: PoolAction)
    ensures a.Create? ==> Live(log + [a]) == Live(log) + {a.id}
    ensures a.Open? ==> Live(log + [a]) == Live(log)
    ensures a.Close? ==> Live(log + [a]) == if a.ok then Live(log) - {a.id} else Live(log)
  {
    assert (log + [a])[..|log|] == log;
  }

  /** Creating and opening a fresh pool after every pool was closed leaves exactly
      that pool alive, and keeps every logged id below the next one. */
  lemma CreateOpenLog(log: seq<PoolAction>, id: nat, settings: map<string, Json>, ok: bool)
    requires Live(log) == {}
    requires forall i :: 0 <= i < |log| ==> log[i].id < id
    ensures Live(log + [Create(id, settings), Open(id, ok)]) == {id}
    ensures forall i :: 0 <= i < |log| + 2 ==> (log + [Create(id, settings), Open(id, ok)])[i].id < id + 1
  {
    LiveSnoc(log, Create(id, settings));
    LiveSnoc(log + [Create(id, settings)], Open(id, ok));
    assert log + [Create(id, settings), Open(id, ok)] == log + [Create(id, settings)] + [Open(id, ok)];
    var log2 := log + [Create(id, settings), Open(id, ok)];
    forall i | 0 <= i < |log2| ensures log2[i].id < id + 1 {
      if i < |log| {
        assert log2[i] == log[i];
      }
    }
  }

  function Held(pool: Option<Pool>): set<nat> {
    if pool.Some? then {pool.value.id} else {}
  }

  datatype ConnectionInfo = ConnectionInfo(server: string, port: int, database: string, user: string)

  class Manager {
    const config: DatabaseConfig
    const respond: Responder
    var pool: Option<Pool>
    var nextPoolId: nat
    var poolLog: seq<PoolAction>
    var calls: seq<Call>

    /** Every pool that was created and not closed is the one held in the field. */
    ghost predicate Valid()
      reads this`pool, this`nextPoolId, this`poolLog
    {
      && Live(poolLog) <= Held(pool)
      && (pool.Some? ==> pool.value.id < nextPoolId)
      && (forall i :: 0 <= i < |poolLog| ==> poolLog[i].id < nextPoolId)
    }

    constructor (env: Environment, parseInt: string -> int, respond: Responder)
      ensures Valid()
      ensures config == LoadConfig(env, parseInt) && this.respond == respond
      ensures pool.None? && poolLog == [] && calls == []
    {
      config := LoadConfig(env, parseInt);
      this.respond := respond;
      pool := None;
      nextPoolId := 0;
      poolLog := [];
      calls := [];
    }

    /** At most one pool is ever alive. */
    lemma AtMostOneLivePool()
      requires Valid()
      ensures |Live(poolLog)| <= 1
    {
      if pool.Some? {
        if pool.value.id in Live(poolLog) {
          assert Live(poolLog) == {pool.value.id};
        } else {
          assert Live(poolLog) == {};
        }
      } else {
        assert Live(poolLog) == {};
      }
    }

    /** `isConnected()`. */
    function IsConnected(): (b: bool)
      reads this`pool
      ensures b ==> pool.Some?
    {
      pool.Some? && pool.value.connected
    }

    /** `getConnectionInfo()`: where the manager connects, without credentials. */
    function GetConnectionInfo(): ConnectionInfo {
      ConnectionInfo(config.server, config.port, config.database, config.user)
    }

    /** The reported server, port, database and user are the ones the driver is given,
        so the information names where a pool actually connects. */
    lemma ConnectionInfoIsDriverTarget()
      ensures var info := GetConnectionInfo(); var settings := DriverConfig(config);
        && "server" in settings && settings["server"] == Str(info.server)
        && "port" in settings && settings["port"] == Num(info.port)
        && "database" in settings && settings["database"] == Str(info.database)
        && "user" in settings && settings["user"] == Str(info.user)
    {
      DriverTargetEntries(config);
    }

    /** The second half of `connect()`: create a pool for the prepared configuration,
        hold it, and open it. */
    method OpenNewPool(openAck: Ack) returns (r: Outcome<Error>)
      requires Valid() && Live(poolLog) == {}
      modifies this`pool, this`nextPoolId, this`poolLog
      ensures Valid()
      ensures pool.Some? && pool.value.id == old(nextPoolId) && nextPoolId == old(nextPoolId) + 1
      ensures pool.value.settings == DriverConfig(config)
      ensures poolLog == old(poolLog) + [Create(pool.value.id, pool.value.settings), Open(pool.value.id, openAck.Done?)]
      ensures pool.value.connected == openAck.Done?
      ensures r == (if openAck.Done? then Pass else Fail(Driver(openAck.message)))
      ensures Live(poolLog) == {pool.value.id}
    {
      var settings := PreparePoolConfig(config);
      var id := nextPoolId;
      CreateOpenLog(poolLog, id, settings, openAck.Done?);
      nextPoolId := nextPoolId + 1;
      pool := Some(Pool(id, settings, false));
      poolLog := poolLog + [Create(id, settings), Open(id, openAck.Done?)];
      if openAck.Failed? {
        return Fail(Driver(openAck.message));
      }
      pool := Some(Pool(id, settings, true));
      r := Pass;
    }

    /** `connect()`: close the held pool, if any (a failed close aborts with the
        driver's error and keeps the old pool), then create and open a new one. */
    method Connect(closeAck: Ack, openAck: Ack) returns (r: Outcome<Error>)
      requires Valid()
      modifies this`pool, this`nextPoolId, this`poolLog
      ensures Valid()
      ensures old(pool).Some? && closeAck.Failed? ==>
        && r == Fail(Driver(closeAck.message))
        && pool == old(pool) && nextPoolId == old(nextPoolId)
        && poolLog == old(poolLog) + [Close(old(pool).value.id, false)]
      ensures !(old(pool).Some? && closeAck.Failed?) ==>
        && pool.Some? && pool.value.id == old(nextPoolId)
        && pool.value.settings == DriverConfig(config)
        && poolLog == old(poolLog)
             + (if old(pool).Some? then [Close(old(pool).value.id, true)] else [])
             + [Create(pool.value.id, pool.value.settings), Open(pool.value.id, openAck.Done?)]
        && pool.value.connected == openAck.Done?
        && r == (if openAck.Done? then Pass else Fail(Driver(openAck.message)))
      ensures r.Pass? ==> IsConnected() && Live(poolLog) == {pool.value.id}
    {
      ghost var log0 := poolLog;
      if pool.Some? {
        var closing := Close(pool.value.id, closeAck.Done?);
        LiveSnoc(poolLog, closing);
        poolLog := poolLog + [closing];
        if closeAck.Failed? {
          return Fail(Driver(closeAck.message));
        }
      }
      ghost var log1 := poolLog;
      assert log1 == log0 + (if old(pool).Some? then [Close(old(pool).value.id, true)] else []);
      r := OpenNewPool(openAck);
    }

    /** `disconnect()`: close the held pool and forget it; nothing to do without one. */
    method Disconnect(closeAck: Ack) returns (r: Outcome<Error>)
      requires Valid()
      modifies this`pool, this`poolLog
      ensures Valid()
      ensures old(pool).None? ==> r == Pass && pool.None? && poolLog == old(poolLog)
      ensures old(pool).Some? ==>
        && poolLog == old(poolLog) + [Close(old(pool).value.id, closeAck.Done?)]
        && (closeAck.Done? ==> r == Pass && pool.None?)
        && (closeAck.Failed? ==> r == Fail(Driver(closeAck.message)) && pool == old(pool))
      ensures r.Pass? ==> !IsConnected() && Live(poolLog) == {}
    {
      if pool.Some? {
        poolLog := poolLog + [Close(pool.value.id, closeAck.Done?)];
        if closeAck.Failed? {
          return Fail(Driver(closeAck.message));
        }
        pool := None;
      }
      r := Pass;
    }

    /** `query(text, parameters)`: refuse without a pool; otherwise bind the parameters
      and send one request to the driver. */
    method Query(sql: string, parameters: Option<seq<QueryParameter>>) returns (r: Result<QueryResult, Error>)
      modifies this`calls
      ensures (r, calls) == QueryStep(pool.Some?, respond, old(calls), sql, parameters)
      ensures pool.None? ==> r == Failure(NotConnected) && calls == old(calls)
    {
      if pool.None? {
        return Failure(NotConnected);
      }
      var bound := BindParameters(parameters);
      var call := Call(sql, bound);
      var answer := respond(calls, call);
      calls := calls + [call];
      match answer
      case Success(result) => r := Success(result);
      case Failure(message) => r := Failure(Driver(message));
    }
  }
}
