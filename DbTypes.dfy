/** The records of `src/types/database.ts` that the gateway reads or produces. */
module DbTypes {
  import opened Wrappers
  import opened JsValues

  /** `QueryParameter`: a name, any value (possibly `undefined`) and an optional type
      name. */
  datatype QueryParameter = QueryParameter(name: string, value: Json, typeName: Option<string>)

  /** `QueryResult`: what the driver returns for one request. */
  datatype QueryResult = QueryResult(
    recordset: Option<seq<Row>>,
    rowsAffected: Option<seq<int>>,
    returnValue: Option<int>)

  datatype PoolSettings = PoolSettings(
    max: int,
    min: int,
    idleTimeoutMillis: int,
    acquireTimeoutMillis: int,
    createTimeoutMillis: int,
    destroyTimeoutMillis: int,
    reapIntervalMillis: int,
    createRetryIntervalMillis: int)

  datatype AuthOptions = AuthOptions(
    domain: Option<string>,
    token: Option<string>,
    clientId: Option<string>,
    clientSecret: Option<string>,
    tenantId: Option<string>)

  datatype Authentication = Authentication(authType: string, options: AuthOptions)

  /** `DatabaseConfig` as the loader fills it: the fields it always sets are plain,
      the ones it may leave `undefined` are options. */
  datatype DatabaseConfig = DatabaseConfig(
    server: string,
    port: int,
    database: string,
    user: string,
    password: string,
    encrypt: bool,
    trustServerCertificate: bool,
    domain: Option<string>,
    instanceName: Option<string>,
    connectionTimeout: int,
    requestTimeout: int,
    cancelTimeout: int,
    enableArithAbort: bool,
    useUTC: bool,
    parseJSON: bool,
    arrayRowMode: bool,
    appName: string,
    workstationId: Option<string>,
    readOnlyIntent: bool,
    stream: bool,
    fallbackToDefaultDb: bool,
    pool: PoolSettings,
    authentication: Option<Authentication>)

  /** `StoredProcedureParameter`, one per row of the parameter catalog query. */
  datatype StoredProcedureParameter = StoredProcedureParameter(
    name: Json,
    typeName: Json,
    maxLength: Json,
    precision: Json,
    scale: Json,
    isOutput: Json,
    hasDefaultValue: Json,
    defaultValue: Json,
    isReadonly: Json)

  /** `StoredProcedureInfo`. Dates are the driver's values, passed through. */
  datatype StoredProcedureInfo = StoredProcedureInfo(
    name: string,
    schema: string,
    definition: Json,
    createDate: Json,
    modifyDate: Json,
    parameters: seq<StoredProcedureParameter>)

  /** `TriggerInfo`. */
  datatype TriggerInfo = TriggerInfo(
    name: Json,
    schema: Json,
    tableName: Json,
    triggerType: Json,
    events: seq<string>,
    definition: Json,
    isEnabled: bool)
}
