/** The errors the gateway raises, and the message text each one carries. */
module Errors {

  /** The operation whose `catch` block re-throws an error under its own prefix. */
  datatype Stage =
    | QueryStage
    | TransactionStage
    | ExplainStage
    | StatisticsStage
    | ListProceduresStage
    | DescribeProcedureStage
    | ExecuteProcedureStage
    | SearchProceduresStage
    | ListTriggersStage
    | DescribeTriggerStage

  datatype Error =
    | NotConnected
    | Driver(message: string)
    | EmptyQuery
    | Disallowed(queryType: string)
    | EmptyTransaction
    | DisallowedInTransaction(queryType: string)
    | TriggerNotFound(schema: string, name: string)
    | EventsNotText
    | Wrapped(stage: Stage, cause: Error)

  function StagePrefix(s: Stage): string {
    match s
    case QueryStage => "查詢執行失敗"
    case TransactionStage => "交易執行失敗"
    case ExplainStage => "取得執行計畫失敗"
    case StatisticsStage => "取得查詢統計失敗"
    case ListProceduresStage => "取得預存程序列表失敗"
    case DescribeProcedureStage => "描述預存程序失敗"
    case ExecuteProcedureStage => "執行預存程序失敗"
    case SearchProceduresStage => "搜尋預存程序失敗"
    case ListTriggersStage => "取得觸發器列表失敗"
    case DescribeTriggerStage => "描述觸發器失敗"
  }

  /** `error.message`. A wrapped error keeps the message of its cause after the
      stage prefix. `EventsNotText` is the TypeError the engine raises when `split`
      is called on a value that is not a string. */
  function Message(e: Error): string {
    match e
    case NotConnected => "資料庫未連線"
    case Driver(m) => m
    case EmptyQuery => "查詢語句不能為空"
    case Disallowed(t) => "不允許的查詢類型: " + t
    case EmptyTransaction => "交易中必須至少包含一個查詢"
    case DisallowedInTransaction(t) => "交易中包含不允許的查詢類型: " + t
    case TriggerNotFound(schema, name) => "找不到觸發器 \"" + schema + "." + name + "\""
    case EventsNotText => "row.events.split is not a function"
    case Wrapped(s, cause) => StagePrefix(s) + ": " + Message(cause)
  }
}
