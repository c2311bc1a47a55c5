/**
 * Values a failed call can throw, and the ordered classification `getErrorMessage`
 * (lib/utils.ts) that turns any of them into a message for the user.
 */
module Errors {
  import opened Wrappers
  import Text

  /** The part of an Axios error's `response` the application reads. */
  datatype AxiosResponse = AxiosResponse(
    status: Option<int>,          // response.status
    serverMessage: Option<string> // response.data.message, when it is a string
  )

  /** Anything a rejected promise can carry. */
  datatype Thrown =
    | AxiosError(message: string, response: Option<AxiosResponse>, requestSent: bool)
    | PlainError(message: string)   // an `Error` that is not an Axios error
    | OtherValue(text: string)      // any non-Error value, given by `String(value)`

  /** Every thrown `Error`, Axios or not, has a `message`. */
  predicate IsError(e: Thrown) {
    !e.OtherValue?
  }

  /** The fixed messages for well-known HTTP statuses, in the order the checks run. */
  const StatusMessages: seq<(int, string)> := [
    (401, "Сессия истекла. Пожалуйста, войдите заново."),
    (403, "Доступ запрещён."),
    (404, "Ресурс не найден."),
    (429, "Слишком много запросов. Попробуйте позже."),
    (500, "Ошибка сервера. Попробуйте позже."),
    (502, "Ошибка сети. Попробуйте позже."),
    (503, "Сервис временно недоступен. Попробуйте позже."),
    (504, "Время ожидания запроса истекло. Попробуйте позже.")
  ]

  const RequestFailedMessage := "Ошибка запроса к серверу"
  const UnknownErrorMessage := "Неизвестная ошибка"

  /** The reference reading of the status rules: first table entry with that status. */
  function LookupStatus(table: seq<(int, string)>, status: int): Option<string> {
    if table == [] then None
    else if table[0].0 == status then Some(table[0].1)
    else LookupStatus(table[1..], status)
  }

  /** The chain of `if (status === …) return …` checks. */
  function StatusMessage(status: Option<int>): (r: Option<string>)
    ensures status.None? ==> r.None?
    ensures status.Some? ==> r == LookupStatus(StatusMessages, status.value)
    ensures r.Some? ==> r.value != ""
  {
    if status == Some(401) then Some("Сессия истекла. Пожалуйста, войдите заново.")
    else if status == Some(403) then Some("Доступ запрещён.")
    else if status == Some(404) then Some("Ресурс не найден.")
    else if status == Some(429) then Some("Слишком много запросов. Попробуйте позже.")
    else if status == Some(500) then Some("Ошибка сервера. Попробуйте позже.")
    else if status == Some(502) then Some("Ошибка сети. Попробуйте позже.")
    else if status == Some(503) then Some("Сервис временно недоступен. Попробуйте позже.")
    else if status == Some(504) then Some("Время ожидания запроса истекло. Попробуйте позже.")
    else if status.Some? then UnlistedStatus(status.value); None
    else None
  }

  lemma UnlistedStatus(status: int)
    requires status !in {401, 403, 404, 429, 500, 502, 503, 504}
    ensures LookupStatus(StatusMessages, status).None?
  {
    var t := StatusMessages;
    var i := 0;
    while i < |t|
      invariant 0 <= i <= |t|
      invariant LookupStatus(t, status) == LookupStatus(t[i..], status)
    {
      assert t[i..][1..] == t[i + 1..];
      i := i + 1;
    }
  }

  /** The server's own message, when the error is an Axios error whose body carries a string one. */
  function ServerMessage(e: Thrown): Option<string> {
    if e.AxiosError? && e.response.Some? then e.response.value.serverMessage else None
  }

  /** `getErrorMessage(error)` */
  function GetErrorMessage(e: Thrown): (r: string)
    // the server's string message wins, even when empty, ahead of any status rule
    ensures ServerMessage(e).Some? ==> r == ServerMessage(e).value
    // the result is empty only for an empty server message or an Error with an empty message
    ensures r == "" <==> ServerMessage(e) == Some("") || e == PlainError("")
    // a plain `Error` is shown by its message, as it is
    ensures e.PlainError? ==> r == e.message
    // any other value by `String(value)`, or the fixed text when that is empty
    ensures e.OtherValue? ==> r == if e.text != "" then e.text else UnknownErrorMessage
  {
    match e
    case AxiosError(message, response, _) =>
      if ServerMessage(e).Some? then ServerMessage(e).value
      else
        var status := if response.Some? then response.value.status else None;
        (match StatusMessage(status)
         case Some(m) => m
         case None => if message != "" then message else RequestFailedMessage)
    case PlainError(message) => message
    case OtherValue(text) => if text != "" then text else UnknownErrorMessage
  }

  /** For an Axios error without a server message, a listed status picks its fixed message. */
  lemma StatusRuleApplies(e: Thrown, status: int, m: string)
    requires e.AxiosError? && e.response.Some? && e.response.value.serverMessage.None?
    requires e.response.value.status == Some(status)
    requires LookupStatus(StatusMessages, status) == Some(m)
    ensures GetErrorMessage(e) == m
  {
  }

  /** An Axios error with no server message and an unlisted or missing status falls back to its own message. */
  lemma AxiosFallback(e: Thrown)
    requires e.AxiosError? && ServerMessage(e).None?
    requires e.response.None? || e.response.value.status.None?
             || LookupStatus(StatusMessages, e.response.value.status.value).None?
    ensures GetErrorMessage(e) == if e.message != "" then e.message else RequestFailedMessage
  {
  }

  /** A value that is not an Error is shown as `String(value)`, so `null` reads "null". */
  lemma NonErrorValues()
    ensures GetErrorMessage(OtherValue("null")) == "null"
    ensures GetErrorMessage(OtherValue("undefined")) == "undefined"
    ensures GetErrorMessage(OtherValue("")) == UnknownErrorMessage
  {
  }

  /** `err instanceof Error ? err.message : fallback`, the pattern of the route handlers and thunks. */
  function MessageOr(e: Thrown, fallback: string): (r: string)
    ensures IsError(e) ==> r == e.message
    ensures !IsError(e) ==> r == fallback
  {
    match e
    case AxiosError(m, _, _) => m
    case PlainError(m) => m
    case OtherValue(_) => fallback
  }
}
