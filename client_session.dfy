// Checking what the Bot API answered (telers/src/client/session/base.rs, and
// the same logic in src/client/session/base.rs): the HTTP status codes that
// count as success, the classification of an error response, and the
// result the session hands back once the check has passed.
module ClientSession {
  import opened Wrappers
  import StrUtil

  /** `u16`. */
  type U16 = x: int | 0 <= x < 0x1_0000

  /** `StatusCode`: an HTTP status code. */
  datatype StatusCode = StatusCode(code: U16)

  /** The range `200..=226` of status codes that count as success. */
  const SUCCESS_LOW: U16 := 200
  const SUCCESS_HIGH: U16 := 226

  predicate IsSuccess(s: StatusCode) {
    SUCCESS_LOW <= s.code <= SUCCESS_HIGH
  }

  predicate IsError(s: StatusCode) {
    !IsSuccess(s)
  }

  /** `ResponseParameters`: the two fields the check reads. */
  datatype ResponseParameters = ResponseParameters(migrateToChatId: Option<int>, retryAfter: Option<int>)

  /** `methods::Response`: the answer the Bot API sends back, with the
      result of the method when it succeeded. */
  datatype Response<T> = Response(
    ok: bool,
    result: Option<T>,
    description: Option<string>,
    errorCode: Option<int>,
    parameters: Option<ResponseParameters>)

  /** `TelegramErrorKind`, with `Other` for the errors made from a bare
      message (`anyhow::Error::msg(..).into()`). */
  datatype TelegramErrorKind =
    | RetryAfter(url: string, message: string, retryAfter: int)
    | MigrateToChat(url: string, message: string, migrateToChatId: int)
    | BadRequest(message: string)
    | Unauthorized(message: string)
    | Forbidden(message: string)
    | NotFound(message: string)
    | ConflictError(message: string)
    | EntityTooLarge(url: string, message: string)
    | RestartingTelegram(message: string)
    | ServerError(message: string)
    | Other(message: string)

  const RESULT_EMPTY := "Contract violation: result is empty in success response"
  const DESCRIPTION_EMPTY := "Contract violation: description is empty in error response"
  const RETRY_AFTER_URL := "https://core.telegram.org/bots/faq#my-bot-is-hitting-limits-how-do-i-avoid-this"
  const MIGRATE_TO_CHAT_URL := "https://core.telegram.org/bots/api#responseparameters"
  const SENDING_FILES_URL := "https://core.telegram.org/bots/api#sending-files"

  /** The error an error response's status code maps to, once neither
      `retry_after` nor `migrate_to_chat_id` was given. */
  function ErrorOfStatus(code: U16, message: string): (e: TelegramErrorKind)
    ensures e.message == message
    ensures code == 500 ==> (e.RestartingTelegram? <==> StrUtil.Contains(message, "restart"))
    ensures code == 500 ==> (e.ServerError? <==> !StrUtil.Contains(message, "restart"))
    ensures e.Other? <==> code !in {400, 401, 403, 404, 409, 413, 500}
  {
    if code == 400 then BadRequest(message)
    else if code == 401 then Unauthorized(message)
    else if code == 403 then Forbidden(message)
    else if code == 404 then NotFound(message)
    else if code == 409 then ConflictError(message)
    else if code == 413 then EntityTooLarge(SENDING_FILES_URL, message)
    else if code == 500 then
      if StrUtil.Contains(message, "restart") then RestartingTelegram(message) else ServerError(message)
    else Other(message)
  }

  /** `check_response`. A successful status with `ok` passes exactly when a
      result is present. Otherwise the description is required, and the
      error is, in this order: retry-after, migrate-to-chat, and the
      status code's error. */
  function CheckResponse<T>(response: Response<T>, status: StatusCode): (r: Result<(), TelegramErrorKind>)
    ensures r.Ok? <==> IsSuccess(status) && response.ok && response.result.Some?
    ensures IsSuccess(status) && response.ok && response.result.None? ==> r == Err(Other(RESULT_EMPTY))
    ensures !(IsSuccess(status) && response.ok) && response.description.None? ==> r == Err(Other(DESCRIPTION_EMPTY))
    ensures !(IsSuccess(status) && response.ok) && response.description.Some? ==>
      r.Err? && r.error.message == response.description.value
  {
    if IsSuccess(status) && response.ok then
      if response.result.None? then Err(Other(RESULT_EMPTY)) else Ok(())
    else if response.description.None? then
      Err(Other(DESCRIPTION_EMPTY))
    else
      var message := response.description.value;
      if response.parameters.Some? && response.parameters.value.retryAfter.Some? then
        Err(RetryAfter(RETRY_AFTER_URL, message, response.parameters.value.retryAfter.value))
      else if response.parameters.Some? && response.parameters.value.migrateToChatId.Some? then
        Err(MigrateToChat(MIGRATE_TO_CHAT_URL, message, response.parameters.value.migrateToChatId.value))
      else
        Err(ErrorOfStatus(status.code, message))
  }

  /** What decides an error response: `retry_after` over
      `migrate_to_chat_id` over the status code. */
  lemma ErrorPrecedence<T>(response: Response<T>, status: StatusCode)
    requires !(IsSuccess(status) && response.ok) && response.description.Some?
    ensures var message := response.description.value;
      var p := response.parameters;
      (p.Some? && p.value.retryAfter.Some? ==>
         CheckResponse(response, status) == Err(RetryAfter(RETRY_AFTER_URL, message, p.value.retryAfter.value)))
      && (p.Some? && p.value.retryAfter.None? && p.value.migrateToChatId.Some? ==>
         CheckResponse(response, status) == Err(MigrateToChat(MIGRATE_TO_CHAT_URL, message, p.value.migrateToChatId.value)))
      && ((p.None? || (p.value.retryAfter.None? && p.value.migrateToChatId.None?)) ==>
         CheckResponse(response, status) == Err(ErrorOfStatus(status.code, message)))
  {
  }

  /** The status codes with their own error. */
  lemma StatusCodeErrors(message: string)
    ensures ErrorOfStatus(400, message) == BadRequest(message)
    ensures ErrorOfStatus(401, message) == Unauthorized(message)
    ensures ErrorOfStatus(403, message) == Forbidden(message)
    ensures ErrorOfStatus(404, message) == NotFound(message)
    ensures ErrorOfStatus(409, message) == ConflictError(message)
    ensures ErrorOfStatus(413, message) == EntityTooLarge(SENDING_FILES_URL, message)
  {
  }

  /** A failing status never passes, whatever the body says; a successful
      one with `ok` and a result always does. */
  lemma ErrorStatusFails<T>(response: Response<T>, status: StatusCode)
    requires IsError(status)
    ensures CheckResponse(response, status).Err?
  {
  }

  /** A server error whose message mentions a restart. */
  lemma RestartExample()
    ensures ErrorOfStatus(500, "Internal Server Error: restart") == RestartingTelegram("Internal Server Error: restart")
  {
    var m := "Internal Server Error: restart";
    var tail := "restart";
    assert m == "Internal Server Error: " + tail;
    assert StrUtil.EndsWith(m, tail) by {
      assert m[|m| - |tail|..] == tail;
    }
    StrUtil.ContainsSuffix(m, tail);
  }

  // ---------------------------------------------------------------------
  // `make_request` and `make_request_and_get_result`

  /** `SessionErrorKind`: the request could not be sent, its answer could
      not be parsed, or the answer is an error. */
  datatype SessionErrorKind<Er> =
    | Client(clientError: Er)
    | Parse(parseError: Er)
    | Telegram(telegramError: TelegramErrorKind)

  /** `ClientResponse`: the status and body of the HTTP answer. */
  datatype ClientResponse = ClientResponse(status: StatusCode, content: string)

  /** `make_request`: the outcome of sending (a parameter, as the I/O is not
      modelled), the method's parser, then the check. */
  function MakeRequest<T, Er>(sent: Result<ClientResponse, Er>, parse: string -> Result<Response<T>, Er>): (r: Result<Response<T>, SessionErrorKind<Er>>)
    ensures sent.Err? ==> r == Err(Client(sent.error))
    ensures sent.Ok? && parse(sent.value.content).Err? ==> r == Err(Parse(parse(sent.value.content).error))
    ensures r.Ok? <==> sent.Ok? && parse(sent.value.content).Ok? && CheckResponse(parse(sent.value.content).value, sent.value.status).Ok?
    ensures r.Ok? ==> r.value == parse(sent.value.content).value
  {
    if sent.Err? then Err(Client(sent.error))
    else
      var parsed := parse(sent.value.content);
      if parsed.Err? then Err(Parse(parsed.error))
      else
        var checked := CheckResponse(parsed.value, sent.value.status);
        if checked.Err? then Err(Telegram(checked.error)) else Ok(parsed.value)
  }

  /** `make_request_and_get_result`: the `unwrap` of the result cannot
      panic, because the check has already required a result. */
  function MakeRequestAndGetResult<T, Er>(sent: Result<ClientResponse, Er>, parse: string -> Result<Response<T>, Er>): (r: Result<T, SessionErrorKind<Er>>)
    ensures r.Ok? <==> MakeRequest(sent, parse).Ok?
    ensures r.Ok? ==> MakeRequest(sent, parse).value.result == Some(r.value)
    ensures r.Err? ==> MakeRequest(sent, parse) == Err(r.error)
  {
    var response := MakeRequest(sent, parse);
    if response.Err? then Err(response.error)
    else
      assert response.value.result.Some?;
      Ok(response.value.result.value)
  }
}
