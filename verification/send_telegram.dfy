/**
 * The serverless forwarding function: it accepts a POST whose JSON body carries `text`,
 * relays the text to the Telegram Bot API and reports the outcome as an HTTP response.
 * Reading the request body, the two environment secrets and the upstream call are
 * inputs; the function is the ordered chain of early returns that maps them to a response.
 */
module SendTelegram {
  import opened Wrappers

  /** What `await request.json()` produced. */
  datatype RequestBody =
    | MalformedJson                  // the body is not JSON: `request.json()` throws
    | NullJson                       // the body is `null`: destructuring `{ text }` throws
    | JsonValue(text: Option<string>) // any other JSON value; `text` is its `text` field, if any

  /** The Bot API's decoded reply; `raw` stands for the rest of its fields, passed back untouched. */
  datatype UpstreamData = UpstreamData(ok: bool, raw: string)

  /** What `await tgResponse.json()` produced. */
  datatype UpstreamBody = UnparsableReply | NullReply | ReplyData(data: UpstreamData)

  /** The outcome of the upstream `fetch`. */
  datatype Upstream =
    | NetworkFailure                            // `fetch` throws
    | Replied(httpOk: bool, body: UpstreamBody)  // `tgResponse.ok` and its body

  /** The JSON bodies the function sends: `{ ok, error?, data? }`. */
  datatype Reply = Reply(ok: bool, error: Option<string>, data: Option<UpstreamBody>)

  datatype Body = PlainText(text: string) | Json(reply: Reply)

  datatype Response = Response(status: nat, body: Body)

  /** The request sent to the Bot API's `sendMessage`. */
  datatype TelegramCall = TelegramCall(url: string, chatId: string, text: string, parseMode: string)

  /** The response together with the upstream call made on the way, if any. */
  datatype Handled = Handled(response: Response, call: Option<TelegramCall>)

  const NoText := "No text provided"
  const ConfigError := "Server configuration error"
  const TelegramError := "Telegram API error"
  const ServerError := "Server error"

  function Failure(status: nat, error: string): Response
  {
    Response(status, Json(Reply(false, Some(error), None)))
  }

  function SendMessageCall(token: string, chatId: string, text: string): (c: TelegramCall)
    ensures c.chatId == chatId && c.text == text && c.parseMode == "Markdown"
  {
    TelegramCall("https://api.telegram.org/bot" + token + "/sendMessage", chatId, text, "Markdown")
  }

  /**
   * The reply once the call has been made: 200 only when the Bot API answered with an HTTP
   * success and a decoded `ok`; a rejection the code can read carries the Bot API's data;
   * every exception on the way (network, undecodable body, `null` body) is a bare server error.
   */
  function AfterCall(upstream: Upstream): (r: Response)
    ensures r.status == 200 <==> upstream.Replied? && upstream.httpOk && upstream.body.ReplyData? && upstream.body.data.ok
    ensures r.status != 200 ==> r.status == 500 && r.body.Json? && !r.body.reply.ok
    ensures upstream.NetworkFailure? || upstream.body.UnparsableReply? ==> r == Failure(500, ServerError)
    ensures upstream.Replied? && !upstream.body.UnparsableReply? && r.status == 500 ==>
              (r.body.reply.error == Some(TelegramError) <==> !upstream.httpOk || upstream.body.ReplyData?)
    ensures r.status == 500 && r.body.reply.error == Some(TelegramError) ==> r.body.reply.data == Some(upstream.body)
    ensures r.status == 500 && r.body.reply.error != Some(TelegramError) ==> r == Failure(500, ServerError)
  {
    match upstream
    case NetworkFailure => Failure(500, ServerError)
    case Replied(httpOk, body) =>
      match body
      case UnparsableReply => Failure(500, ServerError)
      case NullReply =>
        // `!tgResponse.ok` short-circuits; otherwise `data.ok` on `null` throws
        if !httpOk then Response(500, Json(Reply(false, Some(TelegramError), Some(body))))
        else Failure(500, ServerError)
      case ReplyData(data) =>
        if !httpOk || !data.ok then Response(500, Json(Reply(false, Some(TelegramError), Some(body))))
        else Response(200, Json(Reply(true, None, None)))
  }

  /** The handler. */
  function Handle(verb: string, body: RequestBody, token: Option<string>, chatId: Option<string>, upstream: Upstream): (h: Handled)
    // the method is checked first, before the body is read
    ensures h.response.status == 405 <==> verb != "POST"
    ensures verb != "POST" ==> h == Handled(Response(405, PlainText("Method Not Allowed")), None)
    // a missing or empty text is a client error, whatever the secrets
    ensures h.response.status == 400 <==> verb == "POST" && body.JsonValue? && !Truthy(body.text)
    ensures h.response.status == 400 ==> h.response == Failure(400, NoText)
    // the upstream call is made exactly when the text and both secrets are present
    ensures h.call.Some? <==> verb == "POST" && body.JsonValue? && Truthy(body.text) && Truthy(token) && Truthy(chatId)
    ensures h.call.Some? ==> h.call == Some(SendMessageCall(token.value, chatId.value, body.text.value))
    ensures verb == "POST" && body.JsonValue? && Truthy(body.text) && !(Truthy(token) && Truthy(chatId)) ==>
              h.response == Failure(500, ConfigError)
    // a body that is not JSON, or is `null`, throws before any check and is a bare server error
    ensures verb == "POST" && !body.JsonValue? ==> h == Handled(Failure(500, ServerError), None)
    // once the call is made, the reply is decided by the upstream outcome alone
    ensures h.call.Some? ==> h.response == AfterCall(upstream)
    ensures h.call.Some? && (upstream.NetworkFailure? || upstream.body.UnparsableReply?) ==>
              h.response == Failure(500, ServerError)
    ensures h.call.Some? && upstream.Replied? && !upstream.httpOk && !upstream.body.UnparsableReply? ==>
              h.response == Response(500, Json(Reply(false, Some(TelegramError), Some(upstream.body))))
    // success only when both upstream checks pass
    ensures h.response.status == 200 <==>
              h.call.Some? && upstream.Replied? && upstream.httpOk && upstream.body.ReplyData? && upstream.body.data.ok
    ensures h.response.status == 200 ==> h.response.body == Json(Reply(true, None, None))
    ensures h.response.status in {200, 400, 405, 500}
    ensures h.response.body.Json? <==> h.response.status != 405
    ensures h.response.body.Json? ==> (h.response.body.reply.ok <==> h.response.status == 200)
  {
    if verb != "POST" then
      Handled(Response(405, PlainText("Method Not Allowed")), None)
    else
      match body
      case MalformedJson => Handled(Failure(500, ServerError), None)
      case NullJson => Handled(Failure(500, ServerError), None)
      case JsonValue(text) =>
        if !Truthy(text) then
          Handled(Failure(400, NoText), None)
        else if !Truthy(token) || !Truthy(chatId) then
          Handled(Failure(500, ConfigError), None)
        else
          var call := SendMessageCall(token.value, chatId.value, text.value);
          Handled(AfterCall(upstream), Some(call))
  }

  /** A rejected upstream reply is reported with the Bot API's own data attached. */
  lemma UpstreamRejectionCarriesData(text: string, token: string, chatId: string, httpOk: bool, data: UpstreamData)
    requires text != "" && token != "" && chatId != ""
    requires !httpOk || !data.ok
    ensures Handle("POST", JsonValue(Some(text)), Some(token), Some(chatId), Replied(httpOk, ReplyData(data))).response
         == Response(500, Json(Reply(false, Some(TelegramError), Some(ReplyData(data)))))
  {
  }
}
