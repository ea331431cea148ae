/**
 * app/api/chat/route.ts: the non-streaming relay used by the simple chat
 * widget. It composes the system prompt, the posted history and the new
 * message, asks the chat-completions API once and answers with the first
 * choice's content, falling back with `??`.
 */
module ChatRoute {
  import opened Js
  import opened Outbound
  import opened Completions

  const SystemPrompt := "Ты — ассистент компании Bvetra. Помогаешь оформить трансфер, отвечаешь вежливо и по делу."
  const MissingKeyReply := "OpenAI API ключ не найден"
  const NoAnswerReply := "Нет ответа"
  const ServerErrorReply := "Ошибка сервера"

  /** The single upstream request the handler makes for a given key, history and message. */
  function CompletionCall(key: string, history: seq<HistoryItem>, message: Option<string>): (r: Call)
    ensures r.ChatCompletion? && r.key == key && r.model == CompletionsModel
    ensures r.temperature == Some(0.2) && r.maxTokens == None && !r.stream
    ensures |r.messages| == |history| + 2
    ensures r.messages[0] == WireMsg("system", Some(SystemPrompt))
    ensures r.messages[1..|history| + 1] == NormaliseHistory(history)
    ensures r.messages[|history| + 1] == WireMsg("user", message)
  {
    ChatCompletion(key, CompletionsModel, ComposeMessages(SystemPrompt, history, message), Some(0.2), None, false)
  }

  /** `POST`, given the parsed body, the environment and the upstream outcome. */
  function Handle(body: ChatBody, env: Env, upstream: Upstream): (r: Handled)
    // `await req.json()` and the destructuring of a `null` body both throw into the catch
    ensures (body.Unparseable? || body.NullBody?) ==>
      r == Handled(ReplyResponse(500, ServerErrorReply), [])
    // without a key nothing is sent upstream
    ensures body.ChatBody? && !Truthy(env.openAiKey) ==>
      r == Handled(ReplyResponse(500, MissingKeyReply), [])
    // `history.map` on null throws before the request is made
    ensures body.ChatBody? && Truthy(env.openAiKey) && body.history.NullHistory? ==>
      r == Handled(ReplyResponse(500, ServerErrorReply), [])
    // otherwise exactly one request, carrying the composed message list (absent history = [])
    ensures body.ChatBody? && Truthy(env.openAiKey) && !body.history.NullHistory? ==>
      var history := if body.history.Items? then body.history.items else [];
      r.calls == [CompletionCall(env.openAiKey.value, history, body.message)] &&
      r.response == match upstream
        case UpstreamThrew => ReplyResponse(500, ServerErrorReply)
        case UpstreamJson(NullJson) => ReplyResponse(500, ServerErrorReply)
        case UpstreamJson(Completion(choices)) =>
          // `??`: an empty content is a reply; only a missing one falls back
          ReplyResponse(200, Coalesce(FirstContent(choices), NoAnswerReply))
  {
    match body
    case Unparseable => Handled(ReplyResponse(500, ServerErrorReply), [])
    case NullBody => Handled(ReplyResponse(500, ServerErrorReply), [])
    case ChatBody(message, historyField) =>
      if !Truthy(env.openAiKey) then Handled(ReplyResponse(500, MissingKeyReply), [])
      else if historyField.NullHistory? then Handled(ReplyResponse(500, ServerErrorReply), [])
      else
        var history := if historyField.Items? then historyField.items else [];
        var call := CompletionCall(env.openAiKey.value, history, message);
        match upstream
        case UpstreamThrew => Handled(ReplyResponse(500, ServerErrorReply), [call])
        case UpstreamJson(NullJson) => Handled(ReplyResponse(500, ServerErrorReply), [call])
        case UpstreamJson(Completion(choices)) =>
          Handled(ReplyResponse(200, Coalesce(FirstContent(choices), NoAnswerReply)), [call])
  }
}
