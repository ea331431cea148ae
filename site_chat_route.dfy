/**
 * api/chat/route.ts: the older relay. It sends only the new message (no
 * history, no system prompt), answers with a canned greeting when no key is
 * configured, and falls back with `||`, so an empty content is replaced too.
 */
module SiteChatRoute {
  import opened Js
  import opened Outbound
  import opened Completions
  import ChatRoute

  const NotConfiguredReply := "Привет! Я здесь чтобы помочь. (OpenAI API не настроен)."
  const NoAnswerReply := "Извините, нет ответа"
  const FailureReply := "Ошибка при обработке запроса"

  /** `body?.message || ''` */
  function MessageOf(body: ChatBody): (r: string)
    requires !body.Unparseable?
    ensures body.ChatBody? && Truthy(body.message) ==> r == body.message.value
    ensures !(body.ChatBody? && Truthy(body.message)) ==> r == ""
  {
    if body.ChatBody? then Or(body.message, "") else ""
  }

  /** `data?.choices?.[0]?.message?.content || 'Извините, нет ответа'` */
  function ReplyOf(data: Completion): (r: string)
    ensures r != ""
    ensures data.Completion? && Truthy(FirstContent(data.choices)) ==> r == FirstContent(data.choices).value
    ensures !(data.Completion? && Truthy(FirstContent(data.choices))) ==> r == NoAnswerReply
  {
    if data.NullJson? then NoAnswerReply else Or(FirstContent(data.choices), NoAnswerReply)
  }

  /** `POST`, given the parsed body, the environment and the upstream outcome. */
  function Handle(body: ChatBody, env: Env, upstream: Upstream): (r: Handled)
    // `await req.json()` sits outside the try: a bad body escapes the handler
    ensures body.Unparseable? ==> r == Handled(Unhandled, [])
    // no key: a greeting with the default status, and no upstream call
    ensures !body.Unparseable? && !Truthy(env.openAiKey) ==>
      r == Handled(ReplyResponse(200, NotConfiguredReply), [])
    // with a key: one request holding exactly one user message and no history
    ensures !body.Unparseable? && Truthy(env.openAiKey) ==>
      r.calls == [ChatCompletion(env.openAiKey.value, CompletionsModel,
                                 [WireMsg("user", Some(MessageOf(body)))], None, Some(500), false)] &&
      r.response == match upstream
        case UpstreamThrew => ReplyResponse(500, FailureReply)
        case UpstreamJson(data) => ReplyResponse(200, ReplyOf(data))
  {
    if body.Unparseable? then Handled(Unhandled, [])
    else
      var message := MessageOf(body);
      if !Truthy(env.openAiKey) then Handled(ReplyResponse(200, NotConfiguredReply), [])
      else
        var call := ChatCompletion(env.openAiKey.value, CompletionsModel,
                                   [WireMsg("user", Some(message))], None, Some(500), false);
        match upstream
        case UpstreamThrew => Handled(ReplyResponse(500, FailureReply), [call])
        case UpstreamJson(data) => Handled(ReplyResponse(200, ReplyOf(data)), [call])
  }

  /**
   * The two relays disagree on an upstream answer whose content is the empty
   * string: app/api/chat keeps it (`??`), this route replaces it (`||`).
   */
  lemma EmptyContentFallbacksDiffer(key: string, message: string)
    requires key != ""
    ensures
      var env := Env(Some(key), None, None, None);
      var data := Completion(Some([Some(Choice(Some(ChoiceMessage(Some("")))))]));
      var body := ChatBody(Some(message), NoHistory);
      ChatRoute.Handle(body, env, UpstreamJson(data)).response == ReplyResponse(200, "") &&
      Handle(body, env, UpstreamJson(data)).response == ReplyResponse(200, NoAnswerReply)
  {
  }
}
