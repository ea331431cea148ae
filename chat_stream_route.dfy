/**
 * app/api/chat/stream/route.ts: the streaming relay the smart chat uses. It
 * composes the message list, opens a streamed chat-completions request and
 * pipes the upstream body to the client chunk by chunk, unmodified.
 */
module ChatStreamRoute {
  import opened Js
  import opened Outbound
  import opened Completions

  const SystemPrompt := "Ты — вежливый ассистент Bvetra. Помогаешь оформить трансфер, собираешь данные: имя, телефон, пункт подачи, пункт назначения, дату/время, класс авто, количество пассажиров, примечания. Если получил все данные — собери JSON с полем order и отправь его в блоке ```json ... ``` для автоматического захвата."
  const MissingKeyError := "OPENAI_API_KEY not set"
  const ServerError := "server error"

  /**
   * The upstream response body as its reader delivers it: the chunks read
   * before `done`, and whether the reader then reported `done` (true) or
   * its read rejected (false).
   */
  datatype Body<T> = Body(chunks: seq<T>, ends: bool)

  /** What the streamed upstream request produced. */
  datatype StreamUpstream<T> =
    | FetchThrew
    | NotOk(text: Option<string>)      // `await streamRes.text()`; None when that rejects
    | Ok(body: Body<T>)

  /** The relay's result: what was enqueued into the client stream, and whether it was closed. */
  datatype Relayed<T> = Relayed(enqueued: seq<T>, closed: bool)

  datatype StreamResponse<T> = JsonError(status: nat, error: string) | TextStream(relayed: Relayed<T>)

  /**
   * The `start(controller)` loop: read, stop at `done`, otherwise enqueue the
   * value as it came. Every chunk is relayed in order and unmodified; the
   * client stream is closed exactly when upstream reported `done`.
   */
  method Relay<T>(upstream: Body<T>) returns (r: Relayed<T>)
    ensures r.enqueued == upstream.chunks
    ensures r.closed == upstream.ends
  {
    var enqueued: seq<T> := [];
    var i := 0;
    var failed := false;
    while true
      invariant 0 <= i <= |upstream.chunks|
      invariant enqueued == upstream.chunks[..i]
      decreases |upstream.chunks| - i
    {
      // `const { done, value } = await reader.read()`
      if i == |upstream.chunks| {
        if !upstream.ends { failed := true; }
        break;
      }
      var value := upstream.chunks[i];
      i := i + 1;
      enqueued := enqueued + [value];
    }
    // `controller.close()` is reached only after a `done` read
    r := Relayed(enqueued, !failed);
  }

  /** `POST`, given the parsed body, the environment and the upstream outcome. */
  method Handle<T>(body: ChatBody, env: Env, upstream: StreamUpstream<T>)
    returns (response: StreamResponse<T>, calls: seq<Call>)
    ensures body.Unparseable? ==> response == JsonError(500, ServerError) && calls == []
    // a null body is read as `{}`; without a key nothing is sent upstream
    ensures !body.Unparseable? && !Truthy(env.openAiKey) ==>
      response == JsonError(500, MissingKeyError) && calls == []
    ensures body.ChatBody? && Truthy(env.openAiKey) && body.history.NullHistory? ==>
      response == JsonError(500, ServerError) && calls == []
    // otherwise one streamed request with the composed list (absent history = [])
    ensures !body.Unparseable? && Truthy(env.openAiKey) && !(body.ChatBody? && body.history.NullHistory?) ==>
      var history := if body.ChatBody? && body.history.Items? then body.history.items else [];
      var message := if body.ChatBody? then body.message else None;
      calls == [ChatCompletion(env.openAiKey.value, CompletionsModel,
                               ComposeMessages(SystemPrompt, history, message), Some(0.2), None, true)] &&
      response == match upstream
        case FetchThrew => JsonError(500, ServerError)
        case NotOk(Some(text)) => JsonError(500, text)
        case NotOk(None) => JsonError(500, ServerError)
        case Ok(stream) => TextStream(Relayed(stream.chunks, stream.ends))
  {
    calls := [];
    if body.Unparseable? {
      response := JsonError(500, ServerError);
      return;
    }
    // `const { message, history = [] } = body || {}`
    var message := if body.ChatBody? then body.message else None;
    var historyField := if body.ChatBody? then body.history else NoHistory;
    if !Truthy(env.openAiKey) {
      response := JsonError(500, MissingKeyError);
      return;
    }
    if historyField.NullHistory? {
      // `history.map` on null throws into the catch
      response := JsonError(500, ServerError);
      return;
    }
    var history := if historyField.Items? then historyField.items else [];
    var messages := ComposeMessages(SystemPrompt, history, message);
    calls := [ChatCompletion(env.openAiKey.value, CompletionsModel, messages, Some(0.2), None, true)];
    match upstream {
      case FetchThrew =>
        response := JsonError(500, ServerError);
      case NotOk(text) =>
        response := if text.Some? then JsonError(500, text.value) else JsonError(500, ServerError);
      case Ok(stream) =>
        var relayed := Relay(stream);
        response := TextStream(relayed);
    }
  }
}
