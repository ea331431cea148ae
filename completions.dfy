/**
 * What the three chat relay handlers share: the shape of the request body the
 * browser posts, the way a conversation history is turned into the
 * chat-completions `messages` list, and the shape of a (non-streamed)
 * chat-completions answer.
 */
module Completions {
  import opened Js
  import opened Outbound

  /** One element of the `history` array a client posts. */
  datatype HistoryItem = HistoryItem(role: Option<string>, content: Option<string>)

  /** The `history` property: left out (defaulted to []), `null`, or an array. */
  datatype HistoryField = NoHistory | NullHistory | Items(items: seq<HistoryItem>)

  /** The result of `await req.json()`. */
  datatype ChatBody =
    | Unparseable                                   // req.json() rejects
    | NullBody                                      // the JSON text `null`
    | ChatBody(message: Option<string>, history: HistoryField)

  /** `m.role === 'user' ? 'user' : 'assistant'` */
  function NormaliseRole(role: Option<string>): (r: string)
    ensures r == "user" || r == "assistant"
    ensures r == "user" <==> role == Some("user")
  {
    if role == Some("user") then "user" else "assistant"
  }

  /** `history.map(m => ({ role: <normalised>, content: m.content }))` */
  function NormaliseHistory(history: seq<HistoryItem>): (r: seq<WireMsg>)
    ensures |r| == |history|
    ensures forall k :: 0 <= k < |r| ==>
      r[k].content == history[k].content &&
      (r[k].role == "user" <==> history[k].role == Some("user")) &&
      (r[k].role == "user" || r[k].role == "assistant")
    decreases |history|
  {
    if history == [] then []
    else [WireMsg(NormaliseRole(history[0].role), history[0].content)] + NormaliseHistory(history[1..])
  }

  /** The wire messages read back as history items. */
  function AsHistory(msgs: seq<WireMsg>): seq<HistoryItem> {
    seq(|msgs|, k requires 0 <= k < |msgs| => HistoryItem(Some(msgs[k].role), msgs[k].content))
  }

  /**
   * Sending an already normalised list back as history normalises to the
   * same list: after one pass every role is already "user" or "assistant".
   */
  lemma NormaliseHistoryIdempotent(history: seq<HistoryItem>)
    ensures NormaliseHistory(AsHistory(NormaliseHistory(history))) == NormaliseHistory(history)
  {
    var once := NormaliseHistory(history);
    var twice := NormaliseHistory(AsHistory(once));
    assert |twice| == |once|;
    forall k | 0 <= k < |once| ensures twice[k] == once[k] {
      assert AsHistory(once)[k].role == Some(once[k].role);
    }
  }

  /**
   * `[ system, ...history.map(normalise), { role: 'user', content: message } ]`:
   * the system prompt first, the normalised history in order, the new user
   * message last.
   */
  function ComposeMessages(systemPrompt: string, history: seq<HistoryItem>, message: Option<string>): (r: seq<WireMsg>)
    ensures |r| == |history| + 2
    ensures r[0] == WireMsg("system", Some(systemPrompt))
    ensures r[|r| - 1] == WireMsg("user", message)
    ensures r[1..|r| - 1] == NormaliseHistory(history)
  {
    [WireMsg("system", Some(systemPrompt))] + NormaliseHistory(history) + [WireMsg("user", message)]
  }

  // ---------------------------------------------------------------------------
  // a chat-completions answer, as far as `data.choices?.[0]?.message?.content` looks

  datatype ChoiceMessage = ChoiceMessage(content: Option<string>)
  datatype Choice = Choice(message: Option<ChoiceMessage>)

  /** The parsed JSON answer: `null`, or an object whose `choices` may be missing. */
  datatype Completion = NullJson | Completion(choices: Option<seq<Option<Choice>>>)

  /** `choices?.[0]?.message?.content`: None wherever a link of the chain is nullish. */
  function FirstContent(choices: Option<seq<Option<Choice>>>): (r: Option<string>)
    ensures r.Some? <==>
      choices.Some? && |choices.value| > 0 && choices.value[0].Some? &&
      choices.value[0].value.message.Some? && choices.value[0].value.message.value.content.Some?
    ensures r.Some? ==> r == choices.value[0].value.message.value.content
  {
    if choices.None? || |choices.value| == 0 then None
    else match choices.value[0]
      case None => None
      case Some(choice) =>
        match choice.message
        case None => None
        case Some(m) => m.content
  }

  /** What awaiting the upstream chat-completions call produced. */
  datatype Upstream = UpstreamThrew | UpstreamJson(data: Completion)

  /**
   * A JSON response `{ reply }` with its HTTP status, or an exception that
   * escaped the handler (the framework then answers on its own).
   */
  datatype ReplyResponse = ReplyResponse(status: nat, reply: string) | Unhandled

  /** A handler's answer and the outbound calls it made, in order. */
  datatype Handled = Handled(response: ReplyResponse, calls: seq<Call>)
}
