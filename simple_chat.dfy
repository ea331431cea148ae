/**
 * app/components/Chat.tsx: the plain chat widget that talks to /api/chat.
 * Its state is the transcript and the text box. `sendMessage` is split at
 * its `await`: `BeginSend` is what happens before the request is answered,
 * `CompleteSend` what happens after; `SendMessage` runs the two back to back.
 * The second half rebuilds the transcript from the snapshot the first half
 * captured, so whatever was appended in between is dropped.
 */
module SimpleChat {
  import opened Js

  /** `{ role, content }`; an answer without `reply` leaves `content` undefined. */
  datatype Line = Line(role: string, content: Option<string>)

  /** The body posted to /api/chat. */
  datatype ChatRequest = ChatRequest(message: string, history: seq<Line>)

  /** A request in flight, with what its continuation captured. */
  datatype Pending = Pending(request: ChatRequest, snapshot: seq<Line>, userLine: Line)

  /** What `fetch` and `res.json()` produced: a rejection, or the `reply` property of the JSON. */
  datatype Answer = Rejected | Json(reply: Option<string>)

  class Widget {
    var messages: seq<Line>
    var input: string

    constructor ()
      ensures messages == [] && input == ""
    {
      messages, input := [], "";
    }

    /** The text box's onChange. */
    method SetInput(text: string)
      modifies this`input
      ensures input == text && messages == old(messages)
    {
      input := text;
    }

    /**
     * Before the await: a blank input (one that trims to "") changes nothing
     * and sends nothing. Otherwise the input, untrimmed, is appended as a user
     * line, the text box is cleared, and the request carries the input and
     * the transcript as it was.
     */
    method BeginSend() returns (pending: Option<Pending>)
      modifies this
      ensures AllSpace(old(input)) ==> pending == None && messages == old(messages) && input == old(input)
      ensures !AllSpace(old(input)) ==>
        && pending == Some(Pending(ChatRequest(old(input), old(messages)), old(messages), Line("user", Some(old(input)))))
        && messages == old(messages) + [Line("user", Some(old(input)))]
        && input == ""
    {
      TrimEmptyIffAllSpace(input);
      if Trim(input) == "" {
        return None;
      }
      var userLine := Line("user", Some(input));
      pending := Some(Pending(ChatRequest(input, messages), messages, userLine));
      messages := messages + [userLine];
      input := "";
    }

    /**
     * After the await: an answer replaces the transcript by the captured
     * snapshot, the user line and the assistant's reply, whatever the
     * transcript holds by then; a rejection leaves the state as it is.
     */
    method CompleteSend(p: Pending, answer: Answer)
      modifies this`messages
      ensures answer.Json? ==> messages == p.snapshot + [p.userLine, Line("assistant", answer.reply)]
      ensures answer.Rejected? ==> messages == old(messages)
    {
      if answer.Json? {
        messages := p.snapshot + [p.userLine, Line("assistant", answer.reply)];
      }
    }

    /**
     * `sendMessage` with nothing in between the two halves: a non-blank input
     * adds exactly the user line and the reply to the end of the transcript,
     * or only the user line when the request is rejected.
     */
    method SendMessage(answer: Answer) returns (request: Option<ChatRequest>)
      modifies this
      ensures AllSpace(old(input)) ==> request == None && messages == old(messages) && input == old(input)
      ensures !AllSpace(old(input)) ==>
        && request == Some(ChatRequest(old(input), old(messages)))
        && input == ""
        && messages == old(messages) + [Line("user", Some(old(input)))] +
                       (if answer.Json? then [Line("assistant", answer.reply)] else [])
    {
      var pending := BeginSend();
      request := None;
      if pending.Some? {
        request := Some(pending.value.request);
        CompleteSend(pending.value, answer);
      }
    }
  }
}
