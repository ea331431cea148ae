/**
 * app/components/SmartChat.tsx: the booking assistant widget. It keeps the
 * transcript, streams each assistant reply into a placeholder message, picks
 * an `order` object out of the first ```json block of a finished reply and
 * merges it into a free-form order draft, lets the visitor edit the draft in
 * a confirmation form, and posts it to /api/order.
 *
 * The component's React state becomes the fields of `ChatSession`; every
 * network result (response status, the chunks the reader delivers, what
 * JSON.parse makes of a payload, the order endpoint's answer) and every
 * `Date.now()` used in an id is a parameter of the method that awaits it.
 */
module SmartChat {
  import opened Js
  import opened Phone

  datatype Role = User | Assistant | System | OrderNote

  /** A transcript entry; `id` is 'u_'/'a_'/'ord_' followed by a timestamp. */
  datatype Msg = Msg(id: string, role: Role, content: string)

  /** The free-form order draft: JSON keys to string values. */
  type Draft = map<string, string>

  const ServerErrorText := "Ошибка сервера при получении ответа"
  const ConnectErrorText := "Ошибка при подключении к API"
  const CarClassPrefix := "Класс автомобиля: "
  const OrderSentPrefix := "Заказ отправлен: "

  // ---------------------------------------------------------------------------
  // rewriting the placeholder: `s.map(m => m.id === id ? { ...m, content } : m)`

  /** Every message carrying `id` gets `text` as content; all others are kept. */
  function SetContent(msgs: seq<Msg>, id: string, text: string): (r: seq<Msg>)
    ensures |r| == |msgs|
    ensures forall k :: 0 <= k < |r| ==>
      (msgs[k].id == id ==> r[k] == msgs[k].(content := text)) &&
      (msgs[k].id != id ==> r[k] == msgs[k])
    decreases |msgs|
  {
    if msgs == [] then []
    else
      var head := if msgs[0].id == id then msgs[0].(content := text) else msgs[0];
      [head] + SetContent(msgs[1..], id, text)
  }

  /** Rewriting the same placeholder twice leaves only the second text. */
  lemma SetContentLastWins(msgs: seq<Msg>, id: string, first: string, second: string)
    ensures SetContent(SetContent(msgs, id, first), id, second) == SetContent(msgs, id, second)
  {
    var a := SetContent(SetContent(msgs, id, first), id, second);
    var b := SetContent(msgs, id, second);
    assert |a| == |b|;
    forall k | 0 <= k < |a| ensures a[k] == b[k] {
      assert SetContent(msgs, id, first)[k].id == msgs[k].id;
    }
  }

  /** Rewriting an id that is not in the transcript changes nothing. */
  lemma SetContentAbsentId(msgs: seq<Msg>, id: string, text: string)
    requires forall k :: 0 <= k < |msgs| ==> msgs[k].id != id
    ensures SetContent(msgs, id, text) == msgs
  {
  }

  // ---------------------------------------------------------------------------
  // the streamed reply

  /** How the reader's stream ended: a `done` read (maybe with a last value), or a rejected read. */
  datatype StreamEnd = Finished(value: Option<string>) | Broken

  /** The decoded values of the reads before the last one (None: a read without a value), and the end. */
  datatype Stream = Stream(chunks: seq<Option<string>>, end: StreamEnd)

  /** What `fetch('/api/chat/stream', ...)` produced. */
  datatype ChatReply = FetchThrew | NotOk | Streamed(stream: Stream)

  /** The values among the chunks, in order. */
  function Present(chunks: seq<Option<string>>): seq<string>
    decreases |chunks|
  {
    if chunks == [] then []
    else
      var last := chunks[|chunks| - 1];
      Present(chunks[..|chunks| - 1]) + (if last.Some? then [last.value] else [])
  }

  /** Every value the reader delivered, including one that came with `done`. */
  function Received(s: Stream): seq<string> {
    Present(s.chunks) + (if s.end.Finished? && s.end.value.Some? then [s.end.value.value] else [])
  }

  /** `full += chunk`, over a whole list of chunks. */
  function Joined(parts: seq<string>): string
    decreases |parts|
  {
    if parts == [] then "" else Joined(parts[..|parts| - 1]) + parts[|parts| - 1]
  }

  /** The joined text splits at any chunk boundary into the two joined halves. */
  lemma {:induction false} JoinedSplit(parts: seq<string>, k: nat)
    requires k <= |parts|
    ensures Joined(parts) == Joined(parts[..k]) + Joined(parts[k..])
    decreases |parts|
  {
    if k < |parts| {
      var init := parts[..|parts| - 1];
      JoinedSplit(init, k);
      assert init[..k] == parts[..k];
      assert parts[k..][..|parts[k..]| - 1] == init[k..];
    } else {
      assert parts[..k] == parts;
    }
  }

  /**
   * The text shown after j chunks is a prefix of the text shown after k >= j
   * chunks: the placeholder only ever grows, never reorders.
   */
  lemma ShownTextGrows(parts: seq<string>, j: nat, k: nat)
    requires j <= k <= |parts|
    ensures Joined(parts[..j]) <= Joined(parts[..k])
  {
    JoinedSplit(parts[..k], j);
    assert parts[..k][..j] == parts[..j];
  }

  /** The successive texts of the placeholder: one entry per chunk received. */
  function Prefixes(parts: seq<string>): (r: seq<string>)
    ensures |r| == |parts|
    decreases |parts|
  {
    if parts == [] then [] else Prefixes(parts[..|parts| - 1]) + [Joined(parts)]
  }

  /** The k-th text shown is the concatenation of the first k+1 chunks. */
  lemma {:induction false} PrefixesAreJoins(parts: seq<string>)
    ensures forall k :: 0 <= k < |parts| ==> Prefixes(parts)[k] == Joined(parts[..k + 1])
    decreases |parts|
  {
    if parts != [] {
      var init := parts[..|parts| - 1];
      PrefixesAreJoins(init);
      forall k | 0 <= k < |parts| ensures Prefixes(parts)[k] == Joined(parts[..k + 1]) {
        if k < |init| {
          assert init[..k + 1] == parts[..k + 1];
        } else {
          assert parts[..k + 1] == parts;
        }
      }
    }
  }

  /** The placeholder's content after receiving `parts`: untouched until the first value arrives. */
  function Displayed(base: seq<Msg>, id: string, parts: seq<string>): seq<Msg> {
    if parts == [] then base else SetContent(base, id, Joined(parts))
  }

  /** Reading one more chunk adds its value, if it has one, to the values present. */
  lemma PresentStep(chunks: seq<Option<string>>, i: nat)
    requires i < |chunks|
    ensures Present(chunks[..i + 1]) ==
      Present(chunks[..i]) + (if chunks[i].Some? then [chunks[i].value] else [])
  {
    assert chunks[..i + 1][..i] == chunks[..i];
  }

  /**
   * One more value: the text grows by it, one more text is shown, and the
   * placeholder is rewritten to the new text.
   */
  lemma ReceiveOne(base: seq<Msg>, id: string, got: seq<string>, v: string)
    ensures Joined(got + [v]) == Joined(got) + v
    ensures Prefixes(got + [v]) == Prefixes(got) + [Joined(got) + v]
    ensures Displayed(base, id, got + [v]) == SetContent(Displayed(base, id, got), id, Joined(got) + v)
  {
    assert (got + [v])[..|got|] == got;
    if got != [] {
      SetContentLastWins(base, id, Joined(got), Joined(got) + v);
    }
  }

  /** The chunks "Hel", "lo wor", "ld" are shown as "Hel", "Hello wor", "Hello world". */
  lemma HelloWorldChunks()
    ensures Prefixes(["Hel", "lo wor", "ld"]) == ["Hel", "Hello wor", "Hello world"]
  {
    var parts := ["Hel", "lo wor", "ld"];
    assert parts[..2][..1] == parts[..1];
    assert parts[..1][..0] == [];
    assert Joined(parts[..1]) == "Hel";
    assert Joined(parts[..2]) == "Hello wor";
    assert Joined(parts) == "Hello world";
    assert Prefixes(parts[..1]) == ["Hel"];
    assert Prefixes(parts[..2]) == ["Hel", "Hello wor"];
  }

  // ---------------------------------------------------------------------------
  // /```json\n([\s\S]*?)\n```/.exec(full)

  const Opener := "```json\n"
  const Closer := "\n```"

  /** A match: where the opening fence starts, and the captured group. */
  datatype Block = Block(start: nat, body: string)

  /**
   * The leftmost, shortest match of the fence pattern. When there is one, it
   * starts at the first opening fence and the body runs to the first closing
   * fence after it; when there is none, no opening fence is followed by any
   * closing fence.
   */
  function FindJsonBlock(text: string): (r: Option<Block>)
    ensures r.Some? ==>
      && OccursAt(text, Opener, r.value.start)
      && (forall p: nat :: p < r.value.start ==> !OccursAt(text, Opener, p))
      && var from := r.value.start + |Opener|;
         var end := from + |r.value.body|;
         && end <= |text| && text[from..end] == r.value.body
         && OccursAt(text, Closer, end)
         && (forall c: nat :: from <= c < end ==> !OccursAt(text, Closer, c))
    ensures r.None? ==>
      forall p: nat, c: nat :: OccursAt(text, Opener, p) && p + |Opener| <= c ==> !OccursAt(text, Closer, c)
  {
    match IndexOf(text, Opener, 0)
    case None => None
    case Some(p) =>
      match IndexOf(text, Closer, p + |Opener|)
      case None => None
      case Some(c) => Some(Block(p, text[p + |Opener|..c]))
  }

  /**
   * A payload fenced as ```json ... ``` after text without backticks is
   * found again exactly, whatever follows the closing fence, provided the
   * payload does not itself contain a closing fence.
   */
  lemma FencedPayloadFound(pre: string, body: string, post: string)
    requires '`' !in pre
    requires forall c: nat :: !OccursAt(body, Closer, c)
    ensures FindJsonBlock(pre + (Opener + (body + Closer + post))) == Some(Block(|pre|, body))
  {
    var text := pre + (Opener + (body + Closer + post));
    var from := |pre| + |Opener|;
    FencedPieces(pre, body, post);
    FirstOpener(text, pre);
    FirstCloser(text, from, body, post);
    BlockFromFences(text, |pre|, from + |body|, body);
  }

  /** Where the pieces of a fenced text sit. */
  lemma FencedPieces(pre: string, body: string, post: string)
    ensures var text := pre + (Opener + (body + Closer + post));
      && text[..|pre|] == pre
      && OccursAt(text, Opener, |pre|)
      && text[|pre| + |Opener|..] == body + Closer + post
  {
    var text := pre + (Opener + (body + Closer + post));
    assert text[|pre|..] == Opener + (body + Closer + post);
    assert text[|pre|..|pre| + |Opener|] == Opener;
  }

  /** After a backtick-free prefix, an opening fence is the first one. */
  lemma FirstOpener(text: string, pre: string)
    requires '`' !in pre && |pre| <= |text| && text[..|pre|] == pre && OccursAt(text, Opener, |pre|)
    ensures IndexOf(text, Opener, 0) == Some(|pre|)
  {
    forall p: nat | p < |pre| ensures !OccursAt(text, Opener, p) {
      assert text[p] == text[..|pre|][p] == pre[p];
      assert pre[p] in pre;
      assert Opener[0] == '`';
      assert p + |Opener| <= |text| ==> text[p..p + |Opener|][0] == text[p];
    }
    IndexOfFirst(text, Opener, 0, |pre|);
  }

  /**
   * When the text from `from` on is a body without a closing fence followed
   * by one, the first closing fence from `from` on is the one after the body.
   */
  lemma FirstCloser(text: string, from: nat, body: string, post: string)
    requires from <= |text| && text[from..] == body + Closer + post
    requires forall c: nat :: !OccursAt(body, Closer, c)
    ensures IndexOf(text, Closer, from) == Some(from + |body|)
  {
    var end := from + |body|;
    assert text[from..end] == body;
    assert text[end..end + |Closer|] == Closer;
    forall c: nat | from <= c < end ensures !OccursAt(text, Closer, c) {
      if c + |Closer| <= end {
        assert text[c..c + |Closer|] == body[c - from..c - from + |Closer|];
        assert !OccursAt(body, Closer, c - from);
      } else {
        // the closing fence's leading newline would sit on one of its backticks
        assert text[c..c + |Closer|][end - c] == text[end] == '\n';
        assert Closer[end - c] == '`';
      }
    }
    IndexOfFirst(text, Closer, from, end);
  }

  /** The match is made of the first opening fence and the first closing fence after it. */
  lemma BlockFromFences(text: string, p: nat, c: nat, body: string)
    requires IndexOf(text, Opener, 0) == Some(p)
    requires IndexOf(text, Closer, p + |Opener|) == Some(c)
    requires p + |Opener| <= c <= |text| && text[p + |Opener|..][..c - (p + |Opener|)] == body
    ensures FindJsonBlock(text) == Some(Block(p, body))
  {
    assert text[p + |Opener|..c] == text[p + |Opener|..][..c - (p + |Opener|)];
  }

  /** What `JSON.parse(payload)` followed by `parsed?.order` yields. */
  datatype Payload = Unparseable | NoOrder | WithOrder(order: Draft)

  /** The order a finished reply carries: a non-empty fenced payload that parses with an `order`. */
  function CapturedOrder(reply: string, parse: string -> Payload): (r: Option<Draft>)
    ensures r.Some? <==>
      FindJsonBlock(reply).Some? && FindJsonBlock(reply).value.body != "" &&
      parse(FindJsonBlock(reply).value.body).WithOrder?
    ensures r.Some? ==> parse(FindJsonBlock(reply).value.body) == WithOrder(r.value)
  {
    match FindJsonBlock(reply)
    case None => None
    case Some(block) =>
      if block.body == "" then None
      else match parse(block.body)
        case WithOrder(order) => Some(order)
        case _ => None
  }

  // ---------------------------------------------------------------------------
  // the draft

  /** `{ ...prev, ...order }`: the order's keys overwrite, every other key keeps its value. */
  function Merge(prev: Draft, order: Draft): (r: Draft)
    ensures r.Keys == prev.Keys + order.Keys
    ensures forall k :: k in order ==> r[k] == order[k]
    ensures forall k :: k in prev && k !in order ==> r[k] == prev[k]
  {
    prev + order
  }

  /** Merging nothing (`order || {}` for an undefined order) keeps the draft. */
  lemma MergeNothing(prev: Draft)
    ensures Merge(prev, map[]) == prev
  {
  }

  /** Merging a draft into itself (the "Оформить заказ" button) keeps it. */
  lemma MergeSelf(prev: Draft)
    ensures Merge(prev, prev) == prev
  {
  }

  /** The inputs of the confirmation form. */
  datatype FormField = NameField | PhoneField | PickupField | DropoffField | DatetimeField | CarClassField | NotesField

  function Key(f: FormField): string {
    match f
    case NameField => "name"
    case PhoneField => "phone"
    case PickupField => "pickup"
    case DropoffField => "dropoff"
    case DatetimeField => "datetime"
    case CarClassField => "carClass"
    case NotesField => "notes"
  }

  /** `setOrderDraft({ ...orderDraft, [key]: value })`: that field is set, every other one is kept. */
  function Edit(d: Draft, f: FormField, value: string): (r: Draft)
    ensures Prop(r, Key(f)) == Some(value)
    ensures forall other: FormField :: other != f ==> Prop(r, Key(other)) == Prop(d, Key(other))
    ensures forall k :: k != Key(f) ==> Prop(r, k) == Prop(d, k)
  {
    d[Key(f) := value]
  }

  /** Edits of two different form fields do not interfere, in either order. */
  lemma EditsCommute(d: Draft, f: FormField, g: FormField, a: string, b: string)
    requires f != g
    ensures Edit(Edit(d, f, a), g, b) == Edit(Edit(d, g, b), f, a)
  {
    assert Key(f) != Key(g);
  }

  /**
   * The text of the 'order' message appended after a successful submission:
   * it opens with the name and phone and closes with the time in brackets.
   */
  function OrderSummary(d: Draft): (r: string)
    ensures var head := OrderSentPrefix + Interp(Prop(d, "name")) + " " + Interp(Prop(d, "phone")) + " — ";
      |head| <= |r| && r[..|head|] == head
    ensures var tail := " (" + Or(Prop(d, "datetime"), "-") + ")";
      |tail| <= |r| && r[|r| - |tail|..] == tail
    // pickup and dropoff each fall back to '-' on their own, whatever the other fields hold
    ensures var head := OrderSentPrefix + Interp(Prop(d, "name")) + " " + Interp(Prop(d, "phone")) + " — ";
      var pickup := Or(Prop(d, "pickup"), "-") + " → ";
      |head| + |pickup| <= |r| && r[|head|..|head| + |pickup|] == pickup
    ensures var tail := " (" + Or(Prop(d, "datetime"), "-") + ")";
      var dropoff := Or(Prop(d, "dropoff"), "-");
      |dropoff| + |tail| <= |r| && r[|r| - |tail| - |dropoff|..|r| - |tail|] == dropoff
    // and nothing else: the four pieces make up the whole text
    ensures var head := OrderSentPrefix + Interp(Prop(d, "name")) + " " + Interp(Prop(d, "phone")) + " — ";
      var pickup := Or(Prop(d, "pickup"), "-") + " → ";
      var dropoff := Or(Prop(d, "dropoff"), "-");
      var tail := " (" + Or(Prop(d, "datetime"), "-") + ")";
      |r| == |head| + |pickup| + |dropoff| + |tail|
  {
    var head := OrderSentPrefix + Interp(Prop(d, "name")) + " " + Interp(Prop(d, "phone")) + " — ";
    var pickup := Or(Prop(d, "pickup"), "-") + " → ";
    var dropoff := Or(Prop(d, "dropoff"), "-");
    var tail := " (" + Or(Prop(d, "datetime"), "-") + ")";
    FourPieces(head, pickup, dropoff, tail);
    head + pickup + dropoff + tail
  }

  /** Each of four concatenated pieces can be read back at its own offset. */
  lemma FourPieces(a: string, b: string, c: string, e: string)
    ensures var r := a + b + c + e;
      r[..|a|] == a && r[|a|..|a| + |b|] == b &&
      r[|r| - |e| - |c|..|r| - |e|] == c && r[|r| - |e|..] == e
  {
  }

  /**
   * Any draft whose pickup, dropoff and time are missing or empty is
   * summarised with '-' for each of them.
   */
  lemma SummaryFallbacks(d: Draft)
    requires !Truthy(Prop(d, "pickup")) && !Truthy(Prop(d, "dropoff")) && !Truthy(Prop(d, "datetime"))
    ensures OrderSummary(d) ==
      OrderSentPrefix + Interp(Prop(d, "name")) + " " + Interp(Prop(d, "phone")) + " — - → - (-)"
  {
  }

  /** A draft with only name and phone is summarised with '-' for pickup, dropoff and time. */
  lemma SummaryOfBareDraft(name: string, phone: string)
    ensures OrderSummary(map["name" := name, "phone" := phone]) ==
      OrderSentPrefix + name + " " + phone + " — - → - (-)"
  {
    SummaryFallbacks(map["name" := name, "phone" := phone]);
  }

  /** `submitOrder`'s own check: name and phone present and non-empty. */
  predicate SubmitGate(d: Draft): (r: bool)
    ensures r <==> "name" in d && d["name"] != "" && "phone" in d && d["phone"] != ""
  {
    Truthy(Prop(d, "name")) && Truthy(Prop(d, "phone"))
  }

  /** The confirmation button's `disabled` condition, negated. */
  function SubmitEnabled(sending: bool, d: Draft, parsePhone: string -> ParseResult): (r: bool)
    ensures r ==> SubmitGate(d) && !sending
    ensures r <==> !sending && SubmitGate(d) && parsePhone(d["phone"]) == Number(true)
  {
    !sending && Truthy(Prop(d, "name")) && Truthy(Prop(d, "phone")) && IsValidPhone(Prop(d, "phone"), parsePhone)
  }

  // ---------------------------------------------------------------------------
  // the component state

  /** The body posted to /api/chat/stream. */
  datatype StreamRequest = StreamRequest(message: string, history: seq<Msg>)

  /** The body posted to /api/order. */
  datatype OrderRequest = OrderRequest(order: Draft, chatHistory: seq<Msg>)

  /** What `fetch('/api/order')` and `res.json()` produced. */
  datatype OrderAnswer = OrderThrew | OrderAnswered(ok: bool)

  /** The transcript once a reply to the placeholder `id` has been handled. */
  function AfterReply(base: seq<Msg>, id: string, reply: ChatReply): seq<Msg> {
    match reply
    case FetchThrew => SetContent(base, id, ConnectErrorText)
    case NotOk => SetContent(base, id, ServerErrorText)
    case Streamed(s) =>
      if s.end.Broken? then SetContent(base, id, ConnectErrorText)
      else Displayed(base, id, Received(s))
  }

  /** The order captured from a reply: only a stream that finished can carry one. */
  function ReplyOrder(reply: ChatReply, parse: string -> Payload): Option<Draft> {
    if reply.Streamed? && reply.stream.end.Finished? then CapturedOrder(Joined(Received(reply.stream)), parse)
    else None
  }

  /** The draft after a reply: merged with the captured order, if any. */
  function DraftAfter(prev: Draft, reply: ChatReply, parse: string -> Payload): Draft {
    match ReplyOrder(reply, parse)
    case Some(order) => Merge(prev, order)
    case None => prev
  }

  /**
   * Whatever the reply, only the placeholder's content changes: the
   * transcript keeps its length, and every message keeps its id and role
   * and, unless it carries the placeholder's id, its content.
   */
  lemma AfterReplyTouchesOnlyPlaceholder(base: seq<Msg>, id: string, reply: ChatReply)
    ensures |AfterReply(base, id, reply)| == |base|
    ensures forall k :: 0 <= k < |base| ==>
      AfterReply(base, id, reply)[k].id == base[k].id &&
      AfterReply(base, id, reply)[k].role == base[k].role &&
      (base[k].id != id ==> AfterReply(base, id, reply)[k] == base[k])
  {
  }

  /** A failed or broken reply leaves an error text in the placeholder and never changes the draft. */
  lemma FailedReplyKeepsDraft(prev: Draft, reply: ChatReply, parse: string -> Payload)
    requires !reply.Streamed? || reply.stream.end.Broken?
    ensures DraftAfter(prev, reply, parse) == prev
  {
  }

  class ChatSession {
    var messages: seq<Msg>
    var input: string
    var orderDraft: Draft
    var confirmOpen: bool
    var sendingOrder: bool
    var lastAssistantId: Option<string>

    constructor ()
      ensures messages == [] && input == "" && orderDraft == map[]
      ensures !confirmOpen && !sendingOrder && lastAssistantId == None
    {
      messages, input, orderDraft := [], "", map[];
      confirmOpen, sendingOrder, lastAssistantId := false, false, None;
    }

    /** The text box's onChange. */
    method SetInput(text: string)
      modifies this`input
      ensures input == text
    {
      input := text;
    }

    /** `append(m)` */
    method Append(m: Msg)
      modifies this`messages
      ensures messages == old(messages) + [m]
    {
      messages := messages + [m];
    }

    /**
     * The `while (!done)` loop: every value read is appended to `full` and
     * written into the placeholder, so after each one the placeholder holds
     * the in-order concatenation of everything received so far; `shown` lists
     * those successive texts. A rejected read stops the loop (`broken`).
     */
    method ReceiveReply(id: string, stream: Stream) returns (full: string, broken: bool, shown: seq<string>)
      modifies this`messages
      ensures broken == stream.end.Broken?
      ensures !broken ==> full == Joined(Received(stream)) && shown == Prefixes(Received(stream))
      ensures !broken ==> messages == Displayed(old(messages), id, Received(stream))
      ensures broken ==> messages == Displayed(old(messages), id, Present(stream.chunks))
      ensures broken ==> full == Joined(Present(stream.chunks)) && shown == Prefixes(Present(stream.chunks))
    {
      full, broken, shown := "", false, [];
      var done := false;
      var i := 0;
      ghost var got: seq<string> := [];
      while !done
        invariant 0 <= i <= |stream.chunks|
        invariant !done ==> got == Present(stream.chunks[..i])
        invariant done ==> stream.end.Finished? && got == Received(stream)
        invariant full == Joined(got) && shown == Prefixes(got)
        invariant messages == Displayed(old(messages), id, got)
        decreases |stream.chunks| - i, !done
      {
        // `const { value, done: d } = await reader.read()`
        var value: Option<string>;
        if i < |stream.chunks| {
          value := stream.chunks[i];
          PresentStep(stream.chunks, i);
          i := i + 1;
        } else if stream.end.Broken? {
          assert stream.chunks[..i] == stream.chunks;
          broken := true;
          break;
        } else {
          assert stream.chunks[..i] == stream.chunks;
          value := stream.end.value;
          done := true;
        }
        if value.Some? {
          ReceiveOne(old(messages), id, got, value.value);
          got := got + [value.value];
          full := full + value.value;
          messages := SetContent(messages, id, full);
          shown := shown + [full];
        }
      }
    }

    /**
     * Awaiting the reply for the placeholder `id`: a failed request or a
     * broken stream leaves an error text in the placeholder; a stream that
     * finished leaves the whole reply there and merges the order it carries
     * (if any) into the draft, opening the confirmation form.
     */
    method AwaitReply(id: string, reply: ChatReply, parse: string -> Payload) returns (shown: seq<string>)
      modifies this`messages, this`orderDraft, this`confirmOpen
      ensures messages == AfterReply(old(messages), id, reply)
      ensures orderDraft == DraftAfter(old(orderDraft), reply, parse)
      ensures confirmOpen == (old(confirmOpen) || ReplyOrder(reply, parse).Some?)
      ensures shown == if reply.Streamed? && reply.stream.end.Finished? then Prefixes(Received(reply.stream))
                       else if reply.Streamed? then Prefixes(Present(reply.stream.chunks)) else []
    {
      shown := [];
      match reply {
        case FetchThrew =>
          messages := SetContent(messages, id, ConnectErrorText);
        case NotOk =>
          messages := SetContent(messages, id, ServerErrorText);
        case Streamed(stream) =>
          var full, broken;
          full, broken, shown := ReceiveReply(id, stream);
          if broken {
            // the outer catch: the partial text is replaced by the error
            if Present(stream.chunks) != [] {
              SetContentLastWins(old(messages), id, Joined(Present(stream.chunks)), ConnectErrorText);
            }
            messages := SetContent(messages, id, ConnectErrorText);
          } else {
            var block := FindJsonBlock(full);
            var payloadStr := if block.Some? then block.value.body else "";
            if payloadStr != "" {
              match parse(payloadStr) {
                case WithOrder(order) =>
                  orderDraft := Merge(orderDraft, order);
                  confirmOpen := true;
                case _ =>
              }
            }
          }
      }
    }

    /**
     * The part of `sendMessage(text?)` before the request is awaited. A
     * message that trims to nothing changes nothing. Otherwise the trimmed
     * text is appended as a user message, the input is cleared, an empty
     * assistant placeholder is appended, and the request carries the
     * transcript as it was before this send.
     */
    method BeginSend(text: Option<string>, userStamp: string, assistantStamp: string)
      returns (request: Option<StreamRequest>, placeholder: Option<string>)
      modifies this`messages, this`input, this`lastAssistantId
      ensures Trim(text.GetOr(old(input))) == "" ==>
        request == None && placeholder == None &&
        messages == old(messages) && input == old(input) && lastAssistantId == old(lastAssistantId)
      ensures Trim(text.GetOr(old(input))) != "" ==>
        var messageText := Trim(text.GetOr(old(input)));
        && placeholder == Some("a_" + assistantStamp)
        && request == Some(StreamRequest(messageText, old(messages)))
        && messages == old(messages) + [Msg("u_" + userStamp, User, messageText), Msg("a_" + assistantStamp, Assistant, "")]
        && input == "" && lastAssistantId == placeholder
    {
      request, placeholder := None, None;
      var messageText := Trim(text.GetOr(input));
      if messageText == "" {
        return;
      }
      var history := messages;
      messages := messages + [Msg("u_" + userStamp, User, messageText)];
      input := "";
      placeholder := Some("a_" + assistantStamp);
      lastAssistantId := placeholder;
      messages := messages + [Msg(placeholder.value, Assistant, "")];
      request := Some(StreamRequest(messageText, history));
    }

    /** `clearChat`: the transcript is emptied; the draft is not touched. */
    method ClearChat()
      modifies this`messages
      ensures messages == []
    {
      messages := [];
    }

    /** `openConfirmForOrder(order?)`: merge the given order (none: `{}`) and open the form. */
    method OpenConfirmForOrder(order: Option<Draft>)
      modifies this`orderDraft, this`confirmOpen
      ensures orderDraft == Merge(old(orderDraft), order.GetOr(map[]))
      ensures confirmOpen
    {
      orderDraft := Merge(orderDraft, order.GetOr(map[]));
      confirmOpen := true;
    }

    /** The form's close and cancel buttons. */
    method CloseConfirm()
      modifies this`confirmOpen
      ensures !confirmOpen
    {
      confirmOpen := false;
    }

    /** One confirmation-form input; the phone input stores `formatPhoneForDisplay(value)`. */
    method EditField(f: FormField, typed: string, asYouType: string -> AsYouTypeResult)
      modifies this`orderDraft
      ensures orderDraft == Edit(old(orderDraft), f,
                                 if f == PhoneField then FormatPhoneForDisplay(typed, asYouType) else typed)
    {
      var value := if f == PhoneField then FormatPhoneForDisplay(typed, asYouType) else typed;
      orderDraft := Edit(orderDraft, f, value);
    }

    /**
     * `submitOrder`. Without name or phone nothing is sent and nothing
     * changes. Otherwise the draft and transcript are posted; an ok answer
     * appends exactly one 'order' message, closes the form and empties the
     * draft, any other outcome keeps them; `sendingOrder` ends false.
     */
    method SubmitOrder(stamp: string, answer: OrderAnswer) returns (request: Option<OrderRequest>)
      modifies this
      ensures !SubmitGate(old(orderDraft)) ==> request == None && unchanged(this)
      ensures SubmitGate(old(orderDraft)) ==>
        && request == Some(OrderRequest(old(orderDraft), old(messages)))
        && !sendingOrder && input == old(input) && lastAssistantId == old(lastAssistantId)
        && (answer == OrderAnswered(true) ==>
              messages == old(messages) + [Msg("ord_" + stamp, OrderNote, OrderSummary(old(orderDraft)))] &&
              !confirmOpen && orderDraft == map[])
        && (answer != OrderAnswered(true) ==>
              messages == old(messages) && confirmOpen == old(confirmOpen) && orderDraft == old(orderDraft))
    {
      request := None;
      if !Truthy(Prop(orderDraft, "name")) || !Truthy(Prop(orderDraft, "phone")) {
        return;
      }
      sendingOrder := true;
      request := Some(OrderRequest(orderDraft, messages));
      match answer {
        case OrderAnswered(ok) =>
          if ok {
            Append(Msg("ord_" + stamp, OrderNote, OrderSummary(orderDraft)));
            confirmOpen := false;
            orderDraft := map[];
          }
        case OrderThrew =>
      }
      sendingOrder := false;
    }

    /**
     * `addCarClassHint(cls)`: the car class is set in the draft, then a
     * message naming it is sent. The send is not awaited, so what follows at
     * once is `BeginSend`'s part; its reply arrives later through `AwaitReply`.
     */
    method AddCarClassHint(cls: string, userStamp: string, assistantStamp: string)
      returns (request: Option<StreamRequest>, placeholder: Option<string>)
      modifies this`orderDraft, this`messages, this`input, this`lastAssistantId
      ensures orderDraft == Edit(old(orderDraft), CarClassField, cls)
      ensures placeholder == Some("a_" + assistantStamp)
      ensures request == Some(StreamRequest(Trim(CarClassPrefix + cls), old(messages)))
      ensures messages == old(messages) + [Msg("u_" + userStamp, User, Trim(CarClassPrefix + cls)),
                                           Msg("a_" + assistantStamp, Assistant, "")]
      ensures input == "" && lastAssistantId == placeholder
    {
      orderDraft := Edit(orderDraft, CarClassField, cls);
      assert !IsSpace(CarClassPrefix[0]);
      assert (CarClassPrefix + cls)[0] == CarClassPrefix[0];
      TrimEmptyIffAllSpace(CarClassPrefix + cls);
      request, placeholder := BeginSend(Some(CarClassPrefix + cls), userStamp, assistantStamp);
    }
  }
}
