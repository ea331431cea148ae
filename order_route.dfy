/**
 * app/api/order/route.ts: receives a confirmed order and the chat transcript,
 * checks that name and phone are present, then notifies the Bitrix24 CRM and
 * the Telegram bot one after the other. Each channel is skipped when it is not
 * configured, and a failure in one is caught without affecting the other.
 */
module OrderRoute {
  import opened Js
  import opened Outbound

  /** An order as posted: a JSON object of string values (`orderDraft` on the client). */
  type Order = map<string, string>

  /** One posted transcript entry, as far as `${m.role}: ${m.content}` reads it. */
  datatype Turn = Turn(role: Option<string>, content: Option<string>)

  /** The result of `await req.json()` destructured into `{ order, chatHistory }`. */
  datatype OrderBody =
    | Malformed                                        // req.json() rejects, or the body is null
    | OrderBody(order: Option<Order>, chatHistory: Option<seq<Turn>>)

  /** `{ success: true, bitrix, telegram }`, or `{ message }` on a rejection. */
  datatype OrderReply = Message(message: string) | Accepted(bitrix: Option<string>, telegram: Option<string>)
  datatype OrderResponse = OrderResponse(status: nat, reply: OrderReply)

  const Rejected := OrderResponse(400, Message("Name and phone are required"))
  const ServerError := OrderResponse(500, Message("Server error"))

  /** `order?.name && order?.phone` */
  predicate HasNameAndPhone(order: Option<Order>): (r: bool)
    ensures r <==> order.Some? && "name" in order.value && order.value["name"] != "" &&
                   "phone" in order.value && order.value["phone"] != ""
  {
    Truthy(OptProp(order, "name")) && Truthy(OptProp(order, "phone"))
  }

  /** `${m.role}: ${m.content}` for each transcript entry. */
  function TurnLines(turns: seq<Turn>): (r: seq<string>)
    ensures |r| == |turns|
    ensures forall k :: 0 <= k < |r| ==> r[k] == Interp(turns[k].role) + ": " + Interp(turns[k].content)
  {
    seq(|turns|, k requires 0 <= k < |turns| => Interp(turns[k].role) + ": " + Interp(turns[k].content))
  }

  /**
   * `chatHistory?.map(...).join('\n') || ''`: empty without a transcript;
   * otherwise its lines read back as one "role: content" line per entry.
   */
  function TranscriptText(chatHistory: Option<seq<Turn>>): (r: string)
    ensures chatHistory.None? || chatHistory.value == [] ==> r == ""
    ensures chatHistory.Some? && chatHistory.value != [] && SingleLineTurns(chatHistory.value) ==>
      SplitLines(r) == TurnLines(chatHistory.value)
  {
    if chatHistory.Some? then
      TurnLinesReadBack(chatHistory.value);
      JoinLines(TurnLines(chatHistory.value))
    else ""
  }

  lemma TurnLinesReadBack(turns: seq<Turn>)
    ensures turns != [] && SingleLineTurns(turns) ==> SplitLines(JoinLines(TurnLines(turns))) == TurnLines(turns)
  {
    if turns != [] && SingleLineTurns(turns) {
      TurnLinesSingle(turns);
      SplitJoin(TurnLines(turns));
    }
  }

  /** The four order lines at the head of the lead's COMMENTS. */
  function CommentHead(order: Order): seq<string> {
    [ "Подача: " + Interp(Prop(order, "pickup")),
      "Назначение: " + Interp(Prop(order, "dropoff")),
      "Дата/время: " + Or(Prop(order, "datetime"), "-"),
      "Примечание: " + Or(Prop(order, "notes"), "-") ]
  }

  /**
   * The lead's COMMENTS: the order lines and the "Из чата:" heading, then a
   * newline and the transcript text exactly as joined, whatever it holds.
   */
  function LeadComments(order: Order, chatHistory: Option<seq<Turn>>): (r: string)
    ensures r == JoinLines(CommentHead(order) + ["", "Из чата:"]) + "\n" + TranscriptText(chatHistory)
  {
    var lines := CommentHead(order) + ["", "Из чата:", TranscriptText(chatHistory)];
    assert lines == (CommentHead(order) + ["", "Из чата:"]) + [TranscriptText(chatHistory)];
    JoinLinesAppend(CommentHead(order) + ["", "Из чата:"], [TranscriptText(chatHistory)]);
    JoinLines(lines)
  }

  /** The `fields` of the CRM lead for a validated order. */
  function OrderLead(name: string, phone: string, order: Order, chatHistory: Option<seq<Turn>>): (r: Lead)
    ensures r.title == "Заказ от " + name && r.name == name
    ensures r.phones == [PhoneEntry(phone, WorkPhone)]
    ensures r.comments == LeadComments(order, chatHistory)
  {
    Lead("Заказ от " + name, name, [PhoneEntry(phone, WorkPhone)], LeadComments(order, chatHistory))
  }

  /** The six lines of the Telegram notification. */
  function TelegramLines(name: string, phone: string, order: Order): seq<string> {
    [ "Новый заказ от " + name,
      "Телефон: " + phone,
      "Подача: " + Interp(Prop(order, "pickup")),
      "Назначение: " + Interp(Prop(order, "dropoff")),
      "Время: " + Or(Prop(order, "datetime"), "-"),
      "Примечание: " + Or(Prop(order, "notes"), "-") ]
  }

  /**
   * The Telegram notification: it opens with the line naming the customer and
   * closes with the note line ('-' without a note).
   */
  function TelegramText(name: string, phone: string, order: Order): (r: string)
    ensures var head := "Новый заказ от " + name;
      |head| < |r| && r[..|head|] == head && r[|head|] == '\n'
    ensures var tail := "Примечание: " + Or(Prop(order, "notes"), "-");
      |tail| <= |r| && r[|r| - |tail|..] == tail
  {
    JoinLinesLast(TelegramLines(name, phone, order));
    JoinLines(TelegramLines(name, phone, order))
  }

  /**
   * `POST`, given the parsed body, the environment and what each channel
   * would answer if called.
   */
  method Handle(body: OrderBody, env: Env, crm: Outcome, telegram: Outcome)
    returns (response: OrderResponse, calls: seq<Call>)
    ensures body.Malformed? ==> response == ServerError && calls == []
    // validation: missing or empty name or phone, and no channel is called
    ensures body.OrderBody? && !HasNameAndPhone(body.order) ==> response == Rejected && calls == []
    // once validation passes the answer is always success, whatever the channels did
    ensures body.OrderBody? && HasNameAndPhone(body.order) ==>
      var order := body.order.value;
      var name := order["name"];
      var phone := order["phone"];
      // CRM only with a webhook, Telegram only with token and chat id, in that order
      && calls ==
           (if Truthy(env.bitrixWebhook)
            then [CrmLeadAdd(CrmUrl(env.bitrixWebhook.value), OrderLead(name, phone, order, body.chatHistory))]
            else []) +
           (if TelegramConfigured(env)
            then [TelegramSend(TelegramUrl(env.telegramToken.value), env.telegramChatId.value,
                               TelegramText(name, phone, order))]
            else [])
      && response.status == 200
      // each result depends on its own channel only: null when skipped or failed
      && response.reply == Accepted(
           if Truthy(env.bitrixWebhook) && crm.Answered? then Some(crm.payload) else None,
           if TelegramConfigured(env) && telegram.Answered? then Some(telegram.payload) else None)
  {
    calls := [];
    if body.Malformed? {
      response := ServerError;
      return;
    }
    var order, chatHistory := body.order, body.chatHistory;
    if !HasNameAndPhone(order) {
      response := Rejected;
      return;
    }
    var name := order.value["name"];
    var phone := order.value["phone"];

    // 1) Bitrix24, if configured
    var bitrixResult: Option<string> := None;
    if Truthy(env.bitrixWebhook) {
      var fields := OrderLead(name, phone, order.value, chatHistory);
      calls := calls + [CrmLeadAdd(CrmUrl(env.bitrixWebhook.value), fields)];
      match crm {
        case Answered(payload) => bitrixResult := Some(payload);
        case Threw(_) => // logged and swallowed
      }
    }

    // 2) Telegram, if configured
    var tgResult: Option<string> := None;
    if TelegramConfigured(env) {
      var text := TelegramText(name, phone, order.value);
      var url := TelegramUrl(env.telegramToken.value);
      calls := calls + [TelegramSend(url, env.telegramChatId.value, text)];
      match telegram {
        case Answered(payload) => tgResult := Some(payload);
        case Threw(_) =>
      }
    }

    response := OrderResponse(200, Accepted(bitrixResult, tgResult));
  }

  // ---------------------------------------------------------------------------
  // the layout of the two texts, read back line by line

  /** Every string value of the order is a single line. */
  predicate SingleLineOrder(order: Order) {
    forall key :: key in order ==> NoNewline(order[key])
  }

  predicate SingleLineTurns(turns: seq<Turn>) {
    forall k :: 0 <= k < |turns| ==> NoNewline(Interp(turns[k].role)) && NoNewline(Interp(turns[k].content))
  }

  lemma SingleLineProps(order: Order)
    requires SingleLineOrder(order)
    ensures forall key :: NoNewline(Interp(Prop(order, key)))
    ensures forall key, d :: NoNewline(d) ==> NoNewline(Or(Prop(order, key), d))
  {
    assert NoNewline("undefined");
  }

  /**
   * The Telegram notification is exactly six lines, with fixed labels and '-'
   * for a missing date/time or note, whenever the values themselves are
   * single-line.
   */
  lemma {:induction false} TelegramTextLayout(name: string, phone: string, order: Order)
    requires NoNewline(name) && NoNewline(phone) && SingleLineOrder(order)
    ensures
      var lines := SplitLines(TelegramText(name, phone, order));
      |lines| == 6 &&
      lines[0] == "Новый заказ от " + name &&
      lines[1] == "Телефон: " + phone &&
      lines[2] == "Подача: " + Interp(Prop(order, "pickup")) &&
      lines[3] == "Назначение: " + Interp(Prop(order, "dropoff")) &&
      lines[4] == "Время: " + (if Truthy(Prop(order, "datetime")) then order["datetime"] else "-") &&
      lines[5] == "Примечание: " + (if Truthy(Prop(order, "notes")) then order["notes"] else "-")
  {
    TelegramLinesSingle(name, phone, order);
    SplitJoin(TelegramLines(name, phone, order));
  }

  /** No label of either text holds a newline. */
  lemma LabelsSingleLine()
    ensures NoNewline("Новый заказ от ") && NoNewline("Телефон: ") && NoNewline("Подача: ")
    ensures NoNewline("Назначение: ") && NoNewline("Время: ") && NoNewline("Примечание: ")
    ensures NoNewline("Дата/время: ") && NoNewline("Из чата:") && NoNewline(": ") && NoNewline("-")
  {
  }

  lemma TelegramLinesSingle(name: string, phone: string, order: Order)
    requires NoNewline(name) && NoNewline(phone) && SingleLineOrder(order)
    ensures forall k :: 0 <= k < 6 ==> NoNewline(TelegramLines(name, phone, order)[k])
  {
    SingleLineProps(order);
    LabelsSingleLine();
  }

  /**
   * COMMENTS reads back as: pickup, dropoff, date/time or '-', note or '-',
   * an empty line, the "Из чата:" heading, then one "role: content" line per
   * transcript entry (a single empty line when there is no transcript).
   */
  lemma {:induction false} LeadCommentsLayout(order: Order, chatHistory: Option<seq<Turn>>)
    requires SingleLineOrder(order)
    requires chatHistory.Some? ==> SingleLineTurns(chatHistory.value)
    ensures SplitLines(LeadComments(order, chatHistory)) ==
      CommentHead(order) + ["", "Из чата:"] +
      (if chatHistory.None? || chatHistory.value == [] then [""] else TurnLines(chatHistory.value))
  {
    var head := CommentHead(order) + ["", "Из чата:"];
    CommentHeadSingle(order);
    if chatHistory.None? || chatHistory.value == [] {
      JoinLinesAppend(head, [""]);
      SplitJoin(head + [""]);
    } else {
      var tl := TurnLines(chatHistory.value);
      TurnLinesSingle(chatHistory.value);
      JoinLinesAppend(head, tl);
      SplitJoin(head + tl);
    }
  }

  lemma CommentHeadSingle(order: Order)
    requires SingleLineOrder(order)
    ensures forall k :: 0 <= k < 6 ==> NoNewline((CommentHead(order) + ["", "Из чата:"])[k])
  {
    SingleLineProps(order);
    LabelsSingleLine();
  }

  lemma TurnLinesSingle(turns: seq<Turn>)
    requires SingleLineTurns(turns)
    ensures forall k :: 0 <= k < |turns| ==> NoNewline(TurnLines(turns)[k])
  {
    LabelsSingleLine();
  }
}
