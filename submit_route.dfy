/**
 * api/submit/route.ts: the site's lead form endpoint. It builds a CRM lead and
 * a Telegram text from whatever fields were posted (there is no validation)
 * and calls the two channels one after the other inside a single try: a
 * failure of the first one ends the request before the second is attempted.
 */
module SubmitRoute {
  import opened Js
  import opened Outbound

  /** The posted form: a JSON object of string values. */
  type Fields = map<string, string>

  /**
   * `const body = await req.json()` then `const { type, fields } = body || {}`.
   * A `null` body reads as `{}`, i.e. `Parsed(None, None)`.
   */
  datatype SubmitBody = Unparseable | Parsed(kind: Option<string>, fields: Option<Fields>)

  /** `{ ok: true }`, `{ ok: false, error }` with status 500, or an escaped exception. */
  datatype SubmitResponse = Unhandled | Json(status: nat, ok: bool, error: Option<string>)

  const CrmMethodName := "crm.lead.add"
  const ServiceLabel := "\nУслуга: "

  const TitlePrefix := "Заявка с сайта — "

  /** `Заявка с сайта — ${type || 'site'}`: the prefix, then the type or "site". */
  function Title(kind: Option<string>): (r: string)
    ensures |TitlePrefix| < |r| && r[..|TitlePrefix|] == TitlePrefix
    ensures Truthy(kind) ==> r[|TitlePrefix|..] == kind.value
    ensures !Truthy(kind) ==> r[|TitlePrefix|..] == "site"
  {
    TitlePrefix + Or(kind, "site")
  }

  /**
   * `fields?.message || fields?.about || ''`: the message when it is
   * non-empty, else the `about` text when that is, else "".
   */
  function MessageText(fields: Option<Fields>): (r: string)
    ensures Truthy(OptProp(fields, "message")) ==> r == fields.value["message"]
    ensures !Truthy(OptProp(fields, "message")) && Truthy(OptProp(fields, "about")) ==> r == fields.value["about"]
    ensures !Truthy(OptProp(fields, "message")) && !Truthy(OptProp(fields, "about")) ==> r == ""
  {
    Or(OptProp(fields, "message"), Or(OptProp(fields, "about"), ""))
  }

  /**
   * The lead the route builds: the title, the name or "", a WORK phone entry
   * only for a non-empty phone, and COMMENTS from the message rule with the
   * service suffix when a service was posted.
   */
  function SiteLead(kind: Option<string>, fields: Option<Fields>): (r: Lead)
    ensures r.title == Title(kind)
    ensures Truthy(OptProp(fields, "name")) ==> r.name == fields.value["name"]
    ensures !Truthy(OptProp(fields, "name")) ==> r.name == ""
    ensures Truthy(OptProp(fields, "phone")) ==> r.phones == [PhoneEntry(fields.value["phone"], WorkPhone)]
    ensures !Truthy(OptProp(fields, "phone")) ==> r.phones == []
    ensures Truthy(OptProp(fields, "service")) ==> r.comments == MessageText(fields) + ServiceLabel + fields.value["service"]
    ensures !Truthy(OptProp(fields, "service")) ==> r.comments == MessageText(fields)
  {
    var phone := OptProp(fields, "phone");
    var service := OptProp(fields, "service");
    Lead(Title(kind),
         Or(OptProp(fields, "name"), ""),
         if Truthy(phone) then [PhoneEntry(phone.value, WorkPhone)] else [],
         MessageText(fields) + (if Truthy(service) then ServiceLabel + service.value else ""))
  }

  /**
   * The configured URL is used as is when it already names the lead method;
   * otherwise the method is appended as for a webhook base.
   */
  function SubmitUrl(configured: string): (r: string)
    ensures Contains(r, CrmMethodName)
    ensures r == configured <==> Contains(configured, CrmMethodName)
    ensures !Contains(configured, CrmMethodName) ==> r == CrmUrl(configured)
  {
    CrmUrlNamesMethod(configured);
    if Contains(configured, CrmMethodName) then configured else CrmUrl(configured)
  }

  /** The appended "/crm.lead.add.json" names the lead method. */
  lemma CrmUrlNamesMethod(webhook: string)
    ensures Contains(CrmUrl(webhook), CrmMethodName)
  {
    // "crm.lead.add" starts right after the '/' that opens LeadAddMethod
    var url := CrmUrl(webhook);
    var at := |url| - |LeadAddMethod| + 1;
    assert url[at..] == url[|url| - |LeadAddMethod|..][1..];
    assert url[at..at + |CrmMethodName|] == CrmMethodName;
    ContainsOccurrence(url, CrmMethodName, at);
  }

  /**
   * The site's Telegram text: it opens with the title line and closes with
   * the message line.
   */
  function SiteTelegramText(kind: Option<string>, fields: Option<Fields>): (r: string)
    ensures var head := "Новая заявка: " + Title(kind) + "\n";
      |head| <= |r| && r[..|head|] == head
    ensures var tail := "\nСообщение: " + MessageText(fields);
      |tail| <= |r| && r[|r| - |tail|..] == tail
  {
    "Новая заявка: " + Title(kind) +
    "\nИмя: " + Or(OptProp(fields, "name"), "") +
    "\nТел: " + Or(OptProp(fields, "phone"), "") +
    "\nСообщение: " + MessageText(fields)
  }

  /** The four lines of the site's Telegram text, with "" for a missing name or phone. */
  function SiteTelegramLines(kind: Option<string>, fields: Option<Fields>): seq<string> {
    [ "Новая заявка: " + Title(kind),
      "Имя: " + Or(OptProp(fields, "name"), ""),
      "Тел: " + Or(OptProp(fields, "phone"), ""),
      "Сообщение: " + MessageText(fields) ]
  }

  /**
   * The site's Telegram text is exactly four labelled lines (title, name,
   * phone, message, each "" when missing), whenever the values themselves
   * are single-line.
   */
  lemma SiteTelegramTextLayout(kind: Option<string>, fields: Option<Fields>)
    requires NoNewline(Or(kind, "site"))
    requires NoNewline(Or(OptProp(fields, "name"), "")) && NoNewline(Or(OptProp(fields, "phone"), ""))
    requires NoNewline(MessageText(fields))
    ensures
      var lines := SplitLines(SiteTelegramText(kind, fields));
      |lines| == 4 &&
      lines[0] == "Новая заявка: " + Title(kind) &&
      lines[1] == "Имя: " + (if Truthy(OptProp(fields, "name")) then fields.value["name"] else "") &&
      lines[2] == "Тел: " + (if Truthy(OptProp(fields, "phone")) then fields.value["phone"] else "") &&
      lines[3] == "Сообщение: " + MessageText(fields)
  {
    var lines := SiteTelegramLines(kind, fields);
    SiteTelegramJoined(kind, fields);
    assert NoNewline("Новая заявка: ") && NoNewline(TitlePrefix) && NoNewline("Имя: ");
    assert NoNewline("Тел: ") && NoNewline("Сообщение: ");
    assert forall k :: 0 <= k < 4 ==> NoNewline(lines[k]);
    SplitJoin(lines);
  }

  /** The template literal is the four lines joined by '\n'. */
  lemma SiteTelegramJoined(kind: Option<string>, fields: Option<Fields>)
    ensures SiteTelegramText(kind, fields) == JoinLines(SiteTelegramLines(kind, fields))
  {
    TemplateIsJoin(Title(kind), Or(OptProp(fields, "name"), ""), Or(OptProp(fields, "phone"), ""),
                   MessageText(fields));
  }

  lemma TemplateIsJoin(t: string, n: string, p: string, m: string)
    ensures "Новая заявка: " + t + "\nИмя: " + n + "\nТел: " + p + "\nСообщение: " + m ==
      JoinLines(["Новая заявка: " + t, "Имя: " + n, "Тел: " + p, "Сообщение: " + m])
  {
    var lines := ["Новая заявка: " + t, "Имя: " + n, "Тел: " + p, "Сообщение: " + m];
    assert lines[1..][1..][1..] == [lines[3]];
    assert JoinLines(lines[1..][1..]) == lines[2] + "\n" + lines[3];
    assert JoinLines(lines[1..]) == lines[1] + "\n" + (lines[2] + "\n" + lines[3]);
    assert "\nИмя: " == "\n" + "Имя: ";
    assert "\nТел: " == "\n" + "Тел: ";
    assert "\nСообщение: " == "\n" + "Сообщение: ";
  }

  /** `POST`, given the parsed body, the environment and what each channel would do if called. */
  method Handle(body: SubmitBody, env: Env, crm: Outcome, telegram: Outcome)
    returns (response: SubmitResponse, calls: seq<Call>)
    // the body is read outside the try
    ensures body.Unparseable? ==> response == Unhandled && calls == []
    ensures body.Parsed? ==>
      var crmCall := CrmLeadAdd(SubmitUrl(Or(env.bitrixWebhook, "")), SiteLead(body.kind, body.fields));
      var tgCall := TelegramSend(TelegramUrl(Or(env.telegramToken, "")), Or(env.telegramChatId, ""),
                                 SiteTelegramText(body.kind, body.fields));
      var crmFailed := Truthy(env.bitrixWebhook) && crm.Threw?;
      // Telegram is attempted only when configured and the CRM call did not throw
      && calls == (if Truthy(env.bitrixWebhook) then [crmCall] else []) +
                  (if TelegramConfigured(env) && !crmFailed then [tgCall] else [])
      // no validation: ok unless one of the calls threw
      && response == (if crmFailed then Json(500, false, Some(crm.error))
                      else if TelegramConfigured(env) && telegram.Threw? then Json(500, false, Some(telegram.error))
                      else Json(200, true, None))
  {
    calls := [];
    if body.Unparseable? {
      response := Unhandled;
      return;
    }
    var kind, fields := body.kind, body.fields;
    var bitrix := Or(env.bitrixWebhook, "");
    var tgToken := Or(env.telegramToken, "");
    var tgChat := Or(env.telegramChatId, "");
    var title := Title(kind);
    var phone := OptProp(fields, "phone");
    var bitrixFields := Lead(title, Or(OptProp(fields, "name"), ""),
                             if Truthy(phone) then [PhoneEntry(phone.value, WorkPhone)] else [],
                             MessageText(fields));
    var service := OptProp(fields, "service");
    if Truthy(service) {
      // `bitrixFields.COMMENTS = (bitrixFields.COMMENTS || '') + '\nУслуга: ' + fields.service`
      bitrixFields := bitrixFields.(comments := bitrixFields.comments + ServiceLabel + service.value);
    }
    assert bitrixFields.comments == SiteLead(kind, fields).comments;
    // try {
    if bitrix != "" {
      var url := if Contains(bitrix, CrmMethodName) then bitrix else StripTrailingSlash(bitrix) + LeadAddMethod;
      calls := calls + [CrmLeadAdd(url, bitrixFields)];
      if crm.Threw? {
        response := Json(500, false, Some(crm.error));
        return;
      }
    }
    if tgToken != "" && tgChat != "" {
      var text := SiteTelegramText(kind, fields);
      calls := calls + [TelegramSend(TelegramUrl(tgToken), tgChat, text)];
      if telegram.Threw? {
        response := Json(500, false, Some(telegram.error));
        return;
      }
    }
    response := Json(200, true, None);
  }

  /**
   * A posted service only appends "\nУслуга: <service>" to COMMENTS; title,
   * name and phone are what they would be without it.
   */
  lemma ServiceOnlyExtendsComments(kind: Option<string>, fields: Fields, service: string)
    requires service != ""
    ensures
      var without := SiteLead(kind, Some(fields - {"service"}));
      SiteLead(kind, Some(fields["service" := service])) ==
        without.(comments := without.comments + ServiceLabel + service)
  {
    var with_, without := Some(fields["service" := service]), Some(fields - {"service"});
    assert OptProp(with_, "service") == Some(service);
    assert OptProp(without, "service") == None;
    SameProp(fields, service, "name");
    SameProp(fields, service, "phone");
    SameProp(fields, service, "message");
    SameProp(fields, service, "about");
    assert MessageText(with_) == MessageText(without);
  }

  /** Setting or removing `service` leaves every other property as it was. */
  lemma SameProp(fields: Fields, service: string, key: string)
    requires key != "service"
    ensures OptProp(Some(fields["service" := service]), key) == OptProp(Some(fields - {"service"}), key)
  {
  }

  /**
   * The URL actually posted to always names the lead method, so passing it
   * through the rule a second time leaves it alone.
   */
  lemma {:induction false} SubmitUrlIdempotent(configured: string)
    ensures Contains(SubmitUrl(configured), CrmMethodName)
    ensures SubmitUrl(SubmitUrl(configured)) == SubmitUrl(configured)
  {
  }

  /**
   * BITRIX_WEBHOOK_URL is read two ways: for a value that already names the
   * lead method this route posts to it as is, while app/api/order appends
   * the method a second time.
   */
  lemma CompleteUrlReadTwoWays(configured: string)
    requires Contains(configured, CrmMethodName)
    ensures SubmitUrl(configured) == configured
    ensures CrmUrl(configured) != configured
  {
    assert |CrmUrl(configured)| > |configured|;
  }
}
