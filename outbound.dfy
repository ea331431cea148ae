/**
 * What the server handlers read from the process environment and what they
 * send to the outside world: the language-model API, the Bitrix24 CRM webhook
 * and the Telegram bot API. Every `fetch` a handler performs is recorded as a
 * `Call`; what the remote side answers is given to the handler as an
 * `Outcome`, chosen by the environment.
 */
module Outbound {
  import opened Js

  /** `process.env`: each entry may be unset. */
  datatype Env = Env(
    openAiKey: Option<string>,       // OPENAI_API_KEY
    bitrixWebhook: Option<string>,   // BITRIX_WEBHOOK_URL
    telegramToken: Option<string>,   // TELEGRAM_BOT_TOKEN
    telegramChatId: Option<string>   // TELEGRAM_CHAT_ID
  )

  /** One entry of the `messages` array sent to the chat-completions API. */
  datatype WireMsg = WireMsg(role: string, content: Option<string>)

  /** One `{ VALUE, VALUE_TYPE }` entry of a Bitrix24 lead's PHONE list. */
  datatype PhoneEntry = PhoneEntry(value: string, valueType: string)

  /** The `fields` of a `crm.lead.add` request. */
  datatype Lead = Lead(title: string, name: string, phones: seq<PhoneEntry>, comments: string)

  datatype Call =
    | ChatCompletion(key: string, model: string, messages: seq<WireMsg>,
                     temperature: Option<real>, maxTokens: Option<nat>, stream: bool)
    | CrmLeadAdd(url: string, fields: Lead)
    | TelegramSend(url: string, chatId: string, text: string)

  /** What awaiting one outbound request (and reading its JSON) produced. */
  datatype Outcome = Answered(payload: string) | Threw(error: string)

  const CompletionsModel := "gpt-4o-mini"
  const WorkPhone := "WORK"

  const TelegramBotBase := "https://api.telegram.org/bot"
  const SendMessagePath := "/sendMessage"

  /**
   * `https://api.telegram.org/bot${token}/sendMessage`: the fixed base, the
   * token verbatim, then the method path.
   */
  function TelegramUrl(token: string): (r: string)
    ensures |r| == |TelegramBotBase| + |token| + |SendMessagePath|
    ensures r[..|TelegramBotBase|] == TelegramBotBase
    ensures r[|TelegramBotBase|..|TelegramBotBase| + |token|] == token
    ensures r[|TelegramBotBase| + |token|..] == SendMessagePath
  {
    TelegramBotBase + token + SendMessagePath
  }

  const LeadAddMethod := "/crm.lead.add.json"

  /**
   * The lead-creation endpoint under a webhook base URL: one trailing '/' of
   * the base is dropped, then "/crm.lead.add.json" is appended. Taking the
   * method suffix off again and restoring the dropped '/' gives the base back.
   */
  function CrmUrl(webhook: string): (r: string)
    ensures |r| >= |LeadAddMethod| && r[|r| - |LeadAddMethod|..] == LeadAddMethod
    ensures r[..|r| - |LeadAddMethod|] + (if EndsWithSlash(webhook) then "/" else "") == webhook
  {
    StripTrailingSlash(webhook) + LeadAddMethod
  }

  /** The Telegram channel is used only when both token and chat id are set and non-empty. */
  predicate TelegramConfigured(env: Env): (r: bool)
    ensures r <==> env.telegramToken.Some? && env.telegramToken.value != "" &&
                   env.telegramChatId.Some? && env.telegramChatId.value != ""
  {
    Truthy(env.telegramToken) && Truthy(env.telegramChatId)
  }
}
