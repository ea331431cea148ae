# Bvetra chat-to-order pipeline, modelled in Dafny

Bvetra is a transfer-booking site. A visitor chats with an assistant. The
assistant's reply is streamed into the transcript. When a finished reply
carries a ```` ```json ```` block with an `order` object, that order is merged
into a draft, which the visitor checks and edits in a confirmation form and
then submits. The server then notifies the Bitrix24 CRM and a Telegram bot.
This project models that pipeline:

- `SmartChat` (app/components/SmartChat.tsx) is the booking widget, as the class
  `ChatSession`. Its React state becomes the fields `messages`, `input`,
  `orderDraft`, `confirmOpen`, `sendingOrder` and `lastAssistantId`.
  - `sendMessage` is split at its first `await`. `BeginSend` is what happens
    before the request is answered. `AwaitReply` is what the answer then does,
    with `ReceiveReply` as the stream loop, proved by its loop invariants.
  - Pure functions give the ```` ```json ```` search, the draft merge, the
    form edits and the summary text.
- `SimpleChat` (app/components/Chat.tsx) is the plain widget, as the class `Widget`.
  `sendMessage` is split at its `await` into `BeginSend` and `CompleteSend`.
- `OrderRoute` (app/api/order/route.ts) and `SubmitRoute` (api/submit/route.ts)
  are the two lead handlers, each a method from the parsed body to a response.
- `ChatStreamRoute` (app/api/chat/stream/route.ts), `ChatRoute`
  (app/api/chat/route.ts) and `SiteChatRoute` (api/chat/route.ts) are the three
  relays to the chat-completions API. `ChatStreamRoute.Relay` is the relay's
  `while (true)` loop.
- `Completions` holds what the relays share: the history normalisation, the
  message composition and the `choices?.[0]?.message?.content` chain.
- `Outbound` holds the environment record and the outbound calls (`Call`), with
  the CRM and Telegram URL builders.
- `Phone` (lib/phone.ts) models the decisions the phone helpers make around
  libphonenumber-js. The library's own answers are function parameters.
- `Js` gives the JavaScript semantics the code relies on:
  - `||` on strings (`Or`) and `??` (`Coalesce`);
  - `${undefined}` rendering as "undefined" (`Interp`);
  - ECMAScript `trim()`, `includes`/`indexOf`;
  - `split('\n')`/`join('\n')`;
  - `.replace(/\/$/, '')`.

Every network exchange is an input rather than an action:
- Each server handler takes its parsed request body, an `Env` record for
  `process.env`, and the outcome each outbound request would have.
- Each handler returns its response together with the list of outbound calls
  it made, in order. "No channel is called" therefore reads `calls == []`.
- The client methods take the reply of `fetch` as a parameter. So do the
  decoded chunks, what `JSON.parse` makes of a payload, and the `Date.now()`
  stamps used in ids.

Behaviour of the code worth knowing before reading the contracts:
- A stream that fails part-way replaces the placeholder with "Ошибка при
  подключении к API" (the outer `catch`); the partial text is lost.
- The two notification channels run one after the other. In
  api/submit/route.ts a CRM failure also stops the Telegram call.
- `submitOrder` itself checks only that name and phone are non-empty. The
  phone-validity test exists only in the button's `disabled` condition.
- An order captured from a reply overwrites every key it carries, including
  ones the visitor edited in the form.

## Model

| member | source | states |
|---|---|---|
| Js.Interp | app/api/order/route.ts:32 | `${v}` renders a present value as itself and an absent one as "undefined" |
| Js.Or | app/api/order/route.ts:32 | `v \|\| d` on a string: the value when present and non-empty, otherwise the default |
| Js.Coalesce | app/api/chat/route.ts:38 | `v ?? d`: only an absent value falls back; the empty string is kept |
| Js.Prop | app/api/order/route.ts:18 | reading a property gives a value exactly when the key is present, and that value is the entry's |
| Js.OptProp | app/api/order/route.ts:18 | `obj?.key`: a value exactly when the object exists and has the key, and then it is that entry |
| Js.TrimStart | app/components/SmartChat.tsx:89 | the result is a suffix of the input, and only white space was removed |
| Js.TrimEnd | app/components/SmartChat.tsx:89 | the result is a prefix of the input, and only white space was removed |
| Js.Trim | app/components/SmartChat.tsx:89 | `trim()` is the infix of the input left between a white-space prefix and a white-space suffix, and neither starts nor ends with white space |
| Js.TrimEmptyIffAllSpace | app/components/Chat.tsx:12 | a string trims to "" exactly when every character of it is ECMAScript white space |
| Js.TrimIdempotent | app/components/SmartChat.tsx:89 | trimming an already trimmed text changes nothing |
| Js.IndexOf | app/components/SmartChat.tsx:144 | the first occurrence at or after the start position, or none anywhere after it |
| Js.IndexOfFirst | app/components/SmartChat.tsx:144 | an occurrence with no earlier one is the one the search returns |
| Js.Contains | api/submit/route.ts:13 | `includes` is true exactly when the pattern occurs at some position |
| Js.ContainsOccurrence | api/submit/route.ts:13 | `includes` holds whenever the pattern occurs at some position |
| Js.JoinLines | app/api/order/route.ts:32 | `join('\n')`: the text opens with the first line, followed by a newline when more lines come |
| Js.JoinLinesLast | app/api/order/route.ts:32 | the joined text closes with the last line |
| Js.SplitLines | app/api/order/route.ts:32 | the read-back used by the layout lemmas (the source itself never splits): `split('\n')` always yields at least one piece |
| Js.SplitJoin | app/api/order/route.ts:32 | the read-back used by the layout lemmas: splitting a newline-joined text returns its lines, if no line holds a newline |
| Js.JoinLinesAppend | app/api/order/route.ts:32 | joining two runs of lines equals joining each and putting one newline between |
| Js.StripTrailingSlash | app/api/order/route.ts:36 | removes one trailing '/' exactly when there is one, and keeps the rest as a prefix |
| Outbound.TelegramUrl | app/api/order/route.ts:54 | the bot URL is the fixed base "https://api.telegram.org/bot", the token verbatim, then "/sendMessage" |
| Outbound.TelegramConfigured | app/api/order/route.ts:51 | `tgToken && tgChat`: true exactly when both the token and the chat id are set and non-empty |
| Outbound.CrmUrl | app/api/order/route.ts:36 | the URL ends in "/crm.lead.add.json"; removing that and restoring a dropped '/' gives the webhook back |
| Completions.NormaliseRole | app/api/chat/stream/route.ts:14 | the role is "user" exactly for a "user" input, otherwise "assistant" |
| Completions.NormaliseHistory | app/api/chat/stream/route.ts:14 | same length as the history; each entry keeps its content, and its role is normalised to user/assistant |
| Completions.NormaliseHistoryIdempotent | app/api/chat/stream/route.ts:14 | normalising an already normalised history changes nothing |
| Completions.ComposeMessages | app/api/chat/stream/route.ts:12-16 | the system prompt first, the normalised history in order, the new user message last; length is history + 2 |
| Completions.FirstContent | app/api/chat/route.ts:38 | `choices?.[0]?.message?.content` is defined exactly when every link of the chain is, and is then that content |
| ChatRoute.CompletionCall | app/api/chat/route.ts:11-35 | the one upstream request: the key, model gpt-4o-mini, temperature 0.2, no token limit, not streamed; the system prompt, the normalised history and the user message, in that order |
| ChatRoute.Handle | app/api/chat/route.ts:3-44 | covers every outcome. A bad or null body, or a null history, gives 500 "Ошибка сервера" without a call. A missing key gives 500 "OpenAI API ключ не найден" without a call. Otherwise exactly one request goes out, carrying the composed list with an absent history read as empty. The reply is the first content, kept even when empty, else "Нет ответа" |
| SiteChatRoute.MessageOf | api/chat/route.ts:4 | the message when truthy, otherwise "" |
| SiteChatRoute.ReplyOf | api/chat/route.ts:14 | the first content when non-empty, otherwise "Извините, нет ответа"; never empty |
| SiteChatRoute.Handle | api/chat/route.ts:2-20 | an unparseable body escapes the handler. A missing key gives the canned greeting with status 200 and no call. Otherwise one request goes out with exactly one user message, no history and max_tokens 500. A failure gives 500 "Ошибка при обработке запроса" |
| SiteChatRoute.EmptyContentFallbacksDiffer | api/chat/route.ts:14 | for an empty content, app/api/chat replies "" (`??`) while this route replies "Извините, нет ответа" (`\|\|`) |
| ChatStreamRoute.Relay | app/api/chat/stream/route.ts:40-50 | the client receives exactly the upstream chunks, in order and unmodified, and is closed exactly when upstream reported done |
| ChatStreamRoute.Handle | app/api/chat/stream/route.ts:4-59 | a bad body gives 500 'server error'; a missing key gives 500 'OPENAI_API_KEY not set' with no call. Otherwise one streamed request goes out with the composed list. A non-ok upstream gives 500 with its text; success relays the body |
| OrderRoute.HasNameAndPhone | app/api/order/route.ts:18 | the validation passes exactly when the order exists and has a non-empty name and a non-empty phone |
| OrderRoute.TurnLines | app/api/order/route.ts:32 | one "role: content" line per transcript entry, absent parts rendered "undefined" |
| OrderRoute.TranscriptText | app/api/order/route.ts:32 | "" without a transcript or for an empty one; otherwise, when no role or content holds a newline, its lines read back as one "role: content" line per entry |
| OrderRoute.LeadComments | app/api/order/route.ts:32 | COMMENTS is the order lines and the "Из чата:" heading, then a newline and the transcript text verbatim, even a multi-line one |
| OrderRoute.OrderLead | app/api/order/route.ts:28-33 | TITLE "Заказ от " + name, NAME = name, one WORK phone entry, and COMMENTS as `LeadComments` builds it (read back by `LeadCommentsLayout`) |
| OrderRoute.Handle | app/api/order/route.ts:13-72 | a bad body gives 500 'Server error'. Missing name or phone gives 400 and no channel. Otherwise the CRM is called only with a webhook and Telegram only with token and chat id, in that order. The response is always 200 success, and each result comes from its own channel only: null when that channel was skipped or threw |
| OrderRoute.TelegramText | app/api/order/route.ts:53 | the Telegram text opens with "Новый заказ от " + name and a newline, and closes with the note line ('-' without a note) |
| OrderRoute.TelegramTextLayout | app/api/order/route.ts:53 | when neither name, phone nor any order value contains a newline, the Telegram text is exactly six lines: fixed labels, with '-' for a missing date/time or note |
| OrderRoute.LeadCommentsLayout | app/api/order/route.ts:32 | when no order value and no transcript role or content contains a newline, COMMENTS reads back as pickup, dropoff, date/time or '-', note or '-', an empty line, "Из чата:", then one line per transcript entry (one empty line without a transcript) |
| SubmitRoute.Title | api/submit/route.ts:8 | the title is "Заявка с сайта — " followed by the posted type when non-empty, else "site" |
| SubmitRoute.MessageText | api/submit/route.ts:9 | the message when non-empty, else `about` when non-empty, else "" |
| SubmitRoute.SiteLead | api/submit/route.ts:9-10 | TITLE is the title; NAME the name or ""; one WORK phone entry exactly for a non-empty phone; COMMENTS the message text, plus "\nУслуга: " + service for a non-empty service |
| SubmitRoute.SubmitUrl | api/submit/route.ts:13 | the posted URL always names "crm.lead.add"; it is the configured one exactly when that already names it, and otherwise `CrmUrl` of it (one trailing '/' dropped, "/crm.lead.add.json" appended) |
| SubmitRoute.CrmUrlNamesMethod | api/submit/route.ts:13 | a URL built by appending "/crm.lead.add.json" contains "crm.lead.add" |
| SubmitRoute.SiteTelegramText | api/submit/route.ts:17 | the text opens with "Новая заявка: " + title and a newline, and closes with "\nСообщение: " + the message text |
| SubmitRoute.SiteTelegramTextLayout | api/submit/route.ts:17 | when the type, name, phone and message hold no newline, the text is exactly four lines: the title line, "Имя: " + name, "Тел: " + phone (each "" when missing or empty), and "Сообщение: " + the message text |
| SubmitRoute.SiteTelegramJoined | api/submit/route.ts:17 | the template literal equals its four lines joined by '\n' |
| SubmitRoute.Handle | api/submit/route.ts:2-26 | there is no validation. The CRM is called only with a webhook, using the lead built from the title, name, phone and comments rules. Telegram follows only when configured and the CRM call did not throw. The response is 200 ok unless a call threw, and then 500 with the error |
| SubmitRoute.ServiceOnlyExtendsComments | api/submit/route.ts:10 | a posted service only appends "\nУслуга: " + service to COMMENTS; title, name and phone are unchanged |
| SubmitRoute.SubmitUrlIdempotent | api/submit/route.ts:13 | the URL posted to always contains "crm.lead.add", so applying the URL rule again leaves it alone |
| SubmitRoute.CompleteUrlReadTwoWays | api/submit/route.ts:13 | a webhook that already names the lead method is used as is here, while the order route's rule would append to it |
| Phone.IsValidPhone | lib/phone.ts:15-23 | false for an absent or empty value, when no number is found, or when the library throws; otherwise the library's verdict |
| Phone.DialChars | lib/phone.ts:6 | never longer; only digits and '+' remain; a string of dial characters is kept whole |
| Phone.DialCharsAppend | lib/phone.ts:6 | stripping works character by character: it distributes over concatenation |
| Phone.DialCharsSingle | lib/phone.ts:6 | a single character is kept exactly when it is a digit or '+', so with DialCharsAppend every digit and '+' is kept in order and everything else dropped |
| Phone.DialCharsIdempotent | lib/phone.ts:6 | stripping twice is stripping once |
| Phone.FormatPhoneForDisplay | lib/phone.ts:4-13 | the library's complete format when it recognised a number (the stripped digits if it has none); the stripped digits when it did not; the input unchanged when it throws |
| SmartChat.SetContent | app/components/SmartChat.tsx:135-137 | every message with the id gets the new content; all others are unchanged; the length is kept |
| SmartChat.SetContentLastWins | app/components/SmartChat.tsx:135-137 | rewriting the placeholder twice leaves only the second text |
| SmartChat.SetContentAbsentId | app/components/SmartChat.tsx:112-118 | rewriting an id not in the transcript changes nothing |
| SmartChat.JoinedSplit | app/components/SmartChat.tsx:133 | the accumulated text splits at any chunk boundary into the two accumulated halves |
| SmartChat.PresentStep | app/components/SmartChat.tsx:126-133 | reading one more chunk adds its value to the received values, or nothing when the read carried none |
| SmartChat.ReceiveOne | app/components/SmartChat.tsx:131-137 | one more value extends the accumulated text and the shown texts by one, and the placeholder shows the new text |
| SmartChat.ShownTextGrows | app/components/SmartChat.tsx:126-138 | an earlier placeholder text is always a prefix of a later one |
| SmartChat.Prefixes | app/components/SmartChat.tsx:126-138 | one shown text per received chunk |
| SmartChat.PrefixesAreJoins | app/components/SmartChat.tsx:126-138 | the k-th text shown is the concatenation of the first k+1 chunks |
| SmartChat.HelloWorldChunks | app/components/SmartChat.tsx:126-138 | chunks "Hel", "lo wor", "ld" are shown as "Hel", "Hello wor", "Hello world" |
| SmartChat.FindJsonBlock | app/components/SmartChat.tsx:144-145 | a match starts at the first "```json\n" and its body runs to the first "\n```" after it; no match means no opening fence is followed by a closing one |
| SmartChat.FencedPayloadFound | app/components/SmartChat.tsx:144-145 | a payload fenced after backtick-free text is found exactly, whatever follows, if it holds no closing fence |
| SmartChat.CapturedOrder | app/components/SmartChat.tsx:144-148 | an order is captured exactly when a non-empty block body parses to a JSON value with an `order` |
| SmartChat.Merge | app/components/SmartChat.tsx:149 | the order's keys take its values; every other key of the draft keeps its value; no key is lost |
| SmartChat.MergeNothing | app/components/SmartChat.tsx:177 | `openConfirmForOrder(undefined)` leaves the draft as it is |
| SmartChat.MergeSelf | app/components/SmartChat.tsx:240 | opening the form with the draft itself leaves the draft as it is |
| SmartChat.Edit | app/components/SmartChat.tsx:377-437 | a form edit sets its own field and no other key |
| SmartChat.EditsCommute | app/components/SmartChat.tsx:377-437 | edits of two different fields do not interfere, in either order |
| SmartChat.OrderSummary | app/components/SmartChat.tsx:200 | the 'order' message opens with the name and phone ("undefined" when absent), then the pickup or '-' and " → ", and closes with the dropoff or '-' and the time or '-' in brackets; each field falls back to '-' on its own, and these pieces make up the whole text |
| SmartChat.SummaryFallbacks | app/components/SmartChat.tsx:200 | for every draft whose pickup, dropoff and time are missing or empty, the summary shows '-' for each |
| SmartChat.SummaryOfBareDraft | app/components/SmartChat.tsx:200 | with only name and phone, the order message shows '-' for pickup, dropoff and time |
| SmartChat.SubmitGate | app/components/SmartChat.tsx:183 | `submitOrder` proceeds exactly when the draft has a non-empty name and a non-empty phone |
| SmartChat.SubmitEnabled | app/components/SmartChat.tsx:450 | the button is enabled exactly when not sending, name and phone are non-empty and the phone is valid; enabled implies `submitOrder`'s own check passes |
| SmartChat.AfterReplyTouchesOnlyPlaceholder | app/components/SmartChat.tsx:104-167 | whatever the reply, only the placeholder's content can change; ids, roles and other messages are kept |
| SmartChat.FailedReplyKeepsDraft | app/components/SmartChat.tsx:110-120 | a failed request or a broken stream never changes the draft |
| SmartChat.ChatSession.constructor | app/components/SmartChat.tsx:34-41 | empty transcript, input and draft; form closed; not sending; no assistant id |
| SmartChat.ChatSession.SetInput | app/components/SmartChat.tsx:336 | the input becomes the typed text |
| SmartChat.ChatSession.Append | app/components/SmartChat.tsx:85 | the message is added at the end of the transcript |
| SmartChat.ChatSession.ReceiveReply | app/components/SmartChat.tsx:122-139 | after the loop, finished or broken, the text is the concatenation of every value received, and the shown texts are its successive prefixes. The transcript has the placeholder rewritten to that text, or is untouched if nothing arrived. A rejected read is reported as broken |
| SmartChat.ChatSession.AwaitReply | app/components/SmartChat.tsx:104-167 | non-ok gives "Ошибка сервера при получении ответа"; a throw or a broken stream gives "Ошибка при подключении к API". A finished stream leaves the whole reply and merges any captured order into the draft, opening the form. Otherwise the draft and form are unchanged |
| SmartChat.ChatSession.BeginSend | app/components/SmartChat.tsx:88-102 | a message that trims to "" changes nothing. Otherwise the trimmed text is appended as a user message, then an empty assistant placeholder; the input is cleared, and the request carries the transcript from before the send |
| SmartChat.ChatSession.ClearChat | app/components/SmartChat.tsx:170-173 | the transcript becomes empty; nothing else changes |
| SmartChat.ChatSession.OpenConfirmForOrder | app/components/SmartChat.tsx:176-179 | the given order (none: `{}`) is merged into the draft and the form opens |
| SmartChat.ChatSession.CloseConfirm | app/components/SmartChat.tsx:442 | the form closes |
| SmartChat.ChatSession.EditField | app/components/SmartChat.tsx:377-437 | one field is set: the typed text, or for the phone its display formatting |
| SmartChat.ChatSession.SubmitOrder | app/components/SmartChat.tsx:181-213 | without name or phone, no request and no state change. Otherwise the draft and transcript are posted. An ok answer appends exactly one 'order' summary message, closes the form and empties the draft; anything else keeps them. Afterwards the order is never still sending |
| SmartChat.ChatSession.AddCarClassHint | app/components/SmartChat.tsx:216-220 | sets only `carClass`, then begins the send of "Класс автомобиля: " + class with the old transcript as history, which clears the input and makes the new placeholder the last assistant id; the handler does not await the reply, which arrives through `AwaitReply` like any other |
| SimpleChat.Widget.constructor | app/components/Chat.tsx:8-9 | empty transcript and input |
| SimpleChat.Widget.SetInput | app/components/Chat.tsx:44 | the input becomes the typed text; the transcript is kept |
| SimpleChat.Widget.BeginSend | app/components/Chat.tsx:11-20 | whitespace-only input changes nothing and sends nothing. Otherwise the untrimmed input is appended as the user line and the input is cleared. The request carries the input and the transcript from before |
| SimpleChat.Widget.CompleteSend | app/components/Chat.tsx:22-23 | an answer sets the transcript to the captured snapshot plus the user line and the reply, whatever it held meanwhile; a rejection changes nothing |
| SimpleChat.Widget.SendMessage | app/components/Chat.tsx:11-24 | with nothing in between, a non-blank send appends exactly the user line and the reply (only the user line if rejected), and clears the input |

## Left out

- Browser side effects:
  - the `open` flag;
  - saving the transcript to localStorage after every change;
  - restoring the transcript from localStorage on mount (app/components/SmartChat.tsx:45-48), which replaces `messages` with the stored list;
  - speech recognition and the `listening` flag; a recognised utterance is added to `input` whole, after a space when the input is non-empty (app/components/SmartChat.tsx:69);
  - scrolling;
  - every `alert`;
  - JSX rendering.
  Apart from the restore on mount and the speech input, none of them affects the transcript, the input or the draft.
- Logging (`console.error`) is left out.
- Request headers are not part of the `Call` records:
  - the `Authorization` and `Content-Type` headers;
  - the CRM's `params: { REGISTER_SONET_EVENT: 'Y' }`;
  - Telegram's `parse_mode: 'HTML'`.
  These are constants with no branch depending on them.
- libphonenumber-js is not modelled. `parsePhoneNumberFromString`, `isValid()` and `AsYouType` are function parameters. So the rule "fewer than 6 digits is invalid" belongs to the library and is not stated here.
- JSON values are restricted to strings: the order draft, the posted order and the form fields are string-to-string maps.
  - A property is either present or absent. A property that is present with the value `null` is not distinguished from an absent one: where JavaScript renders `${null}` as "null" (a null `role` in app/api/order/route.ts:32, say), the model renders "undefined".
  - Numbers, booleans and nested objects are not modelled.
  - History items are records of an optional role and content.
  - Bodies whose top level is neither an object nor `null` are not modelled.
- `TextDecoder` is not modelled. Each chunk is given already decoded. A multi-byte character split across two chunks is therefore not modelled.
- `res.body!` being null in `sendMessage` is not modelled; the outer catch would handle it like a broken stream. In the stream relay the chunks are opaque values.
- Interleaving of asynchronous work is not modelled: two sends in flight, or a form edit during a stream.
  - A SmartChat send is `BeginSend` followed by `AwaitReply`, with no other event in between.
  - For Chat.tsx, splitting `sendMessage` at the `await` shows what a later completion does: `CompleteSend` discards whatever was appended since `BeginSend`.
- The two `Date.now()` calls that make the user and assistant ids are two independent stamp parameters.
- The answer bodies of the CRM and Telegram calls are opaque strings, passed back unread.
