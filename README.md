# Twilio2Telegram: the webhook-to-notification pipeline

Twilio2Telegram forwards Twilio webhooks to Telegram. When Twilio posts an
incoming SMS to `/message` or an incoming call to `/call`, the bridge does
four things:

1. It formats a notification from the request's fields. Each absent field
   reads as `unknown`.
2. It sends the owner (`TELEGRAM_OWNER`) that notification with a
   ``Twilio ID : `…` `` line in front.
3. It sends the bare notification to every entry of the comma-separated
   `TELEGRAM_SUBSCRIBERS` setting.
4. It answers Twilio with a fixed XML body. For a call, that body also
   rejects the call.

A decorator, `validate_twilio_request`, can put Twilio's signature check in
front of a handler. In the source, the decorator is commented out on both
routes.

The model has four modules:

- `Wrappers` (in `strings.dfy`): the `Option` type.
- `Strings` (in `strings.dfy`): Python's `str.split` on one separator
  character, as a function. `Join` is its inverse, and `SplitAtFirst`
  splits at the first occurrence of a character.
- `Notification` (in `notification.dfy`): the SMS, call and owner texts, as
  pure functions. `Parse` reads a notification back into the values it
  shows. It is not in the source. It exists to state that a notification
  loses none of the fields it displays when the caller has no backtick,
  the country no comma and the state no `)`. Without those conditions two
  different sets of values can give the same text (see
  `TemplateIsAmbiguous`).
- `Webhook` (in `webhook.dfy`): the request and response values, and the
  class `Bridge`.
  - `Bridge` holds the configuration from the environment and `sent`,
    the log of every `sendMessage` call.
  - Its methods are the owner send, the subscriber loop, the two
    handlers and the signature gate.
  - Each method states its new log in terms of the old one. `SendMessage`
    and `SendOwnerMessage` append one `Message`. `SendSubscribersMessage`
    appends `SubscriberSends`. `Handle`, `RecvMessage`, `RecvCall` and
    `Guarded` append `Dispatch`: the owner's copy followed by the
    subscribers' sends. Lemmas state what `Dispatch` promises.

External effects are parameters of the model:

- The environment values are the constructor's arguments. A missing
  `TELEGRAM_SUBSCRIBERS` is `None`.
- `sendMessage` appends to `sent`.
- Twilio's `RequestValidator(token).validate(url, form, signature)` is the
  function parameter `validate` of `Bridge.Guarded`.

The routes `RecvMessage` and `RecvCall` run their handler directly, as the
source does. `Guarded` is the decorator's composition, modelled on its own.
Nothing here claims the routes enforce it.

Three facts about the code that the model keeps:

- Subscriber entries are not trimmed of whitespace: `split(',')` is used
  as is (Twilio2Telegram.py:82).
- A failing send is not isolated from the remaining recipients: the loop
  has no exception handling (Twilio2Telegram.py:83-84).
- A missing `TELEGRAM_SUBSCRIBERS` makes `.split` raise after the owner has
  been sent the notification. Flask then answers 500 (`ServerError`).

## Model

| member | source | states |
|---|---|---|
| `Strings.Split` | Twilio2Telegram.py:82 | splitting on `,` yields at least one entry, and no entry contains a comma |
| `Strings.SplitCount` | Twilio2Telegram.py:82 | the number of entries is the number of commas plus one, so empty entries are kept |
| `Strings.JoinSplit` | Twilio2Telegram.py:82 | joining the entries with commas gives back the setting verbatim: nothing is trimmed, skipped or reordered |
| `Strings.SplitJoin` | Twilio2Telegram.py:82 | splitting a comma-join of comma-free entries gives exactly those entries |
| `Strings.SplitAtFirst` | Twilio2Telegram.py:106-107 | finds the first occurrence of a character (used to read the id line off the owner's copy): none exactly when the character is absent, otherwise the text before its first occurrence, which does not contain it, then the character, then the rest |
| `Strings.SplitAtFirstOf` | Twilio2Telegram.py:106-107 | the first occurrence is unique: in `a + [c] + b` with no `c` in `a`, the split gives `a` and `b` |
| `Notification.SmsMessageReadsBack` | Twilio2Telegram.py:98-103 | when `From` holds no backtick, `FromCountry` no comma and `FromState` no `)`, the SMS notification reads back as exactly `From`, `FromCountry`, `FromState` and `Body`, each `"unknown"` when absent, in the template's order |
| `Notification.CallMessageReadsBack` | Twilio2Telegram.py:119-124 | when `From` holds no backtick, `FromCountry` no comma and `FromState` no `)`, the call notification reads back as exactly `From`, `FromCountry`, `FromState` and `CallStatus`, each `"unknown"` when absent |
| `Notification.ParseCompose` | Twilio2Telegram.py:98-103 | for any values whose caller has no backtick, whose country has no comma and whose state has no `)`, the filled template `‹kind› from `+‹From›` (‹Country›, ‹State›) :```   ‹detail›```` parses back to those values |
| `Notification.Parse` | Twilio2Telegram.py:98-124 | whatever reads back as values is exactly the filled template of that kind for those values, and those values are always readable: with `ParseCompose`, the parser accepts exactly the filled templates of readable values and nothing else |
| `Notification.TemplateIsAmbiguous` | Twilio2Telegram.py:98-103 | without those conditions the template loses information: country `A, B` with state `C` and country `A` with state `B, C` give the same text |
| `Notification.SmsAbsentIsUnknown` | Twilio2Telegram.py:99-102 | an absent SMS field gives the same notification as that field set to `"unknown"` |
| `Notification.CallAbsentIsUnknown` | Twilio2Telegram.py:120-123 | an absent call field gives the same notification as that field set to `"unknown"` |
| `Notification.SmsReadsOnlyItsKeys` | Twilio2Telegram.py:98-103 | the SMS notification depends only on `From`, `FromCountry`, `FromState` and `Body` |
| `Notification.CallReadsOnlyItsKeys` | Twilio2Telegram.py:119-124 | the call notification depends only on `From`, `FromCountry`, `FromState` and `CallStatus` |
| `Notification.KindsAreDistinct` | Twilio2Telegram.py:98-124 | an SMS notification never reads as a call notification, and a call notification never reads as an SMS one |
| `Notification.OwnerMessageSplit` | Twilio2Telegram.py:106-107 | for an id with no newline, the owner's copy is the line ``Twilio ID : `‹id›` `` followed, after its first newline, by the unmodified notification |
| `Webhook.Values` | Twilio2Telegram.py:99-102 | `request.values` holds the arguments' and form's keys, and a query argument wins over a form field of the same name |
| `Webhook.Bridge.constructor` | Twilio2Telegram.py:76-82 | the environment settings are fixed at construction, and the send log starts empty |
| `Webhook.Bridge.SendMessage` | Twilio2Telegram.py:83-84 | one `sendMessage` call appends exactly one (chat, text) entry to the log |
| `Webhook.Bridge.SendOwnerMessage` | Twilio2Telegram.py:74-77 | exactly one send, to the owner, with the text unchanged |
| `Webhook.Bridge.SendSubscribersMessage` | Twilio2Telegram.py:80-84 | appends one send of the unmodified message per comma-split entry, left to right. It fails, with nothing sent, when the setting is missing |
| `Webhook.Bridge.Handle` | Twilio2Telegram.py:105-108 | appends the owner's annotated copy, then the subscribers' sends, and returns the route's reply |
| `Webhook.Bridge.RecvMessage` | Twilio2Telegram.py:95-111 | the SMS handler: sends annotated with `MessageSid`, notification from the SMS template, reply `<response></response>` whatever the request holds. With no `MessageSid` in the query or the form, the owner's copy is annotated `unknown` |
| `Webhook.Bridge.RecvCall` | Twilio2Telegram.py:116-132 | the call handler: sends annotated with `CallSid`, notification from the call template, reply `<Response><Reject/></Response>` whatever the request holds. With no `CallSid` in the query or the form, the owner's copy is annotated `unknown` |
| `Webhook.Bridge.Guarded` | Twilio2Telegram.py:20-38 | when the validator rejects, the result is 403 and the log is unchanged, so the handler never ran. When it accepts, the result and the sends are exactly the handler's. The answer is 403 exactly when the validator rejects the `X-TWILIO-SIGNATURE` header's value, or the empty string when that header is missing |
| `Webhook.AbsentEventIdIsUnknown` | Twilio2Telegram.py:106-107 | an event id in neither the query nor the form is `"unknown"` on the owner's copy |
| `Webhook.EventIdSource` | Twilio2Telegram.py:106-107 | the event id comes from the query when present there, and from the form otherwise |
| `Webhook.FanOutRecipients` | Twilio2Telegram.py:82-84 | the fan-out goes to exactly the given recipients in order, each with the same text |
| `Webhook.DispatchCycle` | Twilio2Telegram.py:105-108 | the owner's copy is sent first, and it is the only send with the id line. Then comes one send per subscriber entry (commas plus one), each with the bare notification, to recipients that rejoin to the setting verbatim |
| `Webhook.DispatchWithoutSubscribers` | Twilio2Telegram.py:82 | without the subscriber setting, only the owner's copy is sent |
| `Webhook.EmptySubscriberSetting` | Twilio2Telegram.py:82 | an empty subscriber setting yields one send, to the chat id `""` |
| `Webhook.AcknowledgmentBodies` | Twilio2Telegram.py:111-132 | with the subscriber setting present, the SMS reply is `<response></response>` and the call reply is `<Response><Reject/></Response>` |

## Left out

- Twilio's signature computation (an HMAC-SHA1 over the URL and sorted form parameters, in the `twilio` library) is foreign code. It is the parameter `validate`, applied to the auth token, the URL, the form and the signature.
- `Bridge.Guarded` is not wired to the routes, because the decorator is commented out on both routes in the source.
- A failing `sendMessage` (network error, bad chat id) is not modelled. The source has no handling for it, and the exception would end the handler and skip the remaining recipients. The model's sends always succeed.
- Per-recipient failure isolation, retries and timeouts are not part of the source's behaviour, and no part of the model covers them.
- Concurrent requests are not modelled. waitress serves the app from a thread pool (Twilio2Telegram.py:139), so two webhooks can run at once and their sends interleave through the shared bot. The model handles one request at a time, and each handler's sends are contiguous in `sent`.
- A missing `TELEGRAM_OWNER` or `TWILIO_AUTH_TOKEN` is not modelled. What `sendMessage(chat_id=None)` or `RequestValidator(None)` does is up to the foreign libraries. Both settings are plain strings.
- Werkzeug's case-insensitive header lookup is not modelled. The headers map is keyed by the source's spelling, `X-TWILIO-SIGNATURE`.
- Forms with repeated keys are not modelled. Werkzeug's `get` returns the first value for a repeated key, and a map holds one value per key.
- The Markdown parse mode, how Telegram renders it, and the logging setup are out of scope.
- The Telegram bot's start-up and polling, the `/help` reply and the error logger are library callbacks and network I/O.
- The Flask routing, the static `Index.html` page and the waitress server are HTTP plumbing.
- Strings are sequences of characters. Python's text encoding plays no part in the behaviour modelled.
