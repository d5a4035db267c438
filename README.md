# WhatsApp echo bot webhook — Dafny model

This project models the webhook server of a WhatsApp Cloud API chatbot. The server exists in two
versions, and both are modelled:

- a single-file server (`index.ts`);
- a modular one (`src/index.ts` → `src/routes/webhookRoutes.ts` →
  `src/controllers/webhooksController.ts` → `src/services/messageHandler.ts` →
  `src/services/whatsappService.ts`).

Both versions do the same job:

- answer the platform's verification handshake on `GET /webhook`;
- on `POST /webhook`, take the first message of the delivery and, if it is a text message, reply
  `"Echo: " + body` to the sender (quoting the message id), then mark the message read;
- serve a fixed HTML page on `GET /`;
- answer 404 to everything else.

The model is pure: every handler is a function from an already-parsed request to an `Outcome`.
An `Outcome` is either the response returned or the exception thrown, together with the ordered
list of outbound `fetch` calls issued to the Graph API. Each outbound call is a value holding its
URL, its headers and its JSON record. A parameter `delivered: Call -> bool` says whether each
outbound fetch resolves. The single-file server does not catch a rejected fetch, so the exception
escapes. The modular services catch it, so their outcome does not depend on `delivered`.

JavaScript semantics are written out where the code depends on them:

- `startsWith`;
- `replace` with a string pattern, which replaces the first occurrence only;
- template and `+` interpolation of `undefined`, which gives `"undefined"`;
- the `||` default of `src/config/env.ts`;
- `URLSearchParams.get`, which returns the first value (the same first-match lookup, `Assoc.Lookup`,
  reads JSON object members);
- strict equality, where `null === undefined` is false, so an unset `WEBHOOK_VERIFY_TOKEN` never
  matches;
- the optional chain `body.entry?.[0]?.changes[0]?.value?.messages?.[0]`, which throws a TypeError
  when the first entry has no `changes`.

Modules: `JsText` (string and value semantics), `Assoc` (first-match lookup in name/value pairs), `Json`, `Config` (env.ts), `Http` (requests,
responses), `Inbound` (payload and first-message extraction), `Outbound` (recipient
rewrite, message records, calls), `Subscription` (the handshake), `WhatsappService`,
`MessageHandler`, `WebhookController`, `WebhookRoutes`, `App` (src/index.ts), `Legacy` (index.ts),
and `Versions` (how the two servers compare).

The recipient rewrite is not idempotent: `Outbound.NormalizeIdempotentIff` shows that rewriting
twice equals rewriting once exactly when the number does not start `5211`.

## Model

| member | source | states |
|---|---|---|
| `JsText.FirstOccurrenceFrom` | src/services/whatsappService.ts:6 | the position found is an occurrence of the pattern at or after the start, no earlier one exists, and `None` means there is none at all |
| `JsText.FirstOccurrence` | src/services/whatsappService.ts:6 | the search behind `replace` finds a position iff the pattern occurs, and that position is the first occurrence |
| `JsText.ReplaceFirst` | src/services/whatsappService.ts:6 | `replace` with a string pattern leaves a string without the pattern unchanged, and otherwise replaces exactly the first occurrence, keeping what precedes and follows it (the prefix case is `ReplaceFirstAtStart`, the sender rewrite `Outbound.Normalize`) |
| `JsText.ReplaceFirstAtStart` | src/services/whatsappService.ts:6 | replacing a pattern that is a prefix yields the replacement followed by the rest of the string |
| `Outbound.Normalize` | src/services/whatsappService.ts:6 | a sender starting `521` becomes `"52" + from[3..]`, one character shorter; any other sender is unchanged |
| `Outbound.NormalizeKeepsCountryCode` | src/services/whatsappService.ts:6 | a number starting `52` still starts `52` after the rewrite |
| `Outbound.NormalizeIdempotentIff` | src/services/whatsappService.ts:6 | rewriting twice equals rewriting once exactly when the number does not start `5211` |
| `Outbound.NormalizeNotIdempotent` | index.ts:31 | `5211234567890` becomes `521234567890` and then, rewritten again, `52234567890` |
| `Outbound.MessagesUrl` | src/services/whatsappService.ts:11 | the endpoint is on `https://graph.facebook.com/` and ends in `/messages` |
| `Outbound.Payload` | src/services/whatsappService.ts:18-25 | every record is an object whose first member is `messaging_product: "whatsapp"` |
| `Outbound.ReplyPayloadShape` | src/services/whatsappService.ts:18-25 | the reply record has exactly the members messaging_product, to, text, context: `to` is the recipient, `text.body` the body, `context.message_id` the quoted id (dropped when undefined), and it has no `status` |
| `Outbound.ReceiptPayloadShape` | src/services/whatsappService.ts:43-47 | the receipt record has exactly messaging_product `whatsapp`, status `read` and `message_id` (dropped when undefined) |
| `Outbound.ReceiptIsNotReply` | src/services/whatsappService.ts:43-47 | a call is a read receipt iff it marks a message read: replies and receipts are told apart |
| `Assoc.Lookup` | src/controllers/webhooksController.ts:23-25 | `searchParams.get` (and a JSON member read) finds a value iff a pair of that name exists, and the value is that of the first such pair |
| `Inbound.FirstMessage` | src/controllers/webhooksController.ts:10 | over the payload shapes modelled (see "Left out"), the chain throws iff the first entry exists without `changes`; it yields a message iff entry, changes, value and messages are all present and non-empty, and that message is the first of the first |
| `Subscription.Verify` | src/controllers/webhooksController.ts:27-32 | 200 iff mode is `subscribe` and the token is present and equal to a configured token; on 200 the body is `hub.challenge` as given (possibly null); otherwise 403 with a null body |
| `Subscription.UnsetTokenNeverVerifies` | src/controllers/webhooksController.ts:27 | with no configured token every handshake is refused |
| `Subscription.FirstTokenDecides` | src/controllers/webhooksController.ts:24 | only the first `hub.verify_token` counts: a correct one after a wrong one is refused |
| `Subscription.ChallengeEchoed` | src/controllers/webhooksController.ts:25-29 | an accepted handshake returns the challenge unchanged, and a null body when there is none |
| `WhatsappService.SendMessage` | src/services/whatsappService.ts:5-31 | an absent sender throws before anything is sent; otherwise exactly one call, the reply record (see `ReplyPayloadShape`) to the service URL, addressed to the rewritten sender, carrying the body and quoting the id, and no error, whatever the fetch does |
| `WhatsappService.MarkAsRead` | src/services/whatsappService.ts:33-53 | exactly one call, the read-receipt record (see `ReceiptPayloadShape`) for the given id to the service URL, and never an error |
| `WhatsappService.FailuresNotPropagated` | src/services/whatsappService.ts:8-52 | neither operation's result depends on whether its fetch resolves |
| `WhatsappService.SameEndpoint` | src/services/whatsappService.ts:10-41 | both operations post to `https://graph.facebook.com/{API_VERSION}/{BUSINESS_PHONE}/messages` with the same headers |
| `MessageHandler.HandleIncomingMessage` | src/services/messageHandler.ts:4-10 | a non-text message sends nothing; a text message without text or sender throws with nothing sent; otherwise the echo reply to the rewritten raw sender and then the read receipt of the same id |
| `MessageHandler.ReceiptOnceAfterReply` | src/services/messageHandler.ts:7-8 | the handler sends nothing, or exactly a reply followed by one receipt |
| `MessageHandler.SenderRewrittenOnce` | src/services/messageHandler.ts:7 | the raw sender is rewritten once, inside sendMessage: `5211234567890` is answered at `521234567890` |
| `WebhookController.HandleIncoming` | src/controllers/webhooksController.ts:5-16 | every returned response is 200 `OK`; malformed JSON, a null body and a missing `changes` throw before sending; no message means nothing sent; with a message, the calls and any exception are the message handler's |
| `WebhookController.VerifyWebhook` | src/controllers/webhooksController.ts:18-33 | 200 with the challenge iff the handshake is accepted against the configured token, else 403 |
| `WebhookController.TextMessageHandled` | src/controllers/webhooksController.ts:10-15 | a well-formed text message yields 200 `OK` after exactly the echo reply and its receipt |
| `WebhookController.NothingSentWithoutText` | src/controllers/webhooksController.ts:11-15 | a delivery without a message, or with a non-text one, sends nothing and answers 200 `OK` |
| `WebhookRoutes.Router` | src/routes/webhookRoutes.ts:3-15 | dispatch on the method alone; specified by `RouterIgnoresPath` and `MethodOutcomes` |
| `WebhookRoutes.RouterIgnoresPath` | src/routes/webhookRoutes.ts:3-15 | the router's outcome does not depend on the path |
| `WebhookRoutes.MethodOutcomes` | src/routes/webhookRoutes.ts:6-14 | POST is handleIncoming (200 `OK` whenever it returns); GET sends nothing and answers 200 or 403; any other method is 404 `Not Found` |
| `App.Fetch` | src/index.ts:7-23 | the modular server's request handler; specified by `App.Routing`, `App.EchoThenRead`, `App.ReceiptOnlyAfterReply` and `App.DeliveryIrrelevant` |
| `App.Routing` | src/index.ts:11-22 | every `/webhook` request goes to the router, PUT included (404 there); GET `/` is the HTML page with `Content-Type: text/html` and is the only request that is; other paths and non-GET `/` are 404 |
| `App.EchoThenRead` | src/index.ts:11-14 | POST /webhook with a text message answers 200 `OK` after exactly two calls: the echo reply to the rewritten sender quoting the id, then the receipt |
| `App.ReceiptOnlyAfterReply` | src/services/messageHandler.ts:7-8 | any request sends nothing, or a reply followed by exactly one receipt |
| `App.DeliveryIrrelevant` | src/services/whatsappService.ts:28-30 | a rejected outbound request never changes the modular server's outcome |
| `Legacy.HandlePost` | index.ts:16-71 | POST /webhook sends at most two requests, and whenever it returns the response is 200 with a null body |
| `Legacy.Fetch` | index.ts:12-101 | the single-file server's request handler; specified by `Legacy.Routing`, `Legacy.EchoThenRead`, `Legacy.RejectedReplySkipsReceipt` and `Legacy.SentIsPrefixOfReplyThenReceipt` |
| `Legacy.Routing` | index.ts:16-100 | POST /webhook answers 200 with a null body when it returns; GET /webhook is the handshake; GET `/` is the HTML page and only it; everything else, PUT /webhook included, is 404 |
| `Legacy.EchoThenRead` | index.ts:27-67 | when both requests go through: the reply to the rewritten sender with text `"Echo: " + body` quoting the id, then the receipt of that id, then 200 with a null body |
| `Legacy.RejectedReplySkipsReceipt` | index.ts:33-53 | a rejected reply escapes as an exception and no receipt is attempted |
| `Legacy.NothingSentWithoutText` | index.ts:24-27 | no message, or a non-text one, sends nothing and answers 200 with a null body |
| `Legacy.SentIsPrefixOfReplyThenReceipt` | index.ts:33-67 | whatever happens, the calls sent are a prefix of "reply, then receipt" |
| `Legacy.EntryWithoutChangesThrows` | index.ts:24 | a first entry without `changes` throws a TypeError before anything is sent |
| `Versions.AgreeWhenDelivered` | index.ts:11-100 | with API_VERSION set and non-empty and every request going through, both servers send the same calls, throw the same exceptions, answer with the same status and with the same response except the POST /webhook body (null against `OK`) |
| `Versions.UnsetApiVersion` | src/config/env.ts:6 | with API_VERSION unset the single-file server posts to `.../undefined/...` and the modular one to `.../v21.0/...` |
| `Versions.EmptyApiVersion` | src/config/env.ts:6 | with API_VERSION set to the empty string the single-file server posts to `https://graph.facebook.com//...` (index.ts:34 interpolates it as is) and the modular one to `.../v21.0/...`, because the empty string is falsy |
| `Versions.RejectedReplyDiverges` | index.ts:33-50 | a rejected reply makes the single-file server throw with one call sent, while the modular one sends both and answers 200 `OK` |

## Left out

- HTTP transport: `serve`, the port, URL parsing and percent-decoding, and reading the request body. A request arrives as path, method, decoded query pairs and parsed body.
- The HTTP response a client receives when a handler throws. That is the server runtime's default error response; the model only records the exception.
- Headers the `Response` class adds by itself, such as the default `text/plain` content type of a string body. Only the headers the code sets are modelled.
- The outbound request's method (always POST) and its JSON serialisation. A call is modelled as URL, headers and JSON record; members whose value is undefined are dropped, as `JSON.stringify` drops them.
- What the Graph API answers. A fetch either resolves, and its response is never read, or rejects.
- JSON `null` and non-string values in message fields. An absent member is modelled. A `null` text body would read `Echo: null`, and that case is not modelled.
- Nested payload shapes other than objects and arrays of objects: an `entry`, `changes` or `messages` member that is not an array, and array elements that are `null` or primitive. The chain treats them differently: `{"entry":[null]}` short-circuits to no message, while `{"entry":[5]}` or `{"entry":"x"}` throws a TypeError at `changes[0]`. The model represents each of these members as absent or as an array of records.
- `req.json()` results other than a document, `null` or a parse failure. Any other JSON value (a number, a string, an array) behaves like a document without `entry`.
- Console logging in both servers and the catch blocks' error messages in `src/services/whatsappService.ts`, because logging does not affect the outcome.
- `src/services/googleSheetsService.ts` and `src/services/openAiService.ts`, because they are client wrappers that the handlers never call.
- The `$` substitution patterns of `String.prototype.replace`, because the only replacement used, `52`, contains none.
- Concurrency between overlapping deliveries, because no state is shared between requests.
