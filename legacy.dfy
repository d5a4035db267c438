/** The original single-file server (index.ts). It reads `process.env` directly (no default API
    version), builds both Cloud API requests inline and does not catch a rejected `fetch`: the
    exception escapes the handler, and a rejected reply means no read receipt is attempted. */
module Legacy {
  import opened Wrappers
  import opened JsText
  import opened Config
  import opened Inbound
  import opened Outbound
  import opened Http
  import Subscription

  /** The messages endpoint as index.ts interpolates it. */
  function LegacyUrl(env: Env): string
  {
    MessagesUrl(Interpolate(env.apiVersion), Interpolate(env.businessPhone))
  }

  /** The reply to a text message, built inline (index.ts:31-50): `"Echo: " + message.text.body`. */
  function Reply(env: Env, from: string, t: TextPart, id: Option<string>): Call
  {
    CallFor(LegacyUrl(env), env.graphApiToken, SendText(Normalize(from), "Echo: " + Interpolate(t.body), id))
  }

  /** The read receipt (index.ts:53-67). */
  function Receipt(env: Env, id: Option<string>): Call
  {
    CallFor(LegacyUrl(env), env.graphApiToken, MarkRead(id))
  }

  /** `new Response(null, { status: 200 })` */
  const Accepted: Response := Response(200, None, [])

  /** POST /webhook. `message.from.startsWith` is evaluated first, then `message.text.body` while
      building the reply; each awaited fetch that rejects ends the handler with the exception. */
  function HandlePost(env: Env, body: Body, delivered: Call -> bool): (o: Outcome)
    ensures o.Returned? ==> o.response == Accepted
    ensures |o.sent| <= 2
  {
    match body
    case Unparsable => Threw(SyntaxError, [])
    case NullJson => Threw(TypeError, [])
    case Doc(p) =>
      match FirstMessage(p)
      case Err(err) => Threw(err, [])
      case Ok(None) => Returned(Accepted, [])
      case Ok(Some(m)) =>
        if !IsText(m) then Returned(Accepted, [])
        else if m.from.None? then Threw(TypeError, [])
        else if m.text.None? then Threw(TypeError, [])
        else
          var reply := Reply(env, m.from.value, m.text.value, m.id);
          if !delivered(reply) then Threw(FetchRejected, [reply])
          else
            var receipt := Receipt(env, m.id);
            if !delivered(receipt) then Threw(FetchRejected, [reply, receipt])
            else Returned(Accepted, [reply, receipt])
  }

  /** The `fetch` handler of index.ts. */
  function Fetch(env: Env, req: Request, delivered: Call -> bool): Outcome
  {
    if req.path == "/webhook" && req.verb == "POST" then HandlePost(env, req.body, delivered)
    else if req.path == "/webhook" && req.verb == "GET" then
      Returned(Subscription.Verify(req.query, env.webhookVerifyToken), [])
    else if req.path == "/" && req.verb == "GET" then Returned(Home, [])
    else Returned(NotFound, [])
  }

  /** Every POST /webhook that returns answers 200 with a null body; GET /webhook is the handshake;
      GET / is the landing page; every other request, PUT /webhook included, is 404. */
  lemma Routing(env: Env, req: Request, delivered: Call -> bool)
    ensures var o := Fetch(env, req, delivered);
            && (req.path == "/webhook" && req.verb == "POST" && o.Returned? ==> o.response == Accepted)
            && (req.path == "/webhook" && req.verb == "GET" ==>
                  o == Returned(Subscription.Verify(req.query, env.webhookVerifyToken), []))
            && (req.path == "/" && req.verb == "GET" <==> o == Returned(Home, []))
            && ((req.path != "/webhook" || req.verb !in {"POST", "GET"}) && (req.path != "/" || req.verb != "GET") ==>
                  o == Returned(NotFound, []))
  {
  }

  /** A text message whose two requests both go through: the echo reply, then the receipt, then 200. */
  lemma EchoThenRead(env: Env, req: Request, m: Message, delivered: Call -> bool)
    requires req.path == "/webhook" && req.verb == "POST"
    requires req.body.Doc? && FirstMessage(req.body.payload) == Ok(Some(m))
    requires IsText(m) && m.from.Some? && m.text.Some?
    requires delivered(Reply(env, m.from.value, m.text.value, m.id)) && delivered(Receipt(env, m.id))
    ensures var o := Fetch(env, req, delivered);
            && o == Returned(Accepted, [Reply(env, m.from.value, m.text.value, m.id), Receipt(env, m.id)])
            && Json.Field(o.sent[0].payload, "to") == Some(Json.JString(Normalize(m.from.value)))
            && Json.Field(o.sent[0].payload, "text")
               == Some(Json.JObject([("body", Json.JString("Echo: " + Interpolate(m.text.value.body)))]))
            && Json.Field(o.sent[0].payload, "context") == Some(Json.JObject(Json.OptionalMember("message_id", m.id)))
            && IsReadReceipt(o.sent[1])
            && Json.Field(o.sent[1].payload, "message_id") == MessageIdValue(m.id)
  {
    var reply, receipt := Reply(env, m.from.value, m.text.value, m.id), Receipt(env, m.id);
    assert HandlePost(env, req.body, delivered) == Returned(Accepted, [reply, receipt]);
    ReplyPayloadShape(Normalize(m.from.value), "Echo: " + Interpolate(m.text.value.body), m.id);
    ReceiptPayloadShape(m.id);
  }

  /** A rejected reply escapes as an exception and the receipt is never attempted. */
  lemma RejectedReplySkipsReceipt(env: Env, req: Request, m: Message, delivered: Call -> bool)
    requires req.path == "/webhook" && req.verb == "POST"
    requires req.body.Doc? && FirstMessage(req.body.payload) == Ok(Some(m))
    requires IsText(m) && m.from.Some? && m.text.Some?
    requires !delivered(Reply(env, m.from.value, m.text.value, m.id))
    ensures Fetch(env, req, delivered)
            == Threw(FetchRejected, [Reply(env, m.from.value, m.text.value, m.id)])
  {
  }

  /** No message, or a message that is not text: nothing is sent and the answer is 200 with a null body. */
  lemma NothingSentWithoutText(env: Env, req: Request, delivered: Call -> bool)
    requires req.path == "/webhook" && req.verb == "POST" && req.body.Doc?
    requires FirstMessage(req.body.payload).Ok?
    requires HasFirstMessage(req.body.payload) ==> !IsText(FirstMessage(req.body.payload).value.value)
    ensures Fetch(env, req, delivered) == Returned(Accepted, [])
  {
  }

  /** Whatever happens, what was sent is a prefix of "reply, then receipt": a receipt is never sent
      without the reply before it, and at most once. */
  lemma SentIsPrefixOfReplyThenReceipt(env: Env, req: Request, delivered: Call -> bool)
    ensures var s := Fetch(env, req, delivered).sent;
            s == [] || (!IsReadReceipt(s[0]) && (|s| == 1 || (|s| == 2 && IsReadReceipt(s[1]))))
  {
    var s := Fetch(env, req, delivered).sent;
    if s != [] {
      var m := FirstMessage(req.body.payload).value.value;
      ReceiptIsNotReply(LegacyUrl(env), env.graphApiToken,
                        SendText(Normalize(m.from.value), "Echo: " + Interpolate(m.text.value.body), m.id));
      ReceiptIsNotReply(LegacyUrl(env), env.graphApiToken, MarkRead(m.id));
    }
  }

  /** Extraction throws when the first entry has no `changes`, before anything is sent. */
  lemma EntryWithoutChangesThrows(env: Env, req: Request, rest: seq<Entry>, delivered: Call -> bool)
    requires req.path == "/webhook" && req.verb == "POST"
    requires req.body == Doc(Payload(Some([Entry(None)] + rest)))
    ensures Fetch(env, req, delivered) == Threw(TypeError, [])
  {
  }
}
