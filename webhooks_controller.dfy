/** `WebhookController` (src/controllers/webhooksController.ts): the POST and GET handlers of /webhook. */
module WebhookController {
  import opened Wrappers
  import opened JsText
  import opened Config
  import opened Inbound
  import opened Outbound
  import opened Http
  import opened Assoc
  import MessageHandler
  import Subscription
  import WhatsappService

  /** `new Response('OK', { status: 200 })` */
  const Acknowledged: Response := Response(200, Some("OK"), [])

  /** `handleIncoming(req)`: parse the body, hand the first message (if any) to the message handler,
      acknowledge. `body!` is only a type assertion, so a JSON null body still throws on `.entry`. */
  function HandleIncoming(cfg: Settings, body: Body, delivered: Call -> bool): (o: Outcome)
    ensures o.Returned? ==> o.response == Acknowledged
    ensures body.Unparsable? ==> o == Threw(SyntaxError, [])
    ensures body.NullJson? ==> o == Threw(TypeError, [])
    ensures body.Doc? && FirstMessage(body.payload).Err? ==> o == Threw(TypeError, [])
    ensures body.Doc? && !HasFirstMessage(body.payload) && FirstMessage(body.payload).Ok? ==> o == Returned(Acknowledged, [])
    ensures body.Doc? && HasFirstMessage(body.payload) ==>
              var e := MessageHandler.HandleIncomingMessage(cfg, FirstMessage(body.payload).value.value, delivered);
              && o.sent == e.sent
              && (o.Threw? <==> e.error.Some?)
              && (o.Threw? ==> o.error == e.error.value)
  {
    match body
    case Unparsable => Threw(SyntaxError, [])
    case NullJson => Threw(TypeError, [])
    case Doc(p) =>
      match FirstMessage(p)
      case Err(err) => Threw(err, [])
      case Ok(None) => Returned(Acknowledged, [])
      case Ok(Some(m)) =>
        var e := MessageHandler.HandleIncomingMessage(cfg, m, delivered);
        match e.error
        case Some(err) => Threw(err, e.sent)
        case None => Returned(Acknowledged, e.sent)
  }

  /** `verifyWebhook(req)`, with the configured token of env.ts. */
  function VerifyWebhook(cfg: Settings, query: seq<(string, string)>): (r: Response)
    ensures r.status == 200 <==> Subscription.Accepts(query, cfg.webhookVerifyToken)
    ensures r.status == 200 ==> r.body == Lookup(query, "hub.challenge")
    ensures r.status != 200 ==> r == Subscription.Forbidden
  {
    Subscription.Verify(query, cfg.webhookVerifyToken)
  }

  /** A delivery whose first message is a well-formed text message is echoed and read, then acknowledged. */
  lemma TextMessageHandled(cfg: Settings, p: Payload, delivered: Call -> bool)
    requires HasFirstMessage(p)
    requires var m := FirstMessage(p).value.value; IsText(m) && m.from.Some? && m.text.Some?
    ensures var m := FirstMessage(p).value.value;
            HandleIncoming(cfg, Doc(p), delivered)
            == Returned(Acknowledged,
                        [CallFor(WhatsappService.ServiceUrl(cfg), cfg.graphApiToken,
                                 SendText(Normalize(m.from.value), MessageHandler.EchoOf(m.text.value), m.id)),
                         CallFor(WhatsappService.ServiceUrl(cfg), cfg.graphApiToken, MarkRead(m.id))])
  {
  }

  /** A delivery without a message, or whose first message is not text, sends nothing. */
  lemma NothingSentWithoutText(cfg: Settings, p: Payload, delivered: Call -> bool)
    requires FirstMessage(p).Ok?
    requires HasFirstMessage(p) ==> !IsText(FirstMessage(p).value.value)
    ensures HandleIncoming(cfg, Doc(p), delivered) == Returned(Acknowledged, [])
  {
  }
}
