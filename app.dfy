/** The modular server's request handler (src/index.ts): /webhook goes to the router whatever the
    method, GET / serves the landing page, everything else is 404. */
module App {
  import opened Wrappers
  import opened Config
  import opened Inbound
  import opened Outbound
  import opened Http
  import WebhookRoutes
  import WebhookController
  import MessageHandler
  import WhatsappService
  import Subscription

  function Fetch(cfg: Settings, req: Request, delivered: Call -> bool): Outcome
  {
    if req.path == "/webhook" then WebhookRoutes.Router(cfg, req, delivered)
    else if req.path == "/" && req.verb == "GET" then Returned(Home, [])
    else Returned(NotFound, [])
  }

  /** POST /webhook with a text message: exactly two requests, the echo reply quoting the message
      and then its read receipt, and a 200 "OK" acknowledgement, whether or not the requests succeed. */
  lemma EchoThenRead(cfg: Settings, req: Request, m: Message, delivered: Call -> bool)
    requires req.path == "/webhook" && req.verb == "POST"
    requires req.body.Doc? && FirstMessage(req.body.payload) == Ok(Some(m))
    requires IsText(m) && m.from.Some? && m.text.Some?
    ensures var o := Fetch(cfg, req, delivered);
            && o.Returned? && o.response == Response(200, Some("OK"), [])
            && |o.sent| == 2
            && o.sent[0] == CallFor(WhatsappService.ServiceUrl(cfg), cfg.graphApiToken,
                                    SendText(Normalize(m.from.value), "Echo: " + JsText.Interpolate(m.text.value.body), m.id))
            && o.sent[1] == CallFor(WhatsappService.ServiceUrl(cfg), cfg.graphApiToken, MarkRead(m.id))
  {
    WebhookController.TextMessageHandled(cfg, req.body.payload, delivered);
  }

  /** Every request sends nothing, or a reply followed by one receipt. */
  lemma ReceiptOnlyAfterReply(cfg: Settings, req: Request, delivered: Call -> bool)
    ensures var s := Fetch(cfg, req, delivered).sent;
            s == [] || (|s| == 2 && !IsReadReceipt(s[0]) && IsReadReceipt(s[1]))
  {
    if req.path == "/webhook" && req.verb == "POST" && req.body.Doc? && HasFirstMessage(req.body.payload) {
      MessageHandler.ReceiptOnceAfterReply(cfg, FirstMessage(req.body.payload).value.value, delivered);
    }
  }

  /** A rejected outbound request never changes the outcome: the services swallow the failure. */
  lemma DeliveryIrrelevant(cfg: Settings, req: Request, d1: Call -> bool, d2: Call -> bool)
    ensures Fetch(cfg, req, d1) == Fetch(cfg, req, d2)
  {
  }

  /** The three branches partition all requests, and /webhook wins even for unknown methods. */
  lemma Routing(cfg: Settings, req: Request, delivered: Call -> bool)
    ensures var o := Fetch(cfg, req, delivered);
            && (req.path == "/webhook" ==> o == WebhookRoutes.Router(cfg, req, delivered))
            && (req.path == "/" && req.verb == "GET" <==> o == Returned(Home, []))
            && (req.path == "/" && req.verb != "GET" ==> o == Returned(NotFound, []))
            && (req.path == "/webhook" && req.verb == "GET" ==>
                  o == Returned(Subscription.Verify(req.query, cfg.webhookVerifyToken), []))
            && (req.path == "/webhook" && req.verb != "GET" && req.verb != "POST" ==> o == Returned(NotFound, []))
            && (req.path != "/" && req.path != "/webhook" ==> o == Returned(NotFound, []))
  {
    var o := Fetch(cfg, req, delivered);
    if req.path == "/webhook" && req.verb == "POST" && o.Returned? {
      assert o.response.body == Some("OK");
    }
  }
}
