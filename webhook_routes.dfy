/** The /webhook router (src/routes/webhookRoutes.ts): dispatch on the method alone. */
module WebhookRoutes {
  import opened Config
  import opened Outbound
  import opened Http
  import WebhookController

  function Router(cfg: Settings, req: Request, delivered: Call -> bool): Outcome
  {
    if req.verb == "POST" then WebhookController.HandleIncoming(cfg, req.body, delivered)
    else if req.verb == "GET" then Returned(WebhookController.VerifyWebhook(cfg, req.query), [])
    else Returned(NotFound, [])
  }

  /** The router never looks at the path. */
  lemma RouterIgnoresPath(cfg: Settings, req: Request, path: string, delivered: Call -> bool)
    ensures Router(cfg, req.(path := path), delivered) == Router(cfg, req, delivered)
  {
  }

  /** What each method can produce: POST is acknowledged with 200 "OK" whenever it returns, GET sends
      nothing and answers 200 or 403, every other method gets 404 and sends nothing. */
  lemma MethodOutcomes(cfg: Settings, req: Request, delivered: Call -> bool)
    ensures var o := Router(cfg, req, delivered);
            && (req.verb == "POST" ==> o == WebhookController.HandleIncoming(cfg, req.body, delivered))
            && (req.verb == "POST" && o.Returned? ==> o.response == WebhookController.Acknowledged)
            && (req.verb == "GET" ==> o.Returned? && o.sent == [] && o.response.status in {200, 403})
            && (req.verb != "POST" && req.verb != "GET" ==> o == Returned(NotFound, []))
  {
  }
}
