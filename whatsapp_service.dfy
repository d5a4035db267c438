/** The outbound service of the modular server (src/services/whatsappService.ts): `sendMessage`
    and `makAsRead`. Both wrap their `fetch` in try/catch, so a rejected request is logged and
    does not reach the caller; the `delivered` argument (does the fetch of this call resolve?)
    therefore cannot change what they report. */
module WhatsappService {
  import opened Wrappers
  import opened JsText
  import opened Config
  import opened Outbound
  import Json

  /** The endpoint both operations post to. */
  function ServiceUrl(cfg: Settings): string
  {
    MessagesUrl(cfg.apiVersion, Interpolate(cfg.businessPhone))
  }

  /** `sendMessage(from, body, messageId)`. The rewrite of `from` runs before the try block, so an
      absent `from` throws to the caller before anything is sent. */
  function SendMessage(cfg: Settings, from: Option<string>, body: string, messageId: Option<string>,
                       delivered: Call -> bool): (e: Effect)
    ensures e.error.Some? <==> from.None?
    ensures from.None? ==> e == Effect([], Some(TypeError))
    ensures from.Some? ==>
              && |e.sent| == 1 && e.sent[0].url == ServiceUrl(cfg) && e.sent[0].headers == Headers(cfg.graphApiToken)
              && Json.Field(e.sent[0].payload, "to") == Some(Json.JString(Normalize(from.value)))
              && Json.Field(e.sent[0].payload, "text") == Some(Json.JObject([("body", Json.JString(body))]))
              && Json.Field(e.sent[0].payload, "context") == Some(Json.JObject(Json.OptionalMember("message_id", messageId)))
              && !IsReadReceipt(e.sent[0])
              && e.sent[0] == CallFor(ServiceUrl(cfg), cfg.graphApiToken, SendText(Normalize(from.value), body, messageId))
  {
    match from
    case None => Effect([], Some(TypeError))
    case Some(f) =>
      var to := Normalize(f);
      ReplyPayloadShape(to, body, messageId);
      // whether or not the fetch resolves, the catch block swallows its failure
      Effect([CallFor(ServiceUrl(cfg), cfg.graphApiToken, SendText(to, body, messageId))], None)
  }

  /** `makAsRead(messageId)`: one read receipt, never a failure. */
  function MarkAsRead(cfg: Settings, messageId: Option<string>, delivered: Call -> bool): (e: Effect)
    ensures e.error.None? && |e.sent| == 1
    ensures e.sent[0].url == ServiceUrl(cfg) && e.sent[0].headers == Headers(cfg.graphApiToken)
    ensures IsReadReceipt(e.sent[0])
    ensures Json.Field(e.sent[0].payload, "message_id") == MessageIdValue(messageId)
    ensures e.sent[0] == CallFor(ServiceUrl(cfg), cfg.graphApiToken, MarkRead(messageId))
  {
    ReceiptPayloadShape(messageId);
    Effect([CallFor(ServiceUrl(cfg), cfg.graphApiToken, MarkRead(messageId))], None)
  }

  /** Neither operation's result depends on whether its fetch resolves. */
  lemma FailuresNotPropagated(cfg: Settings, from: Option<string>, body: string, messageId: Option<string>,
                              d1: Call -> bool, d2: Call -> bool)
    ensures SendMessage(cfg, from, body, messageId, d1) == SendMessage(cfg, from, body, messageId, d2)
    ensures MarkAsRead(cfg, messageId, d1) == MarkAsRead(cfg, messageId, d2)
  {
  }

  /** Both operations post to the same endpoint with the same headers. */
  lemma SameEndpoint(cfg: Settings, from: string, body: string, messageId: Option<string>, d: Call -> bool)
    ensures SendMessage(cfg, Some(from), body, messageId, d).sent[0].url == MarkAsRead(cfg, messageId, d).sent[0].url
            == "https://graph.facebook.com/" + cfg.apiVersion + "/" + Interpolate(cfg.businessPhone) + "/messages"
    ensures SendMessage(cfg, Some(from), body, messageId, d).sent[0].headers == MarkAsRead(cfg, messageId, d).sent[0].headers
  {
  }
}
