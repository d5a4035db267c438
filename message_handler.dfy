/** `handleIncomingMessage` (src/services/messageHandler.ts): echo a text message, then mark it read. */
module MessageHandler {
  import opened Wrappers
  import opened JsText
  import opened Config
  import opened Inbound
  import opened Outbound
  import WhatsappService

  /** `Echo: ${message.text.body}`; an absent body reads "undefined". */
  function EchoOf(t: TextPart): string
  {
    "Echo: " + Interpolate(t.body)
  }

  /** The raw `from` goes to `sendMessage`, which does the rewrite; the receipt follows the reply. */
  function HandleIncomingMessage(cfg: Settings, m: Message, delivered: Call -> bool): (e: Effect)
    ensures !IsText(m) ==> e == Effect([], None)
    ensures IsText(m) && (m.text.None? || m.from.None?) ==> e == Effect([], Some(TypeError))
    ensures IsText(m) && m.text.Some? && m.from.Some? ==>
              && e.error.None?
              && e.sent == [CallFor(WhatsappService.ServiceUrl(cfg), cfg.graphApiToken,
                                    SendText(Normalize(m.from.value), EchoOf(m.text.value), m.id)),
                            CallFor(WhatsappService.ServiceUrl(cfg), cfg.graphApiToken, MarkRead(m.id))]
  {
    if IsText(m) then
      match m.text
      case None => Effect([], Some(TypeError))
      case Some(t) =>
        var response := EchoOf(t);
        var sent := WhatsappService.SendMessage(cfg, m.from, response, m.id, delivered);
        if sent.error.Some? then sent
        else
          var read := WhatsappService.MarkAsRead(cfg, m.id, delivered);
          Effect(sent.sent + read.sent, read.error)
    else Effect([], None)
  }

  /** Per text message exactly one receipt is sent, and only after the reply. */
  lemma ReceiptOnceAfterReply(cfg: Settings, m: Message, delivered: Call -> bool)
    ensures var s := HandleIncomingMessage(cfg, m, delivered).sent;
            s == [] || (|s| == 2 && !IsReadReceipt(s[0]) && IsReadReceipt(s[1]))
  {
    var s := HandleIncomingMessage(cfg, m, delivered).sent;
    if s != [] {
      ReceiptIsNotReply(WhatsappService.ServiceUrl(cfg), cfg.graphApiToken, SendText(Normalize(m.from.value), EchoOf(m.text.value), m.id));
      ReceiptIsNotReply(WhatsappService.ServiceUrl(cfg), cfg.graphApiToken, MarkRead(m.id));
    }
  }

  /** The rewrite happens once: a "5211..." sender is answered at "521...", not at "52...". */
  lemma SenderRewrittenOnce(cfg: Settings, id: Option<string>, t: TextPart, delivered: Call -> bool)
    ensures HandleIncomingMessage(cfg, Message(Some("text"), Some("5211234567890"), id, Some(t)), delivered).sent[0]
            == CallFor(WhatsappService.ServiceUrl(cfg), cfg.graphApiToken, SendText("521234567890", EchoOf(t), id))
  {
    NormalizeNotIdempotent();
  }
}
