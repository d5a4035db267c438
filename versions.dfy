/** How the single-file server (index.ts) and the modular one (src/) differ on the same request,
    the modular one running with the configuration env.ts loads from the same environment. */
module Versions {
  import opened Wrappers
  import opened JsText
  import opened Config
  import opened Inbound
  import opened Outbound
  import opened Http
  import Legacy
  import App
  import WebhookController
  import WhatsappService

  /** When API_VERSION is set and every request goes through, both servers send the same requests,
      throw the same exceptions and answer with the same status; the only difference in what they
      return is the body of the POST /webhook acknowledgement (null against "OK"). */
  lemma AgreeWhenDelivered(env: Env, req: Request, delivered: Call -> bool)
    requires env.apiVersion.Some? && env.apiVersion.value != ""
    requires forall c :: delivered(c)
    ensures var l, n := Legacy.Fetch(env, req, delivered), App.Fetch(Load(env), req, delivered);
            && l.sent == n.sent
            && (l.Threw? <==> n.Threw?)
            && (l.Threw? ==> l.error == n.error)
            && (l.Returned? ==> l.response.status == n.response.status)
            && (l.Returned? && (req.path != "/webhook" || req.verb != "POST") ==> l.response == n.response)
            && (l.Returned? && req.path == "/webhook" && req.verb == "POST" ==>
                  l.response.body == None && n.response.body == Some("OK"))
  {
    assert Legacy.LegacyUrl(env) == WhatsappService.ServiceUrl(Load(env));
    if req.path == "/webhook" && req.verb == "POST" && req.body.Doc? && HasFirstMessage(req.body.payload) {
      var m := FirstMessage(req.body.payload).value.value;
      if IsText(m) && m.from.Some? && m.text.Some? {
        assert Legacy.Fetch(env, req, delivered).sent
               == [Legacy.Reply(env, m.from.value, m.text.value, m.id), Legacy.Receipt(env, m.id)];
      }
    }
  }

  /** With API_VERSION unset the single-file server posts to ".../undefined/...", the modular one to ".../v21.0/...". */
  lemma UnsetApiVersion(env: Env)
    requires env.apiVersion.None?
    ensures Legacy.LegacyUrl(env) == MessagesUrl("undefined", Interpolate(env.businessPhone))
    ensures WhatsappService.ServiceUrl(Load(env)) == MessagesUrl("v21.0", Interpolate(env.businessPhone))
    ensures Legacy.LegacyUrl(env) != WhatsappService.ServiceUrl(Load(env))
  {
    // "undefined" is four characters longer than "v21.0"
    assert |Legacy.LegacyUrl(env)| == |WhatsappService.ServiceUrl(Load(env))| + 4;
  }

  /** With API_VERSION set to the empty string the single-file server interpolates it as is and posts to
      "https://graph.facebook.com//...", while `'' || 'v21.0'` gives the modular one ".../v21.0/...". */
  lemma EmptyApiVersion(env: Env)
    requires env.apiVersion == Some("")
    ensures Legacy.LegacyUrl(env) == MessagesUrl("", Interpolate(env.businessPhone))
    ensures WhatsappService.ServiceUrl(Load(env)) == MessagesUrl("v21.0", Interpolate(env.businessPhone))
    ensures Legacy.LegacyUrl(env) != WhatsappService.ServiceUrl(Load(env))
  {
    // the empty version segment is five characters shorter than "v21.0"
    assert |WhatsappService.ServiceUrl(Load(env))| == |Legacy.LegacyUrl(env)| + 5;
  }

  /** A rejected reply: the single-file server throws with only the reply sent, the modular one still
      sends the receipt and acknowledges with 200 "OK". */
  lemma RejectedReplyDiverges(env: Env, req: Request, m: Message, delivered: Call -> bool)
    requires req.path == "/webhook" && req.verb == "POST"
    requires req.body.Doc? && FirstMessage(req.body.payload) == Ok(Some(m))
    requires IsText(m) && m.from.Some? && m.text.Some?
    requires !delivered(Legacy.Reply(env, m.from.value, m.text.value, m.id))
    ensures && Legacy.Fetch(env, req, delivered).Threw?
            && |Legacy.Fetch(env, req, delivered).sent| == 1
            && App.Fetch(Load(env), req, delivered).Returned?
            && App.Fetch(Load(env), req, delivered).response == WebhookController.Acknowledged
            && |App.Fetch(Load(env), req, delivered).sent| == 2
  {
    Legacy.RejectedReplySkipsReceipt(env, req, m, delivered);
    App.EchoThenRead(Load(env), req, m, delivered);
  }
}
