/** The webhook verification handshake: the platform sends `hub.mode`, `hub.verify_token` and
    `hub.challenge` and expects the challenge back when the token is the one configured
    (index.ts:76-88, src/controllers/webhooksController.ts:23-31). */
module Subscription {
  import opened Wrappers
  import opened JsText
  import opened Http
  import opened Assoc

  /** Mode and token both as the server's own ones: both sides present and equal. */
  predicate Accepts(query: seq<(string, string)>, configured: Option<string>)
  {
    && Lookup(query, "hub.mode") == Some("subscribe")
    && Lookup(query, "hub.verify_token").Some?
    && configured.Some?
    && Lookup(query, "hub.verify_token").value == configured.value
  }

  const Forbidden: Response := Response(403, None, [])

  /** `mode === "subscribe" && token === WEBHOOK_VERIFY_TOKEN ? new Response(challenge, 200) : 403`.
      The query values are string or null; the configured token is string or undefined. */
  function Verify(query: seq<(string, string)>, configured: Option<string>): (r: Response)
    ensures r.status == 200 <==> Accepts(query, configured)
    ensures r.status == 200 ==> r == Response(200, Lookup(query, "hub.challenge"), [])
    ensures r.status != 200 ==> r == Forbidden
  {
    // `url.searchParams.get(name)` is the first pair's value, or null
    var mode := OfNullable(Lookup(query, "hub.mode"));
    var token := OfNullable(Lookup(query, "hub.verify_token"));
    var challenge := Lookup(query, "hub.challenge");
    if mode == Str("subscribe") && token == OfUndefinable(configured) then
      Response(200, challenge, [])
    else
      Forbidden
  }

  /** With no token configured nothing verifies, whatever the query holds. */
  lemma UnsetTokenNeverVerifies(query: seq<(string, string)>)
    ensures Verify(query, None) == Forbidden
  {
  }

  /** The first `hub.verify_token` decides: a matching token after a wrong one is not seen. */
  lemma FirstTokenDecides(rest: seq<(string, string)>, wrong: string, right: string)
    requires wrong != right
    ensures Verify([("hub.mode", "subscribe"), ("hub.verify_token", wrong), ("hub.verify_token", right)] + rest, Some(right))
            == Forbidden
  {
    var q := [("hub.mode", "subscribe"), ("hub.verify_token", wrong), ("hub.verify_token", right)] + rest;
    assert q[1..][1..] == [("hub.verify_token", right)] + rest;
    assert Lookup(q, "hub.verify_token") == Some(wrong);
  }

  /** A correct handshake echoes the challenge unchanged, and a missing challenge gives a null body. */
  lemma ChallengeEchoed(query: seq<(string, string)>, configured: Option<string>)
    requires Accepts(query, configured)
    ensures Verify(query, configured).body == Lookup(query, "hub.challenge")
    ensures (forall i :: 0 <= i < |query| ==> query[i].0 != "hub.challenge") ==> Verify(query, configured).body == None
  {
  }
}
