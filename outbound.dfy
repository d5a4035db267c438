/** Requests to the WhatsApp Cloud API: the recipient rewrite, the two message records and the
    `fetch` calls that carry them (index.ts:31-67, src/services/whatsappService.ts). */
module Outbound {
  import opened Wrappers
  import opened JsText
  import opened Json
  import opened Assoc

  /** What an outbound message asks for. `replyTo` and `messageId` are `None` when the inbound id was absent. */
  datatype Action =
    | SendText(to: string, body: string, replyTo: Option<string>)
    | MarkRead(messageId: Option<string>)

  /** One `fetch(url, { method: "POST", headers, body: JSON.stringify(payload) })`. */
  datatype Call = Call(url: string, headers: seq<(string, string)>, payload: Json)

  /** What a service call did: the requests it issued and, if it threw, the exception. */
  datatype Effect = Effect(sent: seq<Call>, error: Option<JsError>)

  /** `from.startsWith("521") ? from.replace("521", "52") : from`: a Mexican mobile number carries
      an extra "1" after the country code, which the reply address drops. */
  function Normalize(from: string): (r: string)
    ensures StartsWith(from, "521") ==> r == "52" + from[3..] && |r| == |from| - 1
    ensures !StartsWith(from, "521") ==> r == from
  {
    if StartsWith(from, "521") then
      ReplaceFirstAtStart(from, "521", "52");
      ReplaceFirst(from, "521", "52")
    else from
  }

  /** `https://graph.facebook.com/${API_VERSION}/${BUSINESS_PHONE}/messages` */
  function MessagesUrl(apiVersion: string, businessPhone: string): (r: string)
    ensures StartsWith(r, "https://graph.facebook.com/")
    ensures r[|r| - 9..] == "/messages"
  {
    "https://graph.facebook.com/" + apiVersion + "/" + businessPhone + "/messages"
  }

  /** The two headers every call sends; the token is interpolated, so an unset one reads "undefined". */
  function Headers(graphApiToken: Option<string>): seq<(string, string)>
  {
    [("Content-Type", "application/json"), ("Authorization", "Bearer " + Interpolate(graphApiToken))]
  }

  /** The value of a `message_id` member: absent when the id is undefined. */
  function MessageIdValue(messageId: Option<string>): Option<Json>
  {
    if messageId.Some? then Some(JString(messageId.value)) else None
  }

  /** The JSON record of an action; its members are listed by ReplyPayloadShape and ReceiptPayloadShape. */
  function Payload(a: Action): (j: Json)
    ensures j.JObject? && |j.members| > 0 && j.members[0] == ("messaging_product", JString("whatsapp"))
  {
    match a
    case SendText(to, body, replyTo) =>
      JObject([("messaging_product", JString("whatsapp")),
               ("to", JString(to)),
               ("text", JObject([("body", JString(body))])),
               ("context", JObject(OptionalMember("message_id", replyTo)))])
    case MarkRead(id) =>
      JObject([("messaging_product", JString("whatsapp")),
               ("status", JString("read"))]
              + OptionalMember("message_id", id))
  }

  /** The reply record has exactly the members messaging_product, to, text and context, and no status. */
  lemma ReplyPayloadShape(to: string, body: string, replyTo: Option<string>)
    ensures var j := Payload(SendText(to, body, replyTo));
            && Keys(j) == ["messaging_product", "to", "text", "context"]
            && Field(j, "messaging_product") == Some(JString("whatsapp"))
            && Field(j, "to") == Some(JString(to))
            && Field(j, "text") == Some(JObject([("body", JString(body))]))
            && Field(j, "context") == Some(JObject(OptionalMember("message_id", replyTo)))
            && Field(j, "status") == None
  {
    ReplyMembers(to, body, replyTo);
    ReplyLookups(to, body, replyTo);
  }

  /** The reply record's members, as a list of one-member tails. */
  lemma ReplyMembers(to: string, body: string, replyTo: Option<string>)
    ensures var ms := Payload(SendText(to, body, replyTo)).members;
            && |ms| == 4
            && ms[1..][1..][1..] == [("context", JObject(OptionalMember("message_id", replyTo)))]
            && Names(ms) == ["messaging_product", "to", "text", "context"]
  {
    var ms := Payload(SendText(to, body, replyTo)).members;
    assert ms[1..][1..][1..][1..] == [];
    assert Names(ms[1..][1..][1..]) == ["context"];
    assert Names(ms[1..][1..]) == ["text", "context"];
    assert Names(ms[1..]) == ["to", "text", "context"];
  }

  lemma ReplyLookups(to: string, body: string, replyTo: Option<string>)
    ensures var ms := Payload(SendText(to, body, replyTo)).members;
            && Lookup(ms, "messaging_product") == Some(JString("whatsapp"))
            && Lookup(ms, "to") == Some(JString(to))
            && Lookup(ms, "text") == Some(JObject([("body", JString(body))]))
            && Lookup(ms, "context") == Some(JObject(OptionalMember("message_id", replyTo)))
            && Lookup(ms, "status") == None
  {
    var ms := Payload(SendText(to, body, replyTo)).members;
    var tail0 := ms[1..];
    var tail1 := tail0[1..];
    var tail2 := tail1[1..];
    assert tail2 == [ms[3]] && tail2[1..] == [];
    LookupPast(tail1, "context");
    LookupPast(tail1, "status");
    LookupPast(tail0, "text");
    LookupPast(tail0, "context");
    LookupPast(tail0, "status");
    LookupPast(ms, "to");
    LookupPast(ms, "text");
    LookupPast(ms, "context");
    LookupPast(ms, "status");
  }

  /** The read receipt has exactly messaging_product, status "read" and, when the id is known, message_id. */
  lemma ReceiptPayloadShape(messageId: Option<string>)
    ensures var j := Payload(MarkRead(messageId));
            && Keys(j) == ["messaging_product", "status"] + (if messageId.Some? then ["message_id"] else [])
            && Field(j, "messaging_product") == Some(JString("whatsapp"))
            && Field(j, "status") == Some(JString("read"))
            && Field(j, "message_id") == MessageIdValue(messageId)
  {
    var ms := Payload(MarkRead(messageId)).members;
    assert ms[1..][0] == ms[1] && ms[1..][1..] == OptionalMember("message_id", messageId);
    LookupPast(ms, "status");
    LookupPast(ms, "message_id");
    LookupPast(ms[1..], "message_id");
    assert Names(ms[1..][1..]) == (if messageId.Some? then ["message_id"] else []);
  }

  /** The fetch call that performs `a`. */
  function CallFor(url: string, graphApiToken: Option<string>, a: Action): Call
  {
    Call(url, Headers(graphApiToken), Payload(a))
  }

  /** The read receipt a call carries, if it is one. */
  predicate IsReadReceipt(c: Call)
  {
    Field(c.payload, "status") == Some(JString("read"))
  }

  /** Receipts and replies are told apart by their records. */
  lemma ReceiptIsNotReply(url: string, token: Option<string>, a: Action)
    ensures IsReadReceipt(CallFor(url, token, a)) <==> a.MarkRead?
  {
    match a
    case SendText(to, body, replyTo) => ReplyPayloadShape(to, body, replyTo);
    case MarkRead(id) => ReceiptPayloadShape(id);
  }

  /** A number that starts with the country code "52" still does after the rewrite. */
  lemma NormalizeKeepsCountryCode(from: string)
    requires StartsWith(from, "52")
    ensures StartsWith(Normalize(from), "52")
  {
    if StartsWith(from, "521") {
      assert Normalize(from)[..2] == "52";
    }
  }

  /** The rewrite is idempotent on a number exactly when it does not start with "5211":
      "5211..." loses a "1" a second time. */
  lemma NormalizeIdempotentIff(from: string)
    ensures Normalize(Normalize(from)) == Normalize(from) <==> !StartsWith(from, "5211")
  {
    var once := Normalize(from);
    if StartsWith(from, "5211") {
      assert StartsWith(from, "521");
      assert once[..3] == "521";
      assert |Normalize(once)| == |once| - 1;
    } else if StartsWith(from, "521") {
      assert once == "52" + from[3..];
      assert !StartsWith(once, "521") by {
        if |from| > 3 {
          assert once[2] == from[3];
          assert from[..4] != "5211";
          assert from[3] != '1';
        }
      }
    }
  }

  /** A concrete number the rewrite changes twice. */
  lemma NormalizeNotIdempotent()
    ensures Normalize("5211234567890") == "521234567890"
    ensures Normalize(Normalize("5211234567890")) == "52234567890"
  {
    assert StartsWith("5211234567890", "521");
    assert StartsWith("521234567890", "521");
    assert "52" + "5211234567890"[3..] == "521234567890";
    assert "52" + "521234567890"[3..] == "52234567890";
  }
}
