/** The inbound webhook payload and the extraction of its first message,
    `body.entry?.[0]?.changes[0]?.value?.messages?.[0]` (index.ts:24, webhooksController.ts:10). */
module Inbound {
  import opened Wrappers
  import opened JsText

  /** `message.text`; `body` is `None` when the member is absent. */
  datatype TextPart = TextPart(body: Option<string>)

  /** One inbound message; every member may be absent from the JSON. */
  datatype Message = Message(kind: Option<string>, from: Option<string>, id: Option<string>, text: Option<TextPart>)

  datatype Value = Value(messages: Option<seq<Message>>)
  datatype Change = Change(value: Option<Value>)
  datatype Entry = Entry(changes: Option<seq<Change>>)
  datatype Payload = Payload(entry: Option<seq<Entry>>)

  /** What `await req.json()` yields: a parse failure, the JSON literal null, or a document. */
  datatype Body = Unparsable | NullJson | Doc(payload: Payload)

  /** Does the chain reach a first message of a first value of a first change of a first entry? */
  predicate HasFirstMessage(p: Payload)
  {
    && p.entry.Some? && |p.entry.value| > 0
    && p.entry.value[0].changes.Some? && |p.entry.value[0].changes.value| > 0
    && p.entry.value[0].changes.value[0].value.Some?
    && p.entry.value[0].changes.value[0].value.value.messages.Some?
    && |p.entry.value[0].changes.value[0].value.value.messages.value| > 0
  }

  /** Evaluate the chain. Every step is optional except `changes[0]`: an entry without `changes`
      makes the chain read index 0 of undefined, which throws. */
  function FirstMessage(p: Payload): (r: Result<Option<Message>, JsError>)
    ensures r.Err? <==> p.entry.Some? && |p.entry.value| > 0 && p.entry.value[0].changes.None?
    ensures r.Ok? && r.value.Some? <==> HasFirstMessage(p)
    ensures HasFirstMessage(p) ==>
              r.value.value == p.entry.value[0].changes.value[0].value.value.messages.value[0]
  {
    if p.entry.None? || |p.entry.value| == 0 then Ok(None)
    else
      var e := p.entry.value[0];
      if e.changes.None? then Err(TypeError)
      else if |e.changes.value| == 0 then Ok(None)
      else
        var c := e.changes.value[0];
        if c.value.None? then Ok(None)
        else
          var v := c.value.value;
          if v.messages.None? || |v.messages.value| == 0 then Ok(None)
          else Ok(Some(v.messages.value[0]))
  }

  /** `message?.type === "text"` */
  predicate IsText(m: Message)
  {
    m.kind == Some("text")
  }
}
