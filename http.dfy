/** Already-parsed HTTP requests and the responses and outcomes of the request handlers. */
module Http {
  import opened Wrappers
  import JsText
  import Inbound
  import Outbound

  /** A request as the handlers see it: `url.pathname`, `req.method` (as `verb`), the decoded query pairs in order,
      and what `req.json()` would produce. */
  datatype Request = Request(path: string, verb: string, query: seq<(string, string)>, body: Inbound.Body)

  /** A response: status, body (`None` is a null body) and the headers set explicitly by the handler. */
  datatype Response = Response(status: int, body: Option<string>, headers: seq<(string, string)>)

  /** What a handler does: it returns a response, or its promise rejects with an exception.
      Either way `sent` lists the outbound requests issued before that, in order. */
  datatype Outcome =
    | Returned(response: Response, sent: seq<Outbound.Call>)
    | Threw(error: JsText.JsError, sent: seq<Outbound.Call>)

  const HomePage: string := "<pre>Nothing to see here. Checkout README.md to start.</pre>"

  /** GET / */
  const Home: Response := Response(200, Some(HomePage), [("Content-Type", "text/html")])

  /** Every unrouted request. */
  const NotFound: Response := Response(404, Some("Not Found"), [])
}
