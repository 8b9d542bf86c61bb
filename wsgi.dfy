/**
 * The WSGI side of the translation layer as plain records: a request keeps
 * the fields the helpers read or override (`verb` is the HTTP method), a response keeps its status and
 * its decoded JSON body. The wrapped nova application is an oracle that
 * answers each request, and may depend on every request it has seen before;
 * it records what it was sent, so the order of backend calls is observable.
 */
module Wsgi {
  import opened Wrappers
  import opened JsonValues

  /** A request body: text as received, or `json.dumps(doc)` of a document. */
  datatype Payload = Text(text: string) | Dumped(doc: Json)

  /**
   * The fields of a webob Request the layer uses. `tenant` is the project id
   * of the keystone token in the WSGI environment; `query` is the decoded
   * query string as key/value pairs in order.
   */
  datatype Request = Request(
    tenant: string,
    scriptName: string,
    verb: string,
    pathInfo: string,
    query: seq<(string, string)>,
    contentType: string,
    body: Payload)

  /** A webob Response: status code and JSON body (None when the body does not decode as JSON). */
  datatype Response = Response(status: int, body: Option<Json>)

  /** How the wrapped application answers a request, given every request it received before. */
  type Backend = (seq<Request>, Request) -> Response

  /** `req.GET.get(key)`: a webob MultiDict answers with the last value given for the key. */
  function QueryValue(query: seq<(string, string)>, key: string): (r: Option<string>)
    ensures r.Some? <==> exists i :: 0 <= i < |query| && query[i].0 == key
    ensures r.Some? ==> exists i :: 0 <= i < |query| && query[i] == (key, r.value) &&
                                   forall j :: i < j < |query| ==> query[j].0 != key
  {
    if query == [] then None
    else if query[|query| - 1].0 == key then Some(query[|query| - 1].1)
    else QueryValue(query[..|query| - 1], key)
  }

  /** The nova application behind `get_response(self.app)`. */
  class App {
    const reply: Backend
    var sent: seq<Request>

    constructor (reply: Backend)
      ensures this.reply == reply && sent == []
    {
      this.reply := reply;
      sent := [];
    }

    /** `req.get_response(app)`: the request is recorded and answered. */
    method GetResponse(req: Request) returns (resp: Response)
      modifies this
      ensures sent == old(sent) + [req]
      ensures resp == reply(old(sent), req)
    {
      resp := reply(sent, req);
      sent := sent + [req];
    }
  }
}
