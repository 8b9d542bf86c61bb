/**
 * The helpers that talk to the nova API: translating a nova fault into a
 * webob exception, building the backend requests (tenant-scoped paths, the
 * action bodies, the create-server body), and checking the status of each
 * backend answer.
 */
module Helpers {
  import opened Wrappers
  import opened JsonValues
  import opened Errors
  import opened Py
  import opened Wsgi

  // ---------------------------------------------------------------------
  // Faults
  // ---------------------------------------------------------------------

  /** The nova status codes that have a webob exception of their own. */
  const Exceptions: map<int, HttpKind> := map[
    400 := BadRequest,
    401 := Unauthorized,
    403 := Forbidden,
    404 := NotFound,
    405 := MethodNotAllowed,
    406 := NotAcceptable,
    409 := Conflict,
    413 := RequestEntityTooLarge,
    415 := UnsupportedMediaType,
    429 := TooManyRequests,
    501 := NotImplemented,
    503 := ServiceUnavailable]

  /** The status code of each webob exception class (its `code`). */
  function StatusOf(k: HttpKind): int {
    match k
    case BadRequest => 400
    case Unauthorized => 401
    case Forbidden => 403
    case NotFound => 404
    case MethodNotAllowed => 405
    case NotAcceptable => 406
    case Conflict => 409
    case RequestEntityTooLarge => 413
    case UnsupportedMediaType => 415
    case TooManyRequests => 429
    case NotImplemented => 501
    case ServiceUnavailable => 503
    case InternalServerError => 500
  }

  /**
   * `exceptions.get(code, HTTPInternalServerError)`: total; a mapped code gets
   * the exception whose own code it is, every other code internal-server-error.
   */
  function ExceptionKind(code: int): (k: HttpKind)
    ensures k == InternalServerError <==> code !in Exceptions
    ensures k != InternalServerError ==> StatusOf(k) == code
  {
    if code in Exceptions then Exceptions[code] else InternalServerError
  }

  /** Every exception other than internal-server-error is reached from exactly its own status code. */
  lemma ExceptionKindOnto(k: HttpKind)
    requires k != InternalServerError
    ensures StatusOf(k) in Exceptions && ExceptionKind(StatusOf(k)) == k
  {
  }

  /**
   * `response.json_body.popitem()[1].get("message")`: the `message` of the
   * last top-level entry of the fault body (JNull when it has none), or None
   * when any step raises: the body is not JSON, not a dict, an empty dict, or
   * its last entry is not a dict.
   */
  function FaultMessage(body: Option<Json>): (r: Option<Json>)
    ensures r.Some? <==> body.Some? && body.value.JObj? && body.value.entries != [] &&
                         body.value.entries[|body.value.entries| - 1].1.JObj?
    ensures r.Some? ==> var last := body.value.entries[|body.value.entries| - 1].1;
      (r.value == JNull || ("message", r.value) in last.entries) &&
      (forall m :: Get(last.entries, "message") == Some(m) ==> r.value == m)
  {
    match body
    case Some(JObj(es)) =>
      if es != [] && es[|es| - 1].1.JObj? then Some(Get(es[|es| - 1].1.entries, "message").GetOr(JNull))
      else None
    case _ => None
  }

  /** `exception_from_response`: the webob exception raised for a failed backend answer. */
  function ExceptionFromResponse(resp: Response): (e: Error)
    ensures e.Http?
    ensures resp.status !in Exceptions ==> e.kind == InternalServerError
    ensures e.kind != InternalServerError ==> StatusOf(e.kind) == resp.status
    ensures FaultMessage(resp.body).None? ==> e == Http(InternalServerError, JNull)
    ensures FaultMessage(resp.body).Some? ==> e.explanation == FaultMessage(resp.body).value
    ensures FaultMessage(resp.body).Some? ==> e.kind == ExceptionKind(resp.status)
  {
    match FaultMessage(resp.body)
    case None => Http(InternalServerError, JNull)
    case Some(message) => Http(ExceptionKind(resp.status), message)
  }

  /**
   * A nova fault `{<name>: {"message": m, ...}}` with a mapped status is
   * raised as the webob exception of that status, explained by `m`.
   */
  lemma FaultCarriesMessage(status: int, name: string, fault: seq<(string, Json)>, m: Json)
    requires status in Exceptions
    requires Get(fault, "message") == Some(m)
    ensures var e := ExceptionFromResponse(Response(status, Some(JObj([(name, JObj(fault))]))));
            e.kind != InternalServerError && StatusOf(e.kind) == status && e.explanation == m
  {
  }

  /** A fault body that cannot be read gives internal-server-error, whatever the status. */
  lemma UnreadableFaultIsInternal(status: int, body: Option<Json>)
    requires body.None? || !body.value.JObj? || body.value.entries == [] ||
             !body.value.entries[|body.value.entries| - 1].1.JObj?
    ensures ExceptionFromResponse(Response(status, body)) == Http(InternalServerError, JNull)
  {
  }

  /** The statuses `get_from_response` accepts. */
  const OkStatuses: set<int> := {200, 201, 202}

  /**
   * `get_from_response`: `json_body.get(element, default)` on an accepted
   * status, the mapped exception otherwise.
   */
  function GetFromResponse(resp: Response, element: string, default: Json): (r: Result<Json>)
    ensures r.Ok? ==> resp.status in OkStatuses
    ensures resp.status !in OkStatuses ==> r == Err(ExceptionFromResponse(resp))
    ensures resp.status in OkStatuses && resp.body.Some? && resp.body.value.JObj? ==>
              r.Ok? && (Get(resp.body.value.entries, element).Some? ==> Some(r.value) == Get(resp.body.value.entries, element)) &&
              (Get(resp.body.value.entries, element).None? ==> r.value == default)
    ensures resp.status in OkStatuses && resp.body.None? ==> r == Err(Python(ValueError))
    ensures resp.status in OkStatuses && resp.body.Some? && !resp.body.value.JObj? ==> r == Err(Python(AttributeError))
  {
    if resp.status in OkStatuses then
      match resp.body
      case None => Err(Python(ValueError))
      case Some(doc) => DictGet(doc, element, default)
    else
      Err(ExceptionFromResponse(resp))
  }

  // ---------------------------------------------------------------------
  // Backend requests
  // ---------------------------------------------------------------------

  const JsonType := "application/json"

  function ServersPath(tenant: string): string { "/" + tenant + "/servers" }
  function ServerPath(tenant: string, id: string): string { "/" + tenant + "/servers/" + id }
  function ServerActionPath(tenant: string, id: string): string { "/" + tenant + "/servers/" + id + "/action" }
  function FlavorPath(tenant: string, id: string): string { "/" + tenant + "/flavors/" + id }
  function ImagePath(tenant: string, id: string): string { "/" + tenant + "/images/" + id }
  function VolumeAttachmentsPath(tenant: string, id: string): string {
    "/" + tenant + "/servers/" + id + "/os-volume_attachments"
  }
  function FloatingIpsPath(tenant: string): string { "/" + tenant + "/os-floating-ips" }

  /**
   * Reads a path back: the id between `/<tenant>/<section>/` and `tail`, if
   * the path has that shape.
   */
  function ScopedId(tenant: string, section: string, tail: string, path: string): Option<string> {
    var head := "/" + tenant + "/" + section + "/";
    if |head| + |tail| <= |path| && path[..|head|] == head && path[|path| - |tail|..] == tail
    then Some(path[|head|..|path| - |tail|])
    else None
  }

  /** Every backend path lies under `/<tenant>/`. */
  lemma PathsTenantScoped(tenant: string, id: string)
    ensures var scope := "/" + tenant + "/";
      ServersPath(tenant)[..|scope|] == scope &&
      ServerPath(tenant, id)[..|scope|] == scope &&
      ServerActionPath(tenant, id)[..|scope|] == scope &&
      FlavorPath(tenant, id)[..|scope|] == scope &&
      ImagePath(tenant, id)[..|scope|] == scope &&
      VolumeAttachmentsPath(tenant, id)[..|scope|] == scope &&
      FloatingIpsPath(tenant)[..|scope|] == scope
  {
    var scope := "/" + tenant + "/";
    assert ServersPath(tenant) == scope + "servers";
    assert ServerPath(tenant, id) == scope + ("servers/" + id);
    assert ServerActionPath(tenant, id) == scope + ("servers/" + id + "/action");
    assert FlavorPath(tenant, id) == scope + ("flavors/" + id);
    assert ImagePath(tenant, id) == scope + ("images/" + id);
    assert VolumeAttachmentsPath(tenant, id) == scope + ("servers/" + id + "/os-volume_attachments");
    assert FloatingIpsPath(tenant) == scope + "os-floating-ips";
  }

  /** The id a per-object path is built from can be read back from it, so distinct ids give distinct paths. */
  lemma PathIdsRecoverable(tenant: string, id: string)
    ensures ScopedId(tenant, "servers", "", ServerPath(tenant, id)) == Some(id)
    ensures ScopedId(tenant, "servers", "/action", ServerActionPath(tenant, id)) == Some(id)
    ensures ScopedId(tenant, "servers", "/os-volume_attachments", VolumeAttachmentsPath(tenant, id)) == Some(id)
    ensures ScopedId(tenant, "flavors", "", FlavorPath(tenant, id)) == Some(id)
    ensures ScopedId(tenant, "images", "", ImagePath(tenant, id)) == Some(id)
  {
    ScopedRoundTrip(tenant, "servers", id, "", ServerPath(tenant, id));
    ScopedRoundTrip(tenant, "servers", id, "/action", ServerActionPath(tenant, id));
    ScopedRoundTrip(tenant, "servers", id, "/os-volume_attachments", VolumeAttachmentsPath(tenant, id));
    ScopedRoundTrip(tenant, "flavors", id, "", FlavorPath(tenant, id));
    ScopedRoundTrip(tenant, "images", id, "", ImagePath(tenant, id));
  }

  lemma ScopedRoundTrip(tenant: string, section: string, id: string, tail: string, path: string)
    requires path == ("/" + tenant + "/" + section + "/") + id + tail
    ensures ScopedId(tenant, section, tail, path) == Some(id)
  {
    var head := "/" + tenant + "/" + section + "/";
    assert path[..|head|] == head;
    assert path[|path| - |tail|..] == tail;
    assert path[|head|..|path| - |tail|] == id;
  }

  /**
   * The request `_get_req` derives from `req`: script name, query and method
   * always set; path, content type and body replaced only when given.
   */
  function Derived(req: Request, version: string, verb: string, path: Option<string>,
                   contentType: Option<string>, body: Option<Payload>,
                   query: seq<(string, string)>): Request
  {
    req.(scriptName := version, query := query, verb := verb,
         pathInfo := path.GetOr(req.pathInfo),
         contentType := contentType.GetOr(req.contentType),
         body := body.GetOr(req.body))
  }

  /** `actions_map`: the nova action body for each compute action. */
  const ActionsMap: map<string, Json> := map[
    "stop" := JObj([("os-stop", JNull)]),
    "start" := JObj([("os-start", JNull)]),
    "restart" := JObj([("reboot", JObj([("type", JStr("SOFT"))]))])]

  /** Which compute action a nova action body asks for. */
  function ActionOfBody(body: Json): Option<string> {
    match body
    case JObj(es) =>
      if |es| != 1 then None
      else if es[0] == ("os-stop", JNull) then Some("stop")
      else if es[0] == ("os-start", JNull) then Some("start")
      else if es[0] == ("reboot", JObj([("type", JStr("SOFT"))])) then Some("restart")
      else None
    case _ => None
  }

  /**
   * `actions_map[action]`: a body for stop, start and restart, and a
   * KeyError for any other name; the body says which action it is.
   */
  function ActionBody(action: string): (r: Result<Json>)
    ensures r.Ok? <==> action in {"stop", "start", "restart"}
    ensures r.Err? ==> r.error == Python(KeyError)
    ensures r.Ok? ==> ActionOfBody(r.value) == Some(action)
  {
    if action in ActionsMap then Ok(ActionsMap[action]) else Err(Python(KeyError))
  }

  /** The create-server body: name, image and flavor, plus `user_data` when given. */
  function ServerBody(name: string, image: string, flavor: string, userData: Option<string>): Json {
    var fields := [("name", JStr(name)), ("imageRef", JStr(image)), ("flavorRef", JStr(flavor))];
    JObj([("server", JObj(if userData.Some? then fields + [("user_data", JStr(userData.value))] else fields))])
  }

  /**
   * The server entry of a create-server body carries the requested name,
   * image and flavor, and a `user_data` key exactly when user data is given.
   */
  lemma ServerBodyFields(name: string, image: string, flavor: string, userData: Option<string>)
    ensures var body := ServerBody(name, image, flavor, userData);
      body.JObj? && Keys(body.entries) == ["server"] && body.entries[0].1.JObj? &&
      var server := body.entries[0].1.entries;
      Get(server, "name") == Some(JStr(name)) &&
      Get(server, "imageRef") == Some(JStr(image)) &&
      Get(server, "flavorRef") == Some(JStr(flavor)) &&
      Get(server, "user_data") == (if userData.Some? then Some(JStr(userData.value)) else None)
  {
    var fields := [("name", JStr(name)), ("imageRef", JStr(image)), ("flavorRef", JStr(flavor))];
    assert fields[1..][1..] == [("flavorRef", JStr(flavor))];
    assert Get(fields[1..][1..], "flavorRef") == Some(JStr(flavor));
    assert Get(fields[1..], "flavorRef") == Some(JStr(flavor));
    assert Get(fields[1..][1..], "user_data") == None;
    assert Get(fields[1..], "user_data") == None;
    if userData.Some? {
      GetAppend(fields, "user_data", JStr(userData.value), "name");
      GetAppend(fields, "user_data", JStr(userData.value), "imageRef");
      GetAppend(fields, "user_data", JStr(userData.value), "flavorRef");
      GetAppend(fields, "user_data", JStr(userData.value), "user_data");
    }
  }

  /** `_get_create_server_req`'s body: built, then `user_data` added in place when given. */
  method CreateServerBody(name: string, image: string, flavor: string, userData: Option<string>)
    returns (body: Json)
    ensures body == ServerBody(name, image, flavor, userData)
  {
    body := JObj([("server", JObj([("name", JStr(name)), ("imageRef", JStr(image)), ("flavorRef", JStr(flavor))]))]);
    if userData.Some? {
      var server := body.entries[0].1;
      assert server.entries[1..][1..] == [("flavorRef", JStr(flavor))];
      SetAbsent(server.entries, "user_data", JStr(userData.value));
      server := JObj(Set(server.entries, "user_data", JStr(userData.value)));
      body := JObj(Set(body.entries, "server", server));
    }
  }

  // ---------------------------------------------------------------------
  // The helper object
  // ---------------------------------------------------------------------

  /** `OpenStackHelper`: the wrapped nova application and the API version prefix. */
  class OpenStackHelper {
    const app: App
    const version: string

    constructor (app: App, version: string)
      ensures this.app == app && this.version == version
    {
      this.app := app;
      this.version := version;
    }

    /** `_get_req`: a copy of the incoming request prepared for the nova API. */
    method GetReq(req: Request, verb: string, path: Option<string>, contentType: Option<string>,
                  body: Option<Payload>, query: seq<(string, string)>)
      returns (r: Request)
      ensures r == Derived(req, version, verb, path, contentType, body, query)
      ensures r.tenant == req.tenant && r.scriptName == version && r.query == query && r.verb == verb
      ensures path.Some? ==> r.pathInfo == path.value
      ensures path.None? ==> r.pathInfo == req.pathInfo
      ensures contentType.Some? ==> r.contentType == contentType.value
      ensures contentType.None? ==> r.contentType == req.contentType
      ensures body.Some? ==> r.body == body.value
      ensures body.None? ==> r.body == req.body
    {
      r := req;
      r := r.(scriptName := version);
      r := r.(query := query);
      r := r.(verb := verb);
      if path.Some? {
        r := r.(pathInfo := path.value);
      }
      if contentType.Some? {
        r := r.(contentType := contentType.value);
      }
      if body.Some? {
        r := r.(body := body.value);
      }
    }

    /** A GET with the default content type and no query, on `path`. */
    function GetAt(req: Request, path: string): Request {
      Derived(req, version, "GET", Some(path), Some(JsonType), None, [])
    }

    function IndexReq(req: Request): Request { GetAt(req, ServersPath(req.tenant)) }
    function ServerReq(req: Request, id: string): Request { GetAt(req, ServerPath(req.tenant, id)) }
    function FlavorReq(req: Request, id: string): Request { GetAt(req, FlavorPath(req.tenant, id)) }
    function ImageReq(req: Request, id: string): Request { GetAt(req, ImagePath(req.tenant, id)) }
    function VolumesReq(req: Request, id: string): Request { GetAt(req, VolumeAttachmentsPath(req.tenant, id)) }
    function FloatingIpsReq(req: Request): Request { GetAt(req, FloatingIpsPath(req.tenant)) }

    function DeleteReq(req: Request, id: string): Request {
      Derived(req, version, "DELETE", Some(ServerPath(req.tenant, id)), Some(JsonType), None, [])
    }

    /** `_get_run_action_req`: a POST of the action's body; a KeyError for an unknown action. */
    function RunActionReq(req: Request, action: string, id: string): (r: Result<Request>)
      ensures r.Ok? <==> action in {"stop", "start", "restart"}
      ensures r.Ok? ==> r.value.verb == "POST" && r.value.pathInfo == ServerActionPath(req.tenant, id) &&
                        r.value.body.Dumped? && ActionOfBody(r.value.body.doc) == Some(action)
    ensures r.Ok? ==> r.value == req.(scriptName := version, query := [], verb := "POST",
                                      pathInfo := ServerActionPath(req.tenant, id), contentType := JsonType,
                                      body := r.value.body)
    {
      var body :- ActionBody(action);
      Ok(Derived(req, version, "POST", Some(ServerActionPath(req.tenant, id)), Some(JsonType), Some(Dumped(body)), []))
    }

    function CreateServerReq(req: Request, name: string, image: string, flavor: string,
                             userData: Option<string>): Request
    {
      Derived(req, version, "POST", Some(ServersPath(req.tenant)), Some(JsonType),
              Some(Dumped(ServerBody(name, image, flavor, userData))), [])
    }

    /** `_get_create_server_req`. */
    method GetCreateServerReq(req: Request, name: string, image: string, flavor: string,
                              userData: Option<string>)
      returns (r: Request)
      ensures r == CreateServerReq(req, name, image, flavor, userData)
    {
      var body := CreateServerBody(name, image, flavor, userData);
      r := GetReq(req, "POST", Some(ServersPath(req.tenant)), Some(JsonType), Some(Dumped(body)), []);
    }

    /** `index`: the tenant's server list (`[]` when the answer has none). */
    method Index(req: Request) returns (r: Result<Json>)
      modifies app
      ensures app.sent == old(app.sent) + [IndexReq(req)]
      ensures r == GetFromResponse(app.reply(old(app.sent), IndexReq(req)), "servers", JList([]))
    {
      var resp := app.GetResponse(IndexReq(req));
      r := GetFromResponse(resp, "servers", JList([]));
    }

    /** `delete`: only a 204 answer is a success. */
    method Delete(req: Request, id: string) returns (r: Result<()>)
      modifies app
      ensures app.sent == old(app.sent) + [DeleteReq(req, id)]
      ensures var resp := app.reply(old(app.sent), DeleteReq(req, id));
              r == if resp.status == 204 then Ok(()) else Err(ExceptionFromResponse(resp))
    {
      var resp := app.GetResponse(DeleteReq(req, id));
      if resp.status != 204 {
        return Err(ExceptionFromResponse(resp));
      }
      r := Ok(());
    }

    /** `run_action`: only a 202 answer is a success; an unknown action sends nothing. */
    method RunAction(req: Request, action: string, id: string) returns (r: Result<()>)
      modifies app
      ensures RunActionReq(req, action, id).Err? ==>
                app.sent == old(app.sent) && r == Err(Python(KeyError))
      ensures RunActionReq(req, action, id).Ok? ==>
                var sent := RunActionReq(req, action, id).value;
                var resp := app.reply(old(app.sent), sent);
                app.sent == old(app.sent) + [sent] &&
                r == if resp.status == 202 then Ok(()) else Err(ExceptionFromResponse(resp))
    {
      var osReq := RunActionReq(req, action, id);
      if osReq.Err? {
        return Err(osReq.error);
      }
      var resp := app.GetResponse(osReq.value);
      if resp.status != 202 {
        return Err(ExceptionFromResponse(resp));
      }
      r := Ok(());
    }

    /** `get_server`. */
    method GetServer(req: Request, id: string) returns (r: Result<Json>)
      modifies app
      ensures app.sent == old(app.sent) + [ServerReq(req, id)]
      ensures r == GetFromResponse(app.reply(old(app.sent), ServerReq(req, id)), "server", JObj([]))
    {
      var resp := app.GetResponse(ServerReq(req, id));
      r := GetFromResponse(resp, "server", JObj([]));
    }

    /**
     * `create_server`: the request is built with `user_data=None`, so the
     * user data argument never reaches the backend.
     */
    method CreateServer(req: Request, name: string, image: string, flavor: string,
                        userData: Option<string>)
      returns (r: Result<Json>)
      modifies app
      ensures app.sent == old(app.sent) + [CreateServerReq(req, name, image, flavor, None)]
      ensures r == GetFromResponse(app.reply(old(app.sent), CreateServerReq(req, name, image, flavor, None)),
                                   "server", JObj([]))
    {
      var osReq := GetCreateServerReq(req, name, image, flavor, None);
      var resp := app.GetResponse(osReq);
      r := GetFromResponse(resp, "server", JObj([]));
    }

    /** `get_flavor`. */
    method GetFlavor(req: Request, id: string) returns (r: Result<Json>)
      modifies app
      ensures app.sent == old(app.sent) + [FlavorReq(req, id)]
      ensures r == GetFromResponse(app.reply(old(app.sent), FlavorReq(req, id)), "flavor", JObj([]))
    {
      var resp := app.GetResponse(FlavorReq(req, id));
      r := GetFromResponse(resp, "flavor", JObj([]));
    }

    /** `get_image`. */
    method GetImage(req: Request, id: string) returns (r: Result<Json>)
      modifies app
      ensures app.sent == old(app.sent) + [ImageReq(req, id)]
      ensures r == GetFromResponse(app.reply(old(app.sent), ImageReq(req, id)), "image", JObj([]))
    {
      var resp := app.GetResponse(ImageReq(req, id));
      r := GetFromResponse(resp, "image", JObj([]));
    }

    /** `get_volumes`. */
    method GetVolumes(req: Request, id: string) returns (r: Result<Json>)
      modifies app
      ensures app.sent == old(app.sent) + [VolumesReq(req, id)]
      ensures r == GetFromResponse(app.reply(old(app.sent), VolumesReq(req, id)), "volumeAttachments", JList([]))
    {
      var resp := app.GetResponse(VolumesReq(req, id));
      r := GetFromResponse(resp, "volumeAttachments", JList([]));
    }

    /** `get_floating_ips`. */
    method GetFloatingIps(req: Request) returns (r: Result<Json>)
      modifies app
      ensures app.sent == old(app.sent) + [FloatingIpsReq(req)]
      ensures r == GetFromResponse(app.reply(old(app.sent), FloatingIpsReq(req)), "floating_ips", JList([]))
    {
      var resp := app.GetResponse(FloatingIpsReq(req));
      r := GetFromResponse(resp, "floating_ips", JList([]));
    }
  }

  /**
   * The request builders of the helper (`_get_index_req` to
   * `_get_floating_ips`): each request goes to the nova API version with the
   * JSON content type, an empty query, the builder's verb and the tenant's
   * path; everything else, the body included, is the incoming request's.
   */
  lemma BuilderRequests(h: OpenStackHelper, req: Request, id: string)
    ensures var rs := [h.IndexReq(req), h.ServerReq(req, id), h.FlavorReq(req, id), h.ImageReq(req, id),
                       h.VolumesReq(req, id), h.FloatingIpsReq(req), h.DeleteReq(req, id)];
      forall i :: 0 <= i < |rs| ==>
        rs[i] == req.(scriptName := h.version, query := [], verb := rs[i].verb, pathInfo := rs[i].pathInfo,
                      contentType := JsonType)
    ensures h.IndexReq(req).verb == "GET" && h.IndexReq(req).pathInfo == "/" + req.tenant + "/servers"
    ensures h.ServerReq(req, id).verb == "GET" && h.ServerReq(req, id).pathInfo == "/" + req.tenant + "/servers/" + id
    ensures h.FlavorReq(req, id).verb == "GET" && h.FlavorReq(req, id).pathInfo == "/" + req.tenant + "/flavors/" + id
    ensures h.ImageReq(req, id).verb == "GET" && h.ImageReq(req, id).pathInfo == "/" + req.tenant + "/images/" + id
    ensures h.VolumesReq(req, id).verb == "GET" &&
            h.VolumesReq(req, id).pathInfo == "/" + req.tenant + "/servers/" + id + "/os-volume_attachments"
    ensures h.FloatingIpsReq(req).verb == "GET" && h.FloatingIpsReq(req).pathInfo == "/" + req.tenant + "/os-floating-ips"
    ensures h.DeleteReq(req, id).verb == "DELETE" && h.DeleteReq(req, id).pathInfo == "/" + req.tenant + "/servers/" + id
    ensures forall name, image, flavor, userData :: (h.CreateServerReq(req, name, image, flavor, userData) ==
      req.(scriptName := h.version, query := [], verb := "POST", pathInfo := "/" + req.tenant + "/servers",
           contentType := JsonType, body := Dumped(ServerBody(name, image, flavor, userData))))
  {
  }

  /** Whatever user data `create_server` is given, the body it sends has no `user_data` key. */
  lemma CreateServerDropsUserData(h: OpenStackHelper, req: Request, name: string, image: string,
                                  flavor: string, userData: Option<string>)
    ensures var sent := h.CreateServerReq(req, name, image, flavor, None);
      sent.body.Dumped? && sent.body.doc.JObj? && sent.body.doc.entries[0].1.JObj? &&
      Get(sent.body.doc.entries[0].1.entries, "user_data").None?
  {
    ServerBodyFields(name, image, flavor, None);
  }
}
