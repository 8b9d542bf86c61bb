# ooi compute translation layer in Dafny

ooi puts an OCCI interface in front of the OpenStack compute API (nova). This
project models the layer that turns OCCI compute operations into nova calls
and nova answers back into OCCI resources:

- `ooi/api/helpers.py`: translating a nova fault into a webob HTTP exception,
  accepting a nova answer only on its success statuses, deriving a nova
  request from the incoming one (`_get_req`), the tenant-scoped nova paths,
  the bodies of the stop/start/restart actions and of server creation, and
  the helper calls that send each request to the wrapped nova application.
- `ooi/api/compute.py`: the compute controller, meaning `index`,
  `run_action`, `create`, the link assembly of `show`, `delete` and
  `delete_all`, plus the choice of network in `_create_network_link`.

Files, one module each:

- `wrappers.dfy`: `Option`.
- `json_values.dfy`: decoded JSON. A dict is an association list in document order.
- `errors.dfy`: the webob, ooi and Python exceptions, and `Result`.
- `py.dfy`: the Python operations the code applies to JSON, each with the exception it raises on the wrong shape. `MapAll` is a `for` loop that builds one result per element.
- `wsgi.dfy`: requests and responses as records. The nova application is an oracle class `App` that records each request it receives.
- `helpers.dfy`: `helpers.py`.
- `compute.dfy`: `compute.py`.

How the source is modelled:

- Code that only computes becomes functions. Examples are the fault mapping, `get_from_response`, the paths and the actions map.
- Code that builds a result step by step becomes methods. Examples are `_get_req`, the create-server body, the loops of `_get_compute_resources`, `_create_network_link` and `show`, and the sequential deletes.
- Each such method is proved equal to a specification function. Lemmas then state the properties of that function.
- Backend calls are methods of the helper class. They modify `App.sent`, so their contracts say which requests were sent and in what order.

Notes on the code as written:

- `create_server` passes `user_data=None` to `_get_create_server_req` (helpers.py:232-233). The user data extracted by `create` therefore never reaches nova. The model keeps this, and `CreateServerDropsUserData` states it.
- A nova fault carries its status and message. When the fault body cannot be read, `exception_from_response` raises internal-server-error with no message, whatever the status (helpers.py:55-60).
- `show` calls `get_server_volumes_link` (compute.py:155), which `helpers.py` does not define. The volume list is therefore a parameter of `Compute.Controller.AssembleLinks`.

## Model

| member | source | states |
|---|---|---|
| `Helpers.ExceptionKind` | ooi/api/helpers.py:40-62 | the status map is total: a status gets internal-server-error exactly when it is not one of the twelve mapped codes, and any other kind is the exception whose own code is that status |
| `Helpers.ExceptionKindOnto` | ooi/api/helpers.py:40-53 | each specific webob exception is reached from its own status code |
| `Helpers.FaultMessage` | ooi/api/helpers.py:55-56 | the message is read exactly when the body is a non-empty dict whose last entry is a dict; it is that entry's `message`, or `JNull` (Python's None) when the entry has none |
| `Helpers.ExceptionFromResponse` | ooi/api/helpers.py:28-63 | always an HTTP exception; an unreadable fault body gives internal-server-error with no explanation whatever the status; otherwise the exception is the one mapped from the status, explained by the fault's message |
| `Helpers.FaultCarriesMessage` | ooi/api/helpers.py:55-63 | a fault `{name: {"message": m}}` with a mapped status raises that status's exception explained by `m` |
| `Helpers.UnreadableFaultIsInternal` | ooi/api/helpers.py:55-60 | a body that is not JSON, not a dict, empty, or whose last entry is not a dict gives internal-server-error |
| `Helpers.GetFromResponse` | ooi/api/helpers.py:106-121 | success only on 200/201/202 with a dict body, and then `body[element]`, or `default` when the key is absent; on those statuses a missing JSON body raises ValueError and a non-dict body AttributeError; any other status raises the mapped exception |
| `Helpers.OpenStackHelper.constructor` | ooi/api/helpers.py:68-70 | the helper keeps the application it wraps and the API version |
| `Helpers.BuilderRequests` | ooi/api/helpers.py:131-286 | each `_get_*_req` builder other than the action one (stated by `RunActionReq`) gives a request to the API version with the JSON content type, an empty query, its own verb (GET, DELETE or POST) and its tenant path; everything else, the body included, comes from the incoming request; the create request carries the server body |
| `Helpers.OpenStackHelper.GetReq` | ooi/api/helpers.py:72-104 | script name, query and method are always set; path, content type and body are replaced only when given, and everything else is kept from the incoming request |
| `Helpers.PathsTenantScoped` | ooi/api/helpers.py:131-286 | every nova path lies under `/<tenant>/` |
| `Helpers.PathIdsRecoverable` | ooi/api/helpers.py:145-271 | the server, action, volume-attachment, flavor and image paths give back the id they were built from, so distinct ids give distinct paths |
| `Helpers.ActionBody` | ooi/api/helpers.py:167-172 | stop, start and restart have a body, and any other name is a KeyError; each body decodes back to its own action, and the decoder accepts only the exact bodies `{"os-stop": null}`, `{"os-start": null}` and `{"reboot": {"type": "SOFT"}}` |
| `Helpers.OpenStackHelper.RunActionReq` | ooi/api/helpers.py:163-175 | a POST to `/<tenant>/servers/<id>/action` whose body is the action's own body, for the three known actions only; like every `_get_req` request it goes to the API version with an empty query and the JSON content type, and keeps the rest of the incoming request |
| `Helpers.ServerBodyFields` | ooi/api/helpers.py:210-216 | the server entry carries name, imageRef and flavorRef, and has a `user_data` key exactly when user data is given |
| `Helpers.CreateServerBody` | ooi/api/helpers.py:210-216 | the body built step by step, with `user_data` added in place, equals the specified body |
| `Helpers.OpenStackHelper.GetCreateServerReq` | ooi/api/helpers.py:204-221 | the create request posts that body to `/<tenant>/servers` |
| `Helpers.CreateServerDropsUserData` | ooi/api/helpers.py:223-236 | the request `create_server` sends never has a `user_data` key |
| `Helpers.OpenStackHelper.Index` | ooi/api/helpers.py:131-143 | sends one GET of `/<tenant>/servers` and returns its `servers`, default `[]` |
| `Helpers.OpenStackHelper.Delete` | ooi/api/helpers.py:145-161 | sends one DELETE; succeeds only on 204, else raises the mapped exception |
| `Helpers.OpenStackHelper.RunAction` | ooi/api/helpers.py:177-187 | an unknown action sends nothing; otherwise one POST is sent, and it succeeds only on 202 |
| `Helpers.OpenStackHelper.GetServer` | ooi/api/helpers.py:189-202 | one GET of the server; returns its `server`, default `{}` |
| `Helpers.OpenStackHelper.CreateServer` | ooi/api/helpers.py:223-236 | sends the create request built without user data; returns its `server`, default `{}` |
| `Helpers.OpenStackHelper.GetFlavor` | ooi/api/helpers.py:238-251 | one GET of the flavor; returns its `flavor` |
| `Helpers.OpenStackHelper.GetImage` | ooi/api/helpers.py:253-266 | one GET of the image; returns its `image` |
| `Helpers.OpenStackHelper.GetVolumes` | ooi/api/helpers.py:268-281 | one GET of the volume attachments; returns `volumeAttachments`, default `[]` |
| `Helpers.OpenStackHelper.GetFloatingIps` | ooi/api/helpers.py:283-295 | one GET of `/<tenant>/os-floating-ips`; returns `floating_ips`, default `[]` |
| `Wsgi.App.GetResponse` | ooi/api/helpers.py:141-142 | the wrapped application records the request and answers it given everything it received before |
| `Wsgi.QueryValue` | ooi/api/compute.py:72 | the query value of a key is the last value given for it, and is absent only when the key never occurs |
| `Compute.ComputeResourcesInOrder` | ooi/api/compute.py:56-63 | one resource per server in input order, titled by `name` and identified by `id`; None or `[]` give no resources |
| `Compute.ComputeResourcesFirstFailure` | ooi/api/compute.py:58-61 | the first server lacking `name` or `id` ends the loop, and its exception is the one raised |
| `Compute.GetComputeResources` | ooi/api/compute.py:56-63 | the appending loop computes exactly those resources, or the first server's failure |
| `Compute.FloatingScanLastMatch` | ooi/api/compute.py:34-39 | with well-formed floating IPs, the network is `<prefix>/<pool>` of the last IP equal to the address |
| `Compute.FloatingScanNoMatch` | ooi/api/compute.py:34-39 | when no floating IP matches, no network is bound |
| `Compute.ScanFloatingIps` | ooi/api/compute.py:35-39 | the scanning loop with last-match assignment computes that network |
| `Compute.NetworkLink` | ooi/api/compute.py:33-44 | a link made for an address is a network interface of the given resource |
| `Compute.FixedAddressLink` | ooi/api/compute.py:40-44 | an address that is not floating is linked to network `fixed` |
| `Compute.FloatingAddressLink` | ooi/api/compute.py:33-44 | a floating address is linked to the pool network of its last matching floating IP |
| `Compute.UnmatchedFloatingAddress` | ooi/api/compute.py:33-42 | a floating address that no IP matches fails, because `net` is unbound |
| `Compute.ResolveFloatingNetwork` | ooi/api/compute.py:34-39 | the floating branch gives the network of the last matching floating IP, or the unbound-`net` error when none matches |
| `Compute.ResolveNetwork` | ooi/api/compute.py:34-41 | an address is on `fixed` unless its type is `floating`; a missing type is a `KeyError` |
| `Compute.CreateNetworkLink` | ooi/api/compute.py:33-44 | the method computes exactly that link or error |
| `Compute.AddressLinksAreInterfaces` | ooi/api/compute.py:161-168 | every link made from the addresses is a network interface of the resource |
| `Compute.AddStorageLinks` | ooi/api/compute.py:156-159 | the storage loop gives one link per volume, in order, or the first volume's error |
| `Compute.StorageLinksInOrder` | ooi/api/compute.py:156-159 | each storage link is the one built from the volume at the same position |
| `Compute.AddressLinksFlat` | ooi/api/compute.py:165-168 | the nested loops give the links of the addresses of all sets, concatenated set after set, and links exist only when every set can be iterated |
| `Compute.NetworkLinksInOrder` | ooi/api/compute.py:165-168 | there is one network link per address, and the k-th link is the link of the k-th address |
| `Compute.ShowLinkOrder` | ooi/api/compute.py:154-168 | the resource's own links come first, then one storage link per volume in volume order; every link after those is a network interface of this resource, and without addresses there are none |
| `Compute.ShowAddressLinks` | ooi/api/compute.py:161-168 | with addresses, the floating IPs and every address set are readable, and the links after the storage links are exactly the network links of the addresses of all sets, set after set |
| `Compute.ShowAddressLinkAt` | ooi/api/compute.py:161-168 | with addresses, the link at position k after the storage links is the network link built from the k-th address |
| `Compute.AddressSetLinks` | ooi/api/compute.py:166-168 | the inner loop gives one link per address, in order |
| `Compute.AddNetworkLinks` | ooi/api/compute.py:165-168 | the nested loops give the links of every address set, set after set |
| `Compute.Controller.AssembleLinks` | ooi/api/compute.py:154-168 | the floating IPs are fetched exactly when the storage links succeed and there are addresses; the result is the specified link assembly |
| `Compute.ServerIds` | ooi/api/compute.py:181 | one id per listed server, in listing order, each the server's `id` as formatted into a path; a failed listing is raised as is |
| `Compute.DeletesSentPrefix` | ooi/api/compute.py:172-175 | what is sent is the earlier requests followed by a prefix of the deletes; all of them on success; on failure the error comes from the last answer |
| `Compute.DeletesInOrder` | ooi/api/compute.py:172-175 | the deletes sent are a prefix of the requested ones, in order; each but the last was answered 204; the last was answered 204 exactly when all were sent and the outcome is a success; a failure carries the mapped exception of the last answer |
| `Compute.Controller.DeleteReqs` | ooi/api/compute.py:172-174 | one DELETE of `/<tenant>/servers/<id>` per id, in order |
| `Compute.Controller.DeleteIds` | ooi/api/compute.py:172-175 | the loop sends exactly those deletes and returns `[]` or the first failure |
| `Compute.Controller.Delete` | ooi/api/compute.py:177-178 | deletes the single server |
| `Compute.Controller.DeleteAll` | ooi/api/compute.py:180-182 | lists the servers once, then deletes their ids in listing order; a listing failure deletes nothing |
| `Compute.Controller.CheckAction` | ooi/api/compute.py:71-76 | accepts the `action` query value exactly when it is present and a compute action term; otherwise InvalidAction carrying the value |
| `Compute.Controller.ActionScheme` | ooi/api/compute.py:81-88 | stop, start and restart are validated against their own action category alone; any other action is NotImplemented |
| `Compute.Controller.AdmitAction` | ooi/api/compute.py:71-91 | an action is admitted exactly when it passes the guard, the body parses, and it validates against that action's category; otherwise the first failure is raised as is: the guard's InvalidAction, the parser's error, NotImplemented, the validator's error |
| `Compute.Controller.RunAction` | ooi/api/compute.py:71-94 | nothing is sent unless the action is admitted; then exactly one action request is sent, and the result is `[]` on 202 |
| `Compute.Controller.FirstTerm` | ooi/api/compute.py:115-116 | the first term listed under a scheme; KeyError when the scheme is missing, IndexError when its list is empty |
| `Compute.Controller.ServerParamsOf` | ooi/api/compute.py:113-119 | the name is `occi.core.title`, default "OCCI VM"; image and flavor are the first OS and resource template terms; user data is taken only when the user data scheme is present |
| `Compute.Controller.AdmitCreate` | ooi/api/compute.py:96-119 | a request that parses and validates against the create scheme gives the parameters extracted from it; otherwise the parser's or the validator's error is raised as is |
| `Compute.Controller.NamedResource` | ooi/api/compute.py:123-125 | the created server becomes exactly one resource titled with the requested name and carrying the backend's id; it fails when the answer has no id |
| `Compute.Controller.Index` | ooi/api/compute.py:65-69 | one listing call; the collection holds the servers' resources |
| `Compute.Controller.Create` | ooi/api/compute.py:96-127 | nothing is sent unless the request is admitted; then one create call (without user data), and the collection of the one named resource |
| `Compute.Controller.constructor` | ooi/api/compute.py:48-54 | the controller owns a helper over the given application and version |

## Left out

- The webob `Request` and `Response` objects, `copy.copy(environ)` and `utils.utf8` are not modelled. A request is a record of the fields the layer reads or sets, and a response is a status with a decoded body.
- `get_response(self.app)` is not modelled as code. The wrapped nova application is an oracle (`Wsgi.App`).
- `json.dumps` is not modelled. A body that the code would serialise is kept as the document itself (`Payload.Dumped`).
- Decoding the query string into key/value pairs is left to webob. The request holds the decoded pairs.
- `tenant_from_req` is not modelled, so a missing keystone token and its KeyError are out of scope. The tenant is a field of the request.
- Logging of unreadable faults is not modelled.
- The OCCI parser and validator are not modelled. They are oracles given to the controller. Their own failures are errors the oracles return.
- The category objects (compute kind, actions, templates, contextualization mixins) and `FLOATING_PREFIX` come from modules that are not part of this model. They are a `Definitions` record.
- The constructors of `ComputeResource`, `NetworkResource`, `StorageResource`, `StorageLink` and `OSNetworkInterface` are not modelled. Resources and links are plain records of the values passed to them.
- Only the link assembly of `show` is modelled. The fetches of server, flavor and image are not modelled, and neither are the templates or the resource's cores, memory and state.
- Helpers.FaultMessage and Compute.AddressLinks: the model takes dict entries in document order. On the Python versions this code base targets, `popitem()` (helpers.py:56) and `.values()` (compute.py:165) follow hash order, which the source leaves unspecified. Decoded objects are assumed to have distinct keys; `json.loads` keeps the last of duplicate keys, while `Get` answers with the first.
- Compute.Controller.AssembleLinks: as written, `show` raises AttributeError at compute.py:155 before any link is added, because `helpers.py` defines no `get_server_volumes_link`. The model takes the volume list as a parameter and assembles the links the code evidently means to build.
- Py.Format: formatting a list or dict into a path with `%s` is not rendered. The model raises `Unformattable` where Python would print the value's repr.
- Compute.ServerIds: the ids for `delete_all` are formatted all at once, before the first delete. The source formats each id when it deletes that server. The two differ only for list or dict ids, which Py.Format does not render.
- JSON numbers are integers; floats are not modelled. JSON equality is structural. Python's `True == 1` and order-insensitive dict equality are not modelled, and they matter only when an address or `OS-EXT-IPS:type` is compared with a non-string value.
