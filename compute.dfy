/**
 * The OCCI compute controller: listing servers as compute resources, running
 * the stop/start/restart actions, creating a server from an OCCI request,
 * assembling the links of a compute resource and deleting servers, all on
 * top of the nova helpers.
 */
module Compute {
  import opened Wrappers
  import opened JsonValues
  import opened Errors
  import opened Py
  import opened Wsgi
  import opened Helpers

  /** An OCCI category, identified by its scheme and term. */
  datatype Category = Category(scheme: string, term: string)

  /**
   * The OCCI categories and constants the controller takes from other
   * modules: the compute kind and its actions, the template and
   * contextualization mixins, and the prefix of floating network ids.
   */
  datatype Definitions = Definitions(
    computeKind: Category,
    computeActions: seq<Category>,
    stop: Category,
    start: Category,
    restart: Category,
    osTemplate: Category,
    resourceTemplate: Category,
    userData: Category,
    publicKey: Category,
    floatingPrefix: string)

  /** The parser's output, as far as the validator and the controller read it. */
  datatype Parsed = Parsed(
    category: Option<Category>,
    mixins: seq<Category>,
    attributes: Option<map<string, string>>,
    schemes: Option<map<string, seq<string>>>)

  /** A validation scheme: a category alone, or a kind with required and optional mixins. */
  datatype Scheme =
    | CategoryOnly(category: Category)
    | WithMixins(category: Category, mixins: seq<Category>, optionalMixins: seq<Category>)

  datatype Network = Network(title: string, id: string)

  /** A link owned by a compute resource, which it names by id. */
  datatype Link =
    | StorageLink(source: Json, volume: Json, deviceId: Json)
    | NetworkInterface(source: Json, network: Network, mac: Json, address: Json)

  datatype ComputeResource = ComputeResource(title: Json, id: Json, links: seq<Link>)

  datatype Collection = Collection(resources: seq<ComputeResource>)

  /** What `create` sends to the backend. */
  datatype ServerParams = ServerParams(name: string, image: string, flavor: string, userData: Option<string>)

  // ---------------------------------------------------------------------
  // Compute resources from servers
  // ---------------------------------------------------------------------

  /** `ComputeResource(title=s["name"], id=s["id"])`. */
  function ToResource(server: Json): Result<ComputeResource> {
    var title :- Subscript(server, "name");
    var id :- Subscript(server, "id");
    Ok(ComputeResource(title, id, []))
  }

  /** `_get_compute_resources`: nothing for a false value, one resource per server otherwise. */
  function ComputeResources(servers: Json): Result<seq<ComputeResource>> {
    if !Truthy(servers) then Ok([])
    else
      var items :- Iterate(servers);
      MapAll(ToResource, items)
  }

  /**
   * A list of servers that all have a name and an id gives one resource per
   * server, in the same order, titled by the name and identified by the id;
   * None and the empty list give no resources.
   */
  lemma ComputeResourcesInOrder(servers: seq<Json>)
    requires forall i :: 0 <= i < |servers| ==> Subscript(servers[i], "name").Ok? && Subscript(servers[i], "id").Ok?
    ensures ComputeResources(JList(servers)).Ok?
    ensures var rs := ComputeResources(JList(servers)).value;
      |rs| == |servers| &&
      forall i :: 0 <= i < |servers| ==>
        rs[i] == ComputeResource(Subscript(servers[i], "name").value, Subscript(servers[i], "id").value, [])
    ensures ComputeResources(JNull) == Ok([]) && ComputeResources(JList([])) == Ok([])
  {
    MapAllOk(ToResource, servers);
  }

  /**
   * The first server without a `name` or an `id` stops the loop, and its
   * exception (the one for `name` when both are missing) is the one raised.
   */
  lemma ComputeResourcesFirstFailure(servers: seq<Json>, k: nat)
    requires k < |servers|
    requires forall i :: 0 <= i < k ==> Subscript(servers[i], "name").Ok? && Subscript(servers[i], "id").Ok?
    requires Subscript(servers[k], "name").Err? || Subscript(servers[k], "id").Err?
    ensures ComputeResources(JList(servers)) ==
      Err(if Subscript(servers[k], "name").Err? then Subscript(servers[k], "name").error
          else Subscript(servers[k], "id").error)
  {
    MapAllFirstError(ToResource, servers, k);
  }

  /** The loop of `_get_compute_resources`. */
  method GetComputeResources(servers: Json) returns (r: Result<seq<ComputeResource>>)
    ensures r == ComputeResources(servers)
  {
    var resources: seq<ComputeResource> := [];
    if Truthy(servers) {
      var items := Iterate(servers);
      if items.Err? {
        return Err(items.error);
      }
      var i := 0;
      while i < |items.value|
        invariant 0 <= i <= |items.value|
        invariant MapAll(ToResource, items.value[..i]) == Ok(resources)
      {
        MapAllStep(ToResource, items.value, i);
        var s := ToResource(items.value[i]);
        if s.Err? {
          MapAllErrSticks(ToResource, items.value, i + 1);
          return Err(s.error);
        }
        resources := resources + [s.value];
        i := i + 1;
      }
      assert items.value[..i] == items.value;
    }
    r := Ok(resources);
  }

  /** The collection `index` returns for the backend's server list. */
  function IndexResult(servers: Result<Json>): Result<Collection> {
    var s :- servers;
    var rs :- ComputeResources(s);
    Ok(Collection(rs))
  }

  // ---------------------------------------------------------------------
  // Network links
  // ---------------------------------------------------------------------

  const FixedNetwork := Network("network", "fixed")

  function FloatingNetwork(prefix: string, pool: string): Network {
    Network("network", prefix + "/" + pool)
  }

  /**
   * The scan over the floating IPs in `_create_network_link`: after the
   * given IPs, the network of the last one whose `ip` equals the address,
   * or None when none did.
   */
  function FloatingScan(prefix: string, addr: Json, ips: seq<Json>): Result<Option<Network>> {
    if ips == [] then Ok(None)
    else
      var found :- FloatingScan(prefix, addr, ips[..|ips| - 1]);
      var a :- Subscript(addr, "addr");
      var ipAddr :- Subscript(ips[|ips| - 1], "ip");
      if a == ipAddr then
        var pool :- Subscript(ips[|ips| - 1], "pool");
        var p :- Format(pool);
        Ok(Some(FloatingNetwork(prefix, p)))
      else
        Ok(found)
  }

  /** A floating IP as nova lists it: a dict with an `ip` and a string `pool`. */
  predicate WellFormedIp(ip: Json) {
    ip.JObj? && Get(ip.entries, "ip").Some? && Get(ip.entries, "pool").Some? && Get(ip.entries, "pool").value.JStr?
  }

  function IpOf(ip: Json): Json
    requires WellFormedIp(ip)
  {
    Get(ip.entries, "ip").value
  }

  function PoolOf(ip: Json): string
    requires WellFormedIp(ip)
  {
    Get(ip.entries, "pool").value.s
  }

  lemma {:induction false} FloatingScanTotal(prefix: string, addr: Json, ips: seq<Json>)
    requires Subscript(addr, "addr").Ok?
    requires forall i :: 0 <= i < |ips| ==> WellFormedIp(ips[i])
    ensures FloatingScan(prefix, addr, ips).Ok?
  {
    if ips != [] {
      FloatingScanTotal(prefix, addr, ips[..|ips| - 1]);
    }
  }

  /** With well-formed IPs, the network is that of the last IP matching the address. */
  lemma {:induction false} FloatingScanLastMatch(prefix: string, addr: Json, ips: seq<Json>, k: nat)
    requires Subscript(addr, "addr").Ok?
    requires forall i :: 0 <= i < |ips| ==> WellFormedIp(ips[i])
    requires k < |ips| && IpOf(ips[k]) == Subscript(addr, "addr").value
    requires forall j :: k < j < |ips| ==> IpOf(ips[j]) != Subscript(addr, "addr").value
    ensures FloatingScan(prefix, addr, ips) == Ok(Some(FloatingNetwork(prefix, PoolOf(ips[k]))))
  {
    var init := ips[..|ips| - 1];
    if k < |ips| - 1 {
      FloatingScanLastMatch(prefix, addr, init, k);
    } else {
      FloatingScanTotal(prefix, addr, init);
    }
  }

  /** With well-formed IPs of which none matches the address, no network is found. */
  lemma {:induction false} FloatingScanNoMatch(prefix: string, addr: Json, ips: seq<Json>)
    requires Subscript(addr, "addr").Ok?
    requires forall i :: 0 <= i < |ips| ==> WellFormedIp(ips[i])
    requires forall j :: 0 <= j < |ips| ==> IpOf(ips[j]) != Subscript(addr, "addr").value
    ensures FloatingScan(prefix, addr, ips) == Ok(None)
  {
    if ips != [] {
      FloatingScanNoMatch(prefix, addr, ips[..|ips| - 1]);
    }
  }

  lemma {:induction false} FloatingScanErrSticks(prefix: string, addr: Json, ips: seq<Json>, k: nat)
    requires k <= |ips| && FloatingScan(prefix, addr, ips[..k]).Err?
    ensures FloatingScan(prefix, addr, ips) == FloatingScan(prefix, addr, ips[..k])
  {
    if k < |ips| {
      var init := ips[..|ips| - 1];
      assert init[..k] == ips[..k];
      FloatingScanErrSticks(prefix, addr, init, k);
    } else {
      assert ips[..k] == ips;
    }
  }

  /** The network of a floating address; Python's unbound `net` when no IP matched. */
  function FloatingNetworkOf(prefix: string, addr: Json, floatingIps: Json): Result<Network> {
    var ips :- Iterate(floatingIps);
    var found :- FloatingScan(prefix, addr, ips);
    if found.None? then Err(Python(UnboundLocalError)) else Ok(found.value)
  }

  /** The network of one address: `fixed` unless its type is `floating`. */
  function AddressNetwork(prefix: string, addr: Json, floatingIps: Json): Result<Network> {
    var kind :- Subscript(addr, "OS-EXT-IPS:type");
    if kind == JStr("floating") then FloatingNetworkOf(prefix, addr, floatingIps) else Ok(FixedNetwork)
  }

  /** `_create_network_link`: the interface of the compute resource `source` for one address. */
  function NetworkLink(prefix: string, addr: Json, source: Json, floatingIps: Json): (r: Result<Link>)
    ensures r.Ok? ==> r.value.NetworkInterface? && r.value.source == source
  {
    var net :- AddressNetwork(prefix, addr, floatingIps);
    var mac :- Subscript(addr, "OS-EXT-IPS-MAC:mac_addr");
    var ip :- Subscript(addr, "addr");
    Ok(NetworkInterface(source, net, mac, ip))
  }

  /** An address that is not floating is linked to the network `fixed`. */
  lemma FixedAddressLink(prefix: string, addr: Json, source: Json, floatingIps: Json)
    requires Subscript(addr, "OS-EXT-IPS:type").Ok? && Subscript(addr, "OS-EXT-IPS:type").value != JStr("floating")
    requires Subscript(addr, "OS-EXT-IPS-MAC:mac_addr").Ok? && Subscript(addr, "addr").Ok?
    ensures NetworkLink(prefix, addr, source, floatingIps) ==
            Ok(NetworkInterface(source, FixedNetwork, Subscript(addr, "OS-EXT-IPS-MAC:mac_addr").value,
                                Subscript(addr, "addr").value))
  {
  }

  /** A floating address is linked to `<prefix>/<pool>` of the last floating IP equal to it. */
  lemma FloatingAddressLink(prefix: string, addr: Json, source: Json, ips: seq<Json>, k: nat)
    requires Subscript(addr, "OS-EXT-IPS:type") == Ok(JStr("floating"))
    requires Subscript(addr, "OS-EXT-IPS-MAC:mac_addr").Ok? && Subscript(addr, "addr").Ok?
    requires forall i :: 0 <= i < |ips| ==> WellFormedIp(ips[i])
    requires k < |ips| && IpOf(ips[k]) == Subscript(addr, "addr").value
    requires forall j :: k < j < |ips| ==> IpOf(ips[j]) != Subscript(addr, "addr").value
    ensures NetworkLink(prefix, addr, source, JList(ips)) ==
            Ok(NetworkInterface(source, FloatingNetwork(prefix, PoolOf(ips[k])),
                                Subscript(addr, "OS-EXT-IPS-MAC:mac_addr").value, Subscript(addr, "addr").value))
  {
    FloatingScanLastMatch(prefix, addr, ips, k);
  }

  /** A floating address that no floating IP matches fails, as Python's unbound `net` does. */
  lemma UnmatchedFloatingAddress(prefix: string, addr: Json, source: Json, ips: seq<Json>)
    requires Subscript(addr, "OS-EXT-IPS:type") == Ok(JStr("floating")) && Subscript(addr, "addr").Ok?
    requires forall i :: 0 <= i < |ips| ==> WellFormedIp(ips[i])
    requires forall j :: 0 <= j < |ips| ==> IpOf(ips[j]) != Subscript(addr, "addr").value
    ensures NetworkLink(prefix, addr, source, JList(ips)) == Err(Python(UnboundLocalError))
  {
    FloatingScanNoMatch(prefix, addr, ips);
  }

  /** The loop of `_create_network_link` over the floating IPs: a later match overrides an earlier one. */
  method ScanFloatingIps(prefix: string, addr: Json, ips: seq<Json>) returns (r: Result<Option<Network>>)
    ensures r == FloatingScan(prefix, addr, ips)
  {
    var net: Option<Network> := None;
    var i := 0;
    while i < |ips|
      invariant 0 <= i <= |ips|
      invariant FloatingScan(prefix, addr, ips[..i]) == Ok(net)
    {
      assert ips[..i + 1][..i] == ips[..i];
      var a := Subscript(addr, "addr");
      if a.Err? {
        FloatingScanErrSticks(prefix, addr, ips, i + 1);
        return Err(a.error);
      }
      var ipAddr := Subscript(ips[i], "ip");
      if ipAddr.Err? {
        FloatingScanErrSticks(prefix, addr, ips, i + 1);
        return Err(ipAddr.error);
      }
      if a.value == ipAddr.value {
        var pool := Subscript(ips[i], "pool");
        if pool.Err? {
          FloatingScanErrSticks(prefix, addr, ips, i + 1);
          return Err(pool.error);
        }
        var p := Format(pool.value);
        if p.Err? {
          FloatingScanErrSticks(prefix, addr, ips, i + 1);
          return Err(p.error);
        }
        net := Some(FloatingNetwork(prefix, p.value));
      }
      i := i + 1;
    }
    assert ips[..i] == ips;
    r := Ok(net);
  }

  /** The floating branch of `_create_network_link`: scan the floating IPs, fail if none matched. */
  method ResolveFloatingNetwork(prefix: string, addr: Json, floatingIps: Json) returns (r: Result<Network>)
    ensures r == FloatingNetworkOf(prefix, addr, floatingIps)
  {
    var ips := Iterate(floatingIps);
    if ips.Err? {
      return Err(ips.error);
    }
    var found := ScanFloatingIps(prefix, addr, ips.value);
    if found.Err? {
      return Err(found.error);
    }
    if found.value.None? {
      // `net` was never bound.
      return Err(Python(UnboundLocalError));
    }
    r := Ok(found.value.value);
  }

  /** The first step of `_create_network_link`: which network the address is on. */
  method ResolveNetwork(prefix: string, addr: Json, floatingIps: Json) returns (r: Result<Network>)
    ensures r == AddressNetwork(prefix, addr, floatingIps)
  {
    var kind := Subscript(addr, "OS-EXT-IPS:type");
    if kind.Err? {
      return Err(kind.error);
    }
    if kind.value == JStr("floating") {
      r := ResolveFloatingNetwork(prefix, addr, floatingIps);
    } else {
      r := Ok(FixedNetwork);
    }
  }

  /** `_create_network_link`. */
  method CreateNetworkLink(prefix: string, addr: Json, source: Json, floatingIps: Json) returns (r: Result<Link>)
    ensures r == NetworkLink(prefix, addr, source, floatingIps)
  {
    var net := ResolveNetwork(prefix, addr, floatingIps);
    if net.Err? {
      return Err(net.error);
    }
    var mac := Subscript(addr, "OS-EXT-IPS-MAC:mac_addr");
    if mac.Err? {
      return Err(mac.error);
    }
    var ip := Subscript(addr, "addr");
    if ip.Err? {
      return Err(ip.error);
    }
    r := Ok(NetworkInterface(source, net.value, mac.value, ip.value));
  }

  // ---------------------------------------------------------------------
  // Links of a compute resource (`show`)
  // ---------------------------------------------------------------------

  /** `StorageLink(comp, StorageResource(id=v["volumeId"]), deviceid=v["device"])`. */
  function ToStorageLink(source: Json, v: Json): Result<Link> {
    var volume :- Subscript(v, "volumeId");
    var device :- Subscript(v, "device");
    Ok(StorageLink(source, volume, device))
  }

  function StorageLinkOf(source: Json): Json -> Result<Link> {
    v => ToStorageLink(source, v)
  }

  function NetworkLinkOf(prefix: string, source: Json, floatingIps: Json): Json -> Result<Link> {
    addr => NetworkLink(prefix, addr, source, floatingIps)
  }

  /** One storage link per attached volume, in order. */
  function StorageLinks(source: Json, vols: Json): (r: Result<seq<Link>>)
    ensures r.Ok? ==> Iterate(vols).Ok? && |r.value| == |Iterate(vols).value|
  {
    var vs :- Iterate(vols);
    MapAll(StorageLinkOf(source), vs)
  }

  /** The network links of the address sets, set by set and address by address. */
  function AddressLinks(prefix: string, source: Json, sets: seq<Json>, floatingIps: Json): Result<seq<Link>> {
    if sets == [] then Ok([])
    else
      var earlier :- AddressLinks(prefix, source, sets[..|sets| - 1], floatingIps);
      var addrs :- Iterate(sets[|sets| - 1]);
      var links :- MapAll(NetworkLinkOf(prefix, source, floatingIps), addrs);
      Ok(earlier + links)
  }

  lemma {:induction false} AddressLinksErrSticks(prefix: string, source: Json, sets: seq<Json>, floatingIps: Json, k: nat)
    requires k <= |sets| && AddressLinks(prefix, source, sets[..k], floatingIps).Err?
    ensures AddressLinks(prefix, source, sets, floatingIps) == AddressLinks(prefix, source, sets[..k], floatingIps)
  {
    if k < |sets| {
      var init := sets[..|sets| - 1];
      assert init[..k] == sets[..k];
      AddressLinksErrSticks(prefix, source, init, floatingIps, k);
    } else {
      assert sets[..k] == sets;
    }
  }

  /** The addresses of all the sets, set after set: what the two nested loops of `show` visit. */
  function AddressesOf(sets: seq<Json>): Result<seq<Json>> {
    if sets == [] then Ok([])
    else
      var earlier :- AddressesOf(sets[..|sets| - 1]);
      var addrs :- Iterate(sets[|sets| - 1]);
      Ok(earlier + addrs)
  }

  /**
   * The nested loops make one link per address, in address order: when
   * every set can be iterated, the links are those of the concatenated
   * addresses, and links exist only when every set can be iterated.
   */
  lemma {:induction false} AddressLinksFlat(prefix: string, source: Json, sets: seq<Json>, floatingIps: Json)
    ensures AddressLinks(prefix, source, sets, floatingIps).Ok? ==> AddressesOf(sets).Ok?
    ensures AddressesOf(sets).Ok? ==>
      AddressLinks(prefix, source, sets, floatingIps) == MapAll(NetworkLinkOf(prefix, source, floatingIps), AddressesOf(sets).value)
  {
    if sets != [] {
      var init := sets[..|sets| - 1];
      AddressLinksFlat(prefix, source, init, floatingIps);
      var addrs := Iterate(sets[|sets| - 1]);
      if AddressesOf(init).Ok? && addrs.Ok? {
        MapAllAppend(NetworkLinkOf(prefix, source, floatingIps), AddressesOf(init).value, addrs.value);
      }
    }
  }

  /** The k-th network link is the link of the k-th address. */
  lemma NetworkLinksInOrder(prefix: string, source: Json, sets: seq<Json>, floatingIps: Json)
    requires AddressLinks(prefix, source, sets, floatingIps).Ok?
    ensures AddressesOf(sets).Ok?
    ensures var addrs := AddressesOf(sets).value;
      var links := AddressLinks(prefix, source, sets, floatingIps).value;
      |links| == |addrs| && forall k :: 0 <= k < |addrs| ==> NetworkLink(prefix, addrs[k], source, floatingIps) == Ok(links[k])
  {
    AddressLinksFlat(prefix, source, sets, floatingIps);
    var f := NetworkLinkOf(prefix, source, floatingIps);
    var addrs := AddressesOf(sets).value;
    MapAllOk(f, addrs);
    forall k | 0 <= k < |addrs|
      ensures NetworkLink(prefix, addrs[k], source, floatingIps) == Ok(AddressLinks(prefix, source, sets, floatingIps).value[k])
    {
      assert f(addrs[k]) == NetworkLink(prefix, addrs[k], source, floatingIps);
    }
  }

  /** One more address set: the links of the first k+1 sets extend those of the first k. */
  lemma AddressLinksStep(prefix: string, source: Json, sets: seq<Json>, floatingIps: Json, k: nat)
    requires k < |sets|
    ensures AddressLinks(prefix, source, sets[..k + 1], floatingIps) ==
      (match AddressLinks(prefix, source, sets[..k], floatingIps)
       case Err(e) => Err(e)
       case Ok(earlier) =>
         (match Iterate(sets[k])
          case Err(e) => Err(e)
          case Ok(addrs) =>
            (match MapAll(NetworkLinkOf(prefix, source, floatingIps), addrs)
             case Err(e) => Err(e)
             case Ok(links) => Ok(earlier + links))))
  {
    assert sets[..k + 1][..k] == sets[..k];
  }

  lemma {:induction false} AddressLinksAreInterfaces(prefix: string, source: Json, sets: seq<Json>, floatingIps: Json)
    requires AddressLinks(prefix, source, sets, floatingIps).Ok?
    ensures var links := AddressLinks(prefix, source, sets, floatingIps).value;
      forall j :: 0 <= j < |links| ==> links[j].NetworkInterface? && links[j].source == source
  {
    if sets != [] {
      var earlier := AddressLinks(prefix, source, sets[..|sets| - 1], floatingIps).value;
      AddressLinksAreInterfaces(prefix, source, sets[..|sets| - 1], floatingIps);
      var addrs := Iterate(sets[|sets| - 1]).value;
      var f := NetworkLinkOf(prefix, source, floatingIps);
      MapAllOk(f, addrs);
      var added := MapAll(f, addrs).value;
      forall i | 0 <= i < |added|
        ensures added[i].NetworkInterface? && added[i].source == source
      {
        assert f(addrs[i]) == NetworkLink(prefix, addrs[i], source, floatingIps);
      }
      assert AddressLinks(prefix, source, sets, floatingIps).value == earlier + added;
    }
  }

  /**
   * The links `show` gives a compute resource: its own, then one storage link
   * per volume, then, when it has addresses, one network link per address.
   */
  function ShowLinks(prefix: string, comp: ComputeResource, vols: Json, addresses: Json,
                     floatingIps: Result<Json>): Result<ComputeResource>
  {
    var storage :- StorageLinks(comp.id, vols);
    var network :- NetworkPart(prefix, comp.id, addresses, floatingIps);
    Ok(comp.(links := comp.links + storage + network))
  }

  /**
   * The network links of `show`: none without addresses; otherwise the
   * floating IPs must have been fetched, and each address set gives its links.
   */
  function NetworkPart(prefix: string, source: Json, addresses: Json, floatingIps: Result<Json>): Result<seq<Link>> {
    if !Truthy(addresses) then Ok([])
    else
      var fips :- floatingIps;
      var sets :- DictValues(addresses);
      AddressLinks(prefix, source, sets, fips)
  }

  /** The network part holds only interfaces of the resource, and nothing without addresses. */
  lemma NetworkPartInterfaces(prefix: string, source: Json, addresses: Json, floatingIps: Result<Json>)
    requires NetworkPart(prefix, source, addresses, floatingIps).Ok?
    ensures var network := NetworkPart(prefix, source, addresses, floatingIps).value;
      (forall j :: 0 <= j < |network| ==> network[j].NetworkInterface? && network[j].source == source) &&
      (!Truthy(addresses) ==> network == [])
  {
    if Truthy(addresses) {
      AddressLinksAreInterfaces(prefix, source, DictValues(addresses).value, floatingIps.value);
    }
  }

  /** One storage link per volume, in volume order. */
  lemma StorageLinksInOrder(source: Json, vols: Json)
    requires StorageLinks(source, vols).Ok?
    ensures var vs := Iterate(vols).value;
      var storage := StorageLinks(source, vols).value;
      |storage| == |vs| && forall i :: 0 <= i < |vs| ==> ToStorageLink(source, vs[i]) == Ok(storage[i])
  {
    var vs := Iterate(vols).value;
    var f := StorageLinkOf(source);
    MapAllOk(f, vs);
    forall i | 0 <= i < |vs|
      ensures ToStorageLink(source, vs[i]) == Ok(StorageLinks(source, vols).value[i])
    {
      assert f(vs[i]) == ToStorageLink(source, vs[i]);
    }
  }

  /**
   * Storage links come first, one per volume and in volume order, then only
   * network interfaces; a resource without addresses gets no network link.
   */
  lemma ShowLinkOrder(prefix: string, comp: ComputeResource, vols: Json, addresses: Json, floatingIps: Result<Json>)
    requires ShowLinks(prefix, comp, vols, addresses, floatingIps).Ok?
    ensures var c := ShowLinks(prefix, comp, vols, addresses, floatingIps).value;
      var vs := Iterate(vols).value;
      var n := |comp.links|;
      c.title == comp.title && c.id == comp.id &&
      |c.links| >= n + |vs| && c.links[..n] == comp.links &&
      (forall i :: 0 <= i < |vs| ==> ToStorageLink(comp.id, vs[i]) == Ok(c.links[n + i])) &&
      (forall j :: n + |vs| <= j < |c.links| ==> c.links[j].NetworkInterface? && c.links[j].source == comp.id) &&
      (!Truthy(addresses) ==> |c.links| == n + |vs|)
  {
    ShowLinksSplit(prefix, comp, vols, addresses, floatingIps);
    StorageLinksInOrder(comp.id, vols);
    NetworkPartInterfaces(prefix, comp.id, addresses, floatingIps);
    LinksOrder(comp, ShowLinks(prefix, comp, vols, addresses, floatingIps).value, Iterate(vols).value,
               StorageLinks(comp.id, vols).value, NetworkPart(prefix, comp.id, addresses, floatingIps).value);
  }

  /**
   * After the storage links, a resource with addresses gets exactly the links
   * of its addresses, concatenated set after set, one per address and in
   * address order (`ShowAddressLinkAt` states it index by index).
   */
  lemma ShowAddressLinks(prefix: string, comp: ComputeResource, vols: Json, addresses: Json, floatingIps: Result<Json>)
    requires ShowLinks(prefix, comp, vols, addresses, floatingIps).Ok? && Truthy(addresses)
    ensures floatingIps.Ok? && DictValues(addresses).Ok? && AddressesOf(DictValues(addresses).value).Ok?
    ensures var addrs := AddressesOf(DictValues(addresses).value).value;
      var links := MapAll(NetworkLinkOf(prefix, comp.id, floatingIps.value), addrs);
      var c := ShowLinks(prefix, comp, vols, addresses, floatingIps).value;
      links.Ok? && c.links[|comp.links| + |Iterate(vols).value|..] == links.value
  {
    ShowLinksSplit(prefix, comp, vols, addresses, floatingIps);
    AddressLinksFlat(prefix, comp.id, DictValues(addresses).value, floatingIps.value);
    SuffixIs(comp, ShowLinks(prefix, comp, vols, addresses, floatingIps).value, StorageLinks(comp.id, vols).value,
             NetworkPart(prefix, comp.id, addresses, floatingIps).value, |Iterate(vols).value|);
  }

  /** The network link at position k after the storage links is the link of the k-th address. */
  lemma ShowAddressLinkAt(prefix: string, comp: ComputeResource, vols: Json, addresses: Json,
                          floatingIps: Result<Json>, k: nat)
    requires ShowLinks(prefix, comp, vols, addresses, floatingIps).Ok? && Truthy(addresses)
    requires DictValues(addresses).Ok? && AddressesOf(DictValues(addresses).value).Ok?
    requires k < |AddressesOf(DictValues(addresses).value).value|
    ensures floatingIps.Ok?
    ensures var c := ShowLinks(prefix, comp, vols, addresses, floatingIps).value;
      var base := |comp.links| + |Iterate(vols).value|;
      base + k < |c.links| &&
      NetworkLink(prefix, AddressesOf(DictValues(addresses).value).value[k], comp.id, floatingIps.value) == Ok(c.links[base + k])
  {
    ShowAddressLinks(prefix, comp, vols, addresses, floatingIps);
    var f := NetworkLinkOf(prefix, comp.id, floatingIps.value);
    var addrs := AddressesOf(DictValues(addresses).value).value;
    MapAllAt(f, addrs, k);
    var c := ShowLinks(prefix, comp, vols, addresses, floatingIps).value;
    var base := |comp.links| + |Iterate(vols).value|;
    assert c.links[base..][k] == c.links[base + k];
  }

  /** The links of `c` after its own and the storage links are the network part. */
  lemma SuffixIs(comp: ComputeResource, c: ComputeResource, storage: seq<Link>, network: seq<Link>, volumes: nat)
    requires c == comp.(links := comp.links + storage + network) && |storage| == volumes
    ensures c.links[|comp.links| + volumes..] == network
  {
  }

  /** A successful `show` link assembly is the resource's links, then the storage part, then the network part. */
  lemma ShowLinksSplit(prefix: string, comp: ComputeResource, vols: Json, addresses: Json, floatingIps: Result<Json>)
    requires ShowLinks(prefix, comp, vols, addresses, floatingIps).Ok?
    ensures StorageLinks(comp.id, vols).Ok? && NetworkPart(prefix, comp.id, addresses, floatingIps).Ok?
    ensures ShowLinks(prefix, comp, vols, addresses, floatingIps).value ==
      comp.(links := comp.links + StorageLinks(comp.id, vols).value + NetworkPart(prefix, comp.id, addresses, floatingIps).value)
  {
  }

  /** The order of links in `c` when they are the resource's own, then the storage, then the network links. */
  lemma LinksOrder(comp: ComputeResource, c: ComputeResource, vs: seq<Json>, storage: seq<Link>, network: seq<Link>)
    requires c == comp.(links := comp.links + storage + network)
    requires |storage| == |vs| && forall i :: 0 <= i < |vs| ==> ToStorageLink(comp.id, vs[i]) == Ok(storage[i])
    requires forall j :: 0 <= j < |network| ==> network[j].NetworkInterface? && network[j].source == comp.id
    ensures var n := |comp.links|;
      c.title == comp.title && c.id == comp.id &&
      |c.links| >= n + |vs| && c.links[..n] == comp.links &&
      (forall i :: 0 <= i < |vs| ==> ToStorageLink(comp.id, vs[i]) == Ok(c.links[n + i])) &&
      (forall j :: n + |vs| <= j < |c.links| ==> c.links[j].NetworkInterface? && c.links[j].source == comp.id) &&
      (network == [] ==> |c.links| == n + |vs|)
  {
    LinksLayout(comp.links, storage, network);
  }

  /** Where each part of `own + storage + network` lies. */
  lemma LinksLayout(own: seq<Link>, storage: seq<Link>, network: seq<Link>)
    ensures var all := own + storage + network;
      all[..|own|] == own &&
      (forall i :: 0 <= i < |storage| ==> all[|own| + i] == storage[i]) &&
      (forall j :: |own| + |storage| <= j < |all| ==> all[j] == network[j - |own| - |storage|])
  {
  }

  /** The storage loop of `show`: one storage link per volume. */
  method AddStorageLinks(source: Json, vs: seq<Json>) returns (r: Result<seq<Link>>)
    ensures r == MapAll(StorageLinkOf(source), vs)
  {
    var f := StorageLinkOf(source);
    var storage: seq<Link> := [];
    var i := 0;
    while i < |vs|
      invariant 0 <= i <= |vs|
      invariant MapAll(f, vs[..i]) == Ok(storage)
    {
      MapAllStep(f, vs, i);
      var link := ToStorageLink(source, vs[i]);
      if link.Err? {
        MapAllErrSticks(f, vs, i + 1);
        return Err(link.error);
      }
      storage := storage + [link.value];
      i := i + 1;
    }
    assert vs[..i] == vs;
    r := Ok(storage);
  }

  /** The inner loop of `show`: one network link per address of a set. */
  method AddressSetLinks(prefix: string, source: Json, addrs: seq<Json>, floatingIps: Json)
    returns (r: Result<seq<Link>>)
    ensures r == MapAll(NetworkLinkOf(prefix, source, floatingIps), addrs)
  {
    var f := NetworkLinkOf(prefix, source, floatingIps);
    var added: seq<Link> := [];
    var j := 0;
    while j < |addrs|
      invariant 0 <= j <= |addrs|
      invariant MapAll(f, addrs[..j]) == Ok(added)
    {
      MapAllStep(f, addrs, j);
      var link := CreateNetworkLink(prefix, addrs[j], source, floatingIps);
      if link.Err? {
        MapAllErrSticks(f, addrs, j + 1);
        return Err(link.error);
      }
      added := added + [link.value];
      j := j + 1;
    }
    assert addrs[..j] == addrs;
    r := Ok(added);
  }

  /** The outer loop of `show` over the address sets. */
  method AddNetworkLinks(prefix: string, source: Json, sets: seq<Json>, floatingIps: Json)
    returns (r: Result<seq<Link>>)
    ensures r == AddressLinks(prefix, source, sets, floatingIps)
  {
    var links: seq<Link> := [];
    var k := 0;
    while k < |sets|
      invariant 0 <= k <= |sets|
      invariant AddressLinks(prefix, source, sets[..k], floatingIps) == Ok(links)
    {
      AddressLinksStep(prefix, source, sets, floatingIps, k);
      var addrs := Iterate(sets[k]);
      if addrs.Err? {
        AddressLinksErrSticks(prefix, source, sets, floatingIps, k + 1);
        return Err(addrs.error);
      }
      var added := AddressSetLinks(prefix, source, addrs.value, floatingIps);
      if added.Err? {
        AddressLinksErrSticks(prefix, source, sets, floatingIps, k + 1);
        return Err(added.error);
      }
      links := links + added.value;
      k := k + 1;
    }
    assert sets[..k] == sets;
    r := Ok(links);
  }

  // ---------------------------------------------------------------------
  // Deleting servers
  // ---------------------------------------------------------------------

  /**
   * `_delete`: the requests the backend has received, and the outcome, after
   * deleting `pending` one by one following `history`; stops at the first
   * answer other than 204.
   */
  function Deletes(reply: Backend, history: seq<Request>, pending: seq<Request>): (seq<Request>, Result<()>)
    decreases |pending|
  {
    if pending == [] then (history, Ok(()))
    else
      var resp := reply(history, pending[0]);
      if resp.status == 204 then Deletes(reply, history + [pending[0]], pending[1..])
      else (history + [pending[0]], Err(ExceptionFromResponse(resp)))
  }

  /**
   * What is sent is `history` followed by a prefix of `pending`; all of it on
   * success, and on failure at least one delete, whose answer gives the error.
   */
  lemma {:induction false} DeletesSentPrefix(reply: Backend, history: seq<Request>, pending: seq<Request>)
    decreases |pending|
    ensures var sent := Deletes(reply, history, pending).0;
      var outcome := Deletes(reply, history, pending).1;
      |history| <= |sent| <= |history| + |pending| &&
      sent == history + pending[..|sent| - |history|] &&
      (outcome.Ok? ==> |sent| == |history| + |pending|) &&
      (outcome.Err? ==> (|sent| > |history| &&
         outcome.error == ExceptionFromResponse(reply(sent[..|sent| - 1], sent[|sent| - 1]))))
  {
    if pending != [] {
      var resp := reply(history, pending[0]);
      if resp.status == 204 {
        var h := history + [pending[0]];
        DeletesSentPrefix(reply, h, pending[1..]);
        var sent := Deletes(reply, h, pending[1..]).0;
        assert sent[..|h|] == h;
        assert pending[..|sent| - |history|] == [pending[0]] + pending[1..][..|sent| - |h|];
      } else {
        var sent := history + [pending[0]];
        assert sent[..|history|] == history;
        assert pending[..1] == [pending[0]];
      }
    }
  }

  /**
   * Deletes go out in order: what is sent is a prefix of `pending`, every
   * delete but the last was answered 204, and the last was answered 204
   * exactly when all of `pending` went out and the outcome is a success.
   */
  lemma {:induction false} DeletesInOrder(reply: Backend, history: seq<Request>, pending: seq<Request>)
    decreases |pending|
    ensures var sent := Deletes(reply, history, pending).0;
      var outcome := Deletes(reply, history, pending).1;
      |history| <= |sent| <= |history| + |pending| &&
      sent == history + pending[..|sent| - |history|] &&
      (outcome.Ok? ==> |sent| == |history| + |pending|) &&
      (forall j :: |history| <= j < |sent| ==>
         (reply(sent[..j], sent[j]).status == 204 <==> (j < |sent| - 1 || outcome.Ok?))) &&
      (outcome.Err? ==> (|sent| > |history| &&
         outcome.error == ExceptionFromResponse(reply(sent[..|sent| - 1], sent[|sent| - 1]))))
  {
    DeletesSentPrefix(reply, history, pending);
    if pending != [] {
      var resp := reply(history, pending[0]);
      var sent := Deletes(reply, history, pending).0;
      assert sent[..|history|] == history && sent[|history|] == pending[0] by {
        assert pending[..|sent| - |history|][0] == pending[0];
      }
      if resp.status == 204 {
        DeletesInOrder(reply, history + [pending[0]], pending[1..]);
      } else {
        assert |sent| == |history| + 1;
      }
    }
  }

  function DeleteOutcome(outcome: Result<()>): Result<seq<ComputeResource>> {
    if outcome.Ok? then Ok([]) else Err(outcome.error)
  }

  /** The ids `delete_all` collects from the server list: `[s["id"] for s in servers]`. */
  function ServerIds(servers: Result<Json>): (r: Result<seq<string>>)
    ensures r.Ok? ==> servers.Ok? && Iterate(servers.value).Ok?
    ensures r.Ok? ==> var items := Iterate(servers.value).value;
      |r.value| == |items| && forall i :: 0 <= i < |items| ==> IdText(items[i]) == Ok(r.value[i])
    ensures servers.Err? ==> r == Err(servers.error)
  {
    var s :- servers;
    var items :- Iterate(s);
    MapAllOk(IdText, items);
    MapAll(IdText, items)
  }

  /** A server's id as it is formatted into a path. */
  function IdText(server: Json): Result<string> {
    var id :- Subscript(server, "id");
    Format(id)
  }

  // ---------------------------------------------------------------------
  // The controller
  // ---------------------------------------------------------------------

  /**
   * The compute `Controller`. The OCCI parser and validator are oracles: the
   * parser reads a request, the validator answers None when the parsed
   * request satisfies a scheme and the error to raise otherwise.
   */
  class Controller {
    const helper: OpenStackHelper
    const defs: Definitions
    const parse: Request -> Result<Parsed>
    const validate: (Parsed, Scheme) -> Option<Error>

    constructor (app: App, version: string, defs: Definitions, parse: Request -> Result<Parsed>,
                 validate: (Parsed, Scheme) -> Option<Error>)
      ensures helper.app == app && helper.version == version
      ensures this.defs == defs && this.parse == parse && this.validate == validate
    {
      helper := new OpenStackHelper(app, version);
      this.defs := defs;
      this.parse := parse;
      this.validate := validate;
    }

    /** `[a.term for a in ComputeResource.actions]`. */
    function ActionTerms(): seq<string> {
      seq(|defs.computeActions|, i requires 0 <= i < |defs.computeActions| => defs.computeActions[i].term)
    }

    /** The guard of `run_action`: the requested action must be one of the compute action terms. */
    function CheckAction(query: seq<(string, string)>): (r: Result<string>)
      ensures r.Ok? <==> QueryValue(query, "action").Some? && QueryValue(query, "action").value in ActionTerms()
      ensures r.Ok? ==> QueryValue(query, "action") == Some(r.value)
      ensures r.Err? ==> r.error == InvalidAction(QueryValue(query, "action"))
    {
      var action := QueryValue(query, "action");
      if action.None? || action.value !in ActionTerms() then Err(InvalidAction(action))
      else Ok(action.value)
    }

    /** The scheme an action's request is validated against. */
    function ActionScheme(action: string): (r: Result<Scheme>)
      ensures r.Ok? <==> action in {"stop", "start", "restart"}
      ensures r.Err? ==> r.error == ActionNotImplemented
      ensures r.Ok? ==> (r.value.CategoryOnly? &&
        r.value.category == (if action == "stop" then defs.stop else if action == "start" then defs.start else defs.restart))
    {
      if action == "stop" then Ok(CategoryOnly(defs.stop))
      else if action == "start" then Ok(CategoryOnly(defs.start))
      else if action == "restart" then Ok(CategoryOnly(defs.restart))
      else Err(ActionNotImplemented)
    }

    /**
     * Everything `run_action` checks before it calls the backend: the action
     * guard, the parse, the scheme for the action and the validation.
     */
    function AdmitAction(req: Request): (r: Result<string>)
      ensures r.Ok? ==> QueryValue(req.query, "action") == Some(r.value) && r.value in ActionTerms() &&
                        parse(req).Ok?
      ensures r == Ok("stop") ==> validate(parse(req).value, CategoryOnly(defs.stop)).None?
      ensures r == Ok("start") ==> validate(parse(req).value, CategoryOnly(defs.start)).None?
      ensures r == Ok("restart") ==> validate(parse(req).value, CategoryOnly(defs.restart)).None?
      ensures r.Ok? ==> r.value in {"stop", "start", "restart"}
      ensures CheckAction(req.query).Err? ==> r == Err(InvalidAction(QueryValue(req.query, "action")))
      ensures CheckAction(req.query).Ok? && parse(req).Err? ==> r == Err(parse(req).error)
      ensures CheckAction(req.query).Ok? && parse(req).Ok? && CheckAction(req.query).value !in {"stop", "start", "restart"} ==>
                r == Err(ActionNotImplemented)
      ensures CheckAction(req.query).Ok? && parse(req).Ok? && ActionScheme(CheckAction(req.query).value).Ok? ==>
                var failure := validate(parse(req).value, ActionScheme(CheckAction(req.query).value).value);
                (r.Ok? <==> failure.None?) && (failure.Some? ==> r == Err(failure.value))
    {
      var action :- CheckAction(req.query);
      var obj :- parse(req);
      var scheme :- ActionScheme(action);
      match validate(obj, scheme)
      case Some(e) => Err(e)
      case None => Ok(action)
    }

    /** `run_action`: validation comes first, then exactly one backend action call; the result is empty. */
    method RunAction(req: Request, id: string) returns (r: Result<seq<ComputeResource>>)
      modifies helper.app
      ensures AdmitAction(req).Err? ==> helper.app.sent == old(helper.app.sent) && r == Err(AdmitAction(req).error)
      ensures AdmitAction(req).Ok? ==>
        var sent := helper.RunActionReq(req, AdmitAction(req).value, id).value;
        var resp := helper.app.reply(old(helper.app.sent), sent);
        helper.app.sent == old(helper.app.sent) + [sent] &&
        r == if resp.status == 202 then Ok([]) else Err(ExceptionFromResponse(resp))
    {
      var action := CheckAction(req.query);
      if action.Err? {
        return Err(action.error);
      }
      var obj := parse(req);
      if obj.Err? {
        return Err(obj.error);
      }
      var scheme := ActionScheme(action.value);
      if scheme.Err? {
        return Err(scheme.error);
      }
      var failure := validate(obj.value, scheme.value);
      if failure.Some? {
        return Err(failure.value);
      }
      var done := helper.RunAction(req, action.value, id);
      if done.Err? {
        return Err(done.error);
      }
      r := Ok([]);
    }

    /** The scheme a create request is validated against. */
    function CreateScheme(): Scheme {
      WithMixins(defs.computeKind, [defs.osTemplate, defs.resourceTemplate], [defs.userData, defs.publicKey])
    }

    /** `obj["schemes"][scheme][0]`. */
    function FirstTerm(schemes: Option<map<string, seq<string>>>, scheme: string): (r: Result<string>)
      ensures r.Ok? <==> schemes.Some? && scheme in schemes.value && schemes.value[scheme] != []
      ensures r.Ok? ==> r.value == schemes.value[scheme][0]
      ensures r.Err? ==> r.error == Python(if schemes.Some? && scheme in schemes.value then IndexError else KeyError)
    {
      if schemes.None? || scheme !in schemes.value then Err(Python(KeyError))
      else if schemes.value[scheme] == [] then Err(Python(IndexError))
      else Ok(schemes.value[scheme][0])
    }

    /**
     * The server parameters `create` reads from the parsed request: the title
     * (default "OCCI VM"), the first OS template term as image, the first
     * resource template term as flavor, and the user data attribute only
     * when the user data mixin's scheme was given.
     */
    function ServerParamsOf(obj: Parsed): (r: Result<ServerParams>)
      ensures r.Ok? <==> FirstTerm(obj.schemes, defs.osTemplate.scheme).Ok? &&
                         FirstTerm(obj.schemes, defs.resourceTemplate.scheme).Ok?
      ensures r.Ok? ==>
        var attrs := obj.attributes.GetOr(map[]);
        var schemes := obj.schemes.value;
        r.value.image == schemes[defs.osTemplate.scheme][0] &&
        r.value.flavor == schemes[defs.resourceTemplate.scheme][0] &&
        r.value.name == (if "occi.core.title" in attrs then attrs["occi.core.title"] else "OCCI VM") &&
        (r.value.userData.Some? <==> defs.userData.scheme in schemes && "org.openstack.compute.user_data" in attrs) &&
        (r.value.userData.Some? ==> r.value.userData.value == attrs["org.openstack.compute.user_data"])
    {
      var attrs := obj.attributes.GetOr(map[]);
      var name := if "occi.core.title" in attrs then attrs["occi.core.title"] else "OCCI VM";
      var image :- FirstTerm(obj.schemes, defs.osTemplate.scheme);
      var flavor :- FirstTerm(obj.schemes, defs.resourceTemplate.scheme);
      var userData :=
        if defs.userData.scheme in obj.schemes.value && "org.openstack.compute.user_data" in attrs
        then Some(attrs["org.openstack.compute.user_data"]) else None;
      Ok(ServerParams(name, image, flavor, userData))
    }

    /** Everything `create` checks before it calls the backend: the parse, the validation and the extraction. */
    function AdmitCreate(req: Request): (r: Result<ServerParams>)
      ensures r.Ok? ==> parse(req).Ok? && validate(parse(req).value, CreateScheme()).None? &&
                        r == ServerParamsOf(parse(req).value)
      ensures parse(req).Err? ==> r == Err(parse(req).error)
      ensures parse(req).Ok? && validate(parse(req).value, CreateScheme()).Some? ==>
                r == Err(validate(parse(req).value, CreateScheme()).value)
      ensures parse(req).Ok? && validate(parse(req).value, CreateScheme()).None? ==>
                r == ServerParamsOf(parse(req).value)
    {
      var obj :- parse(req);
      if validate(obj, CreateScheme()).Some? then Err(validate(obj, CreateScheme()).value)
      else ServerParamsOf(obj)
    }

    /**
     * What `create` returns for the backend's server: the server renamed to
     * the requested name and made the single resource of the collection.
     */
    function NamedResource(server: Json, name: string): (r: Result<seq<ComputeResource>>)
      ensures r.Ok? <==> server.JObj? && Get(server.entries, "id").Some?
      ensures r.Ok? ==> r.value == [ComputeResource(JStr(name), Get(server.entries, "id").value, [])]
    {
      var s :- SetItem(server, "name", JStr(name));
      MapAllOk(ToResource, [s]);
      ComputeResources(JList([s]))
    }

    function CreatedCollection(server: Result<Json>, name: string): Result<Collection> {
      var s :- server;
      var rs :- NamedResource(s, name);
      Ok(Collection(rs))
    }

    /** `index`: one compute resource per server of the tenant. */
    method Index(req: Request) returns (r: Result<Collection>)
      modifies helper.app
      ensures helper.app.sent == old(helper.app.sent) + [helper.IndexReq(req)]
      ensures r == IndexResult(GetFromResponse(helper.app.reply(old(helper.app.sent), helper.IndexReq(req)),
                                               "servers", JList([])))
    {
      var servers := helper.Index(req);
      if servers.Err? {
        return Err(servers.error);
      }
      var resources := GetComputeResources(servers.value);
      if resources.Err? {
        return Err(resources.error);
      }
      r := Ok(Collection(resources.value));
    }

    /**
     * `create`: after validation, one create-server call (which drops the
     * user data), then a collection of exactly the created server, titled
     * with the requested name.
     */
    method Create(req: Request) returns (r: Result<Collection>)
      modifies helper.app
      ensures AdmitCreate(req).Err? ==> helper.app.sent == old(helper.app.sent) && r == Err(AdmitCreate(req).error)
      ensures AdmitCreate(req).Ok? ==>
        var p := AdmitCreate(req).value;
        var sent := helper.CreateServerReq(req, p.name, p.image, p.flavor, None);
        helper.app.sent == old(helper.app.sent) + [sent] &&
        r == CreatedCollection(GetFromResponse(helper.app.reply(old(helper.app.sent), sent), "server", JObj([])), p.name)
    {
      var obj := parse(req);
      if obj.Err? {
        return Err(obj.error);
      }
      var failure := validate(obj.value, CreateScheme());
      if failure.Some? {
        return Err(failure.value);
      }
      var params := ServerParamsOf(obj.value);
      if params.Err? {
        return Err(params.error);
      }
      var p := params.value;
      var server := helper.CreateServer(req, p.name, p.image, p.flavor, p.userData);
      if server.Err? {
        return Err(server.error);
      }
      // Nova's answer lacks the name, so the requested one is set on it.
      var named := SetItem(server.value, "name", JStr(p.name));
      if named.Err? {
        return Err(named.error);
      }
      var resources := GetComputeResources(JList([named.value]));
      if resources.Err? {
        return Err(resources.error);
      }
      r := Ok(Collection(resources.value));
    }

    /**
     * The link assembly of `show` for a compute resource: storage links for
     * the attached volumes, then, only when the server has addresses, the
     * tenant's floating IPs are fetched and one network link made per address.
     */
    method AssembleLinks(req: Request, comp: ComputeResource, vols: Json, addresses: Json)
      returns (r: Result<ComputeResource>)
      modifies helper.app
      ensures var fetched := StorageLinks(comp.id, vols).Ok? && Truthy(addresses);
        helper.app.sent == old(helper.app.sent) + (if fetched then [helper.FloatingIpsReq(req)] else [])
      ensures r == ShowLinks(defs.floatingPrefix, comp, vols, addresses,
                             GetFromResponse(helper.app.reply(old(helper.app.sent), helper.FloatingIpsReq(req)),
                                             "floating_ips", JList([])))
    {
      ghost var fips := GetFromResponse(helper.app.reply(helper.app.sent, helper.FloatingIpsReq(req)),
                                        "floating_ips", JList([]));
      var vs := Iterate(vols);
      if vs.Err? {
        return Err(vs.error);
      }
      var storage := AddStorageLinks(comp.id, vs.value);
      if storage.Err? {
        return Err(storage.error);
      }
      if !Truthy(addresses) {
        assert comp.links + storage.value + [] == comp.links + storage.value;
        return Ok(comp.(links := comp.links + storage.value));
      }
      var floatingIps := helper.GetFloatingIps(req);
      assert floatingIps == fips;
      if floatingIps.Err? {
        return Err(floatingIps.error);
      }
      var sets := DictValues(addresses);
      if sets.Err? {
        return Err(sets.error);
      }
      var network := AddNetworkLinks(defs.floatingPrefix, comp.id, sets.value, floatingIps.value);
      if network.Err? {
        return Err(network.error);
      }
      r := Ok(comp.(links := comp.links + storage.value + network.value));
    }

    /** The backend deletes of `_delete`, one per id, in order. */
    function DeleteReqs(req: Request, ids: seq<string>): (rs: seq<Request>)
      ensures |rs| == |ids|
      ensures forall i :: 0 <= i < |ids| ==> rs[i].verb == "DELETE" && rs[i].pathInfo == ServerPath(req.tenant, ids[i])
    {
      seq(|ids|, i requires 0 <= i < |ids| => helper.DeleteReq(req, ids[i]))
    }

    /** `_delete`: deletes the servers one after the other, stopping at the first failure. */
    method DeleteIds(req: Request, ids: seq<string>) returns (r: Result<seq<ComputeResource>>)
      modifies helper.app
      ensures var run := Deletes(helper.app.reply, old(helper.app.sent), DeleteReqs(req, ids));
        helper.app.sent == run.0 && r == DeleteOutcome(run.1)
    {
      var pending := DeleteReqs(req, ids);
      var i := 0;
      while i < |ids|
        invariant 0 <= i <= |ids|
        invariant Deletes(helper.app.reply, old(helper.app.sent), pending) ==
                  Deletes(helper.app.reply, helper.app.sent, pending[i..])
      {
        assert pending[i..][0] == helper.DeleteReq(req, ids[i]);
        assert pending[i..][1..] == pending[i + 1..];
        var done := helper.Delete(req, ids[i]);
        if done.Err? {
          return Err(done.error);
        }
        i := i + 1;
      }
      r := Ok([]);
    }

    /** `delete`: the one server. */
    method Delete(req: Request, id: string) returns (r: Result<seq<ComputeResource>>)
      modifies helper.app
      ensures var run := Deletes(helper.app.reply, old(helper.app.sent), [helper.DeleteReq(req, id)]);
        helper.app.sent == run.0 && r == DeleteOutcome(run.1)
    {
      assert DeleteReqs(req, [id]) == [helper.DeleteReq(req, id)];
      r := DeleteIds(req, [id]);
    }

    /** `delete_all`: lists the tenant's servers, then deletes them in listing order. */
    method DeleteAll(req: Request) returns (r: Result<seq<ComputeResource>>)
      modifies helper.app
      ensures var listed := old(helper.app.sent) + [helper.IndexReq(req)];
        var ids := ServerIds(GetFromResponse(helper.app.reply(old(helper.app.sent), helper.IndexReq(req)),
                                             "servers", JList([])));
        (ids.Err? ==> helper.app.sent == listed && r == Err(ids.error)) &&
        (ids.Ok? ==> var run := Deletes(helper.app.reply, listed, DeleteReqs(req, ids.value));
                     helper.app.sent == run.0 && r == DeleteOutcome(run.1))
    {
      var servers := helper.Index(req);
      var ids := ServerIds(servers);
      if ids.Err? {
        return Err(ids.error);
      }
      r := DeleteIds(req, ids.value);
    }
  }
}
