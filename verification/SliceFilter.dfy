/** Endpoint slices: how the build reads them, and why most of their changes need no rebuild. */
module SliceFilter {
  import opened Base
  import opened Frontends

  datatype Port = Port(name: Option<string>, protocol: Option<string>, number: Option<int>)

  datatype ServicePort = ServicePort(name: Option<string>, protocol: Option<string>, number: int)

  datatype Endpoint = Endpoint(ready: Option<bool>, addresses: seq<string>)

  /** An EndpointSlice: its namespace, the Service it is labelled with, and what it carries. */
  datatype Slice = Slice(namespace: Option<string>, service: Option<string>, fqdn: bool, ports: seq<Port>,
                         endpoints: seq<Endpoint>)

  /** A socket address; an IP is its rank in the order of addresses. */
  type Address = (int, int)

  type Service = (string, string)

  // ---- the index ---------------------------------------------------------------------------------------

  function OrElse(o: Option<string>, default: string): string {
    if o.Some? then o.value else default
  }

  /** The Service a slice feeds; without the label, none. */
  function ServiceOf(s: Slice): Option<Service> {
    if s.service.None? then None else Some((OrElse(s.namespace, "default"), s.service.value))
  }

  function KeyOf(service: Service): string {
    service.0 + "/" + service.1
  }

  /** The slices that feed `service`, in order. */
  function Feeding(slices: seq<Slice>, service: Service): seq<Slice> {
    OfKey(ServiceOf, Some(service), slices)
  }

  function Lookup(index: map<Service, seq<Slice>>, service: Service): seq<Slice> {
    if service in index then index[service] else []
  }

  /** The slices by Service. */
  method BuildIndex(slices: seq<Slice>) returns (index: map<Service, seq<Slice>>)
    ensures forall service :: Lookup(index, service) == Feeding(slices, service)
  {
    index := map[];
    for i := 0 to |slices|
      invariant forall service :: Lookup(index, service) == Feeding(slices[..i], service)
    {
      var s := slices[i];
      assert slices[..i + 1] == slices[..i] + [s];
      forall service
        ensures Feeding(slices[..i + 1], service) ==
                Feeding(slices[..i], service) + if ServiceOf(s) == Some(service) then [s] else []
      {
        OfKeyAppend(ServiceOf, Some(service), slices[..i], [s]);
      }
      var fed := ServiceOf(s);
      if fed.Some? {
        index := index[fed.value := Lookup(index, fed.value) + [s]];
      }
    }
    assert slices[..|slices|] == slices;
  }

  // ---- resolving a Service -----------------------------------------------------------------------------

  /** The slice port that carries a Service port's pods: the one of its name, or a sole port that could be it. */
  function SlicePort(ports: seq<Port>, p: ServicePort): Option<Port> {
    var named := FindNamed(ports, OrElse(p.name, ""));
    if named.Some? then named
    else if |ports| == 1 && OrElse(ports[0].name, "") == ""
        && OrElse(ports[0].protocol, "TCP") == OrElse(p.protocol, "TCP")
    then Some(ports[0])
    else None
  }

  function FindNamed(ports: seq<Port>, name: string): Option<Port> {
    if ports == [] then None else if OrElse(ports[0].name, "") == name then Some(ports[0])
        else FindNamed(ports[1..], name)
  }

  /** The pod port, if it is one a socket can have. */
  function PodPort(s: Slice, p: ServicePort): Option<int> {
    var port := SlicePort(s.ports, p);
    if port.Some? && port.value.number.Some? && 0 <= port.value.number.value <= 65535 then port.value.number else None
  }

  /** An endpoint of unknown readiness counts as ready. */
  predicate Ready(e: Endpoint) {
    e.ready != Some(false)
  }

  /** A ready endpoint of `s` has the address `a`; `parse` reads an IP address. */
  ghost predicate Reaches(parse: string -> Option<int>, s: Slice, p: ServicePort, a: Address) {
    !s.fqdn && PodPort(s, p) == Some(a.1) && HasAddress(parse, s.endpoints, a.0)
  }

  /** A ready endpoint spells the IP address. */
  ghost predicate HasAddress(parse: string -> Option<int>, endpoints: seq<Endpoint>, ip: int) {
    exists e, text :: e in endpoints && Ready(e) && text in e.addresses && parse(text) == Some(ip)
  }

  datatype Resolution = Resolution(fqdnIgnored: bool, addresses: seq<Address>)

  predicate AddressLe(a: Address, b: Address) {
    a.0 < b.0 || (a.0 == b.0 && a.1 <= b.1)
  }

  ghost predicate Ascending(s: seq<Address>) {
    forall i, j :: 0 <= i < j < |s| ==> AddressLe(s[i], s[j]) && s[i] != s[j]
  }

  /** What the slices of a Service resolve to: every address a slice reaches, once, in order, and whether a
      slice of names was passed over. */
  ghost predicate Resolves(parse: string -> Option<int>, slices: seq<Slice>, p: ServicePort, r: Resolution) {
    && (r.fqdnIgnored <==> exists s :: s in slices && s.fqdn)
    && Ascending(r.addresses)
    && forall a :: a in r.addresses <==> exists s :: s in slices && Reaches(parse, s, p, a)
  }

  lemma {:induction false} DedupAscends(s: seq<Address>)
    requires SortedBy(Itself<Address>, AddressLe, s)
    ensures Ascending(Dedup(s)) && (forall x :: x in Dedup(s) <==> x in s)
    ensures s != [] ==> Dedup(s) != [] && Dedup(s)[0] == s[0]
  {
    if |s| >= 2 {
      DedupAscends(s[1..]);
      assert s == [s[0]] + s[1..];
      var rest := Dedup(s[1..]);
      if s[0] != s[1] {
        forall j | 0 <= j < |rest| ensures AddressLe(s[0], rest[j]) && s[0] != rest[j] {
          assert AddressLe(Itself(s[0]), Itself(s[1])) && rest[0] == s[1];
          assert j > 0 ==> AddressLe(rest[0], rest[j]);
        }
      }
    }
  }

  /** Ascending sequences with the same members are the same. */
  lemma {:induction false} AscendingDetermined(x: seq<Address>, y: seq<Address>)
    requires Ascending(x) && Ascending(y) && forall a :: a in x <==> a in y
    ensures x == y
  {
    assert (x != [] ==> x[0] in y) && (y != [] ==> y[0] in x);
    if x != [] && y != [] {
      assert x[0] == y[0];
      assert x == [x[0]] + x[1..] && y == [y[0]] + y[1..];
      forall a ensures a in x[1..] <==> a in y[1..] {
        assert a in x[1..] ==> a in x && a != x[0];
        assert a in y[1..] ==> a in y && a != y[0];
      }
      AscendingDetermined(x[1..], y[1..]);
    }
  }

  /** A Service's slices resolve to one thing only, whatever their order. */
  lemma ResolutionIsOrderFree(parse: string -> Option<int>, a: seq<Slice>, b: seq<Slice>, p: ServicePort, r: Resolution,
                              q: Resolution)
    requires (forall s :: s in a <==> s in b) && Resolves(parse, a, p, r) && Resolves(parse, b, p, q)
    ensures r == q
  {
    hide Reaches;
    AscendingDetermined(r.addresses, q.addresses);
  }

  method AddressesOf(parse: string -> Option<int>, s: Slice, port: int) returns (found: seq<Address>)
    ensures forall a :: a in found <==>
              a.1 == port && HasAddress(parse, s.endpoints, a.0)
  {
    found := [];
    for i := 0 to |s.endpoints|
      invariant forall a :: a in found <==>
                  a.1 == port && HasAddress(parse, s.endpoints[..i], a.0)
    {
      var e := s.endpoints[i];
      assert s.endpoints[..i + 1] == s.endpoints[..i] + [e];
      if Ready(e) {
        var more := Parsed(parse, e.addresses, port);
        found := found + more;
      }
    }
  }

  method Parsed(parse: string -> Option<int>, texts: seq<string>, port: int) returns (found: seq<Address>)
    ensures forall a :: a in found <==> a.1 == port && exists text :: text in texts && parse(text) == Some(a.0)
  {
    found := [];
    for i := 0 to |texts|
      invariant forall a :: a in found <==> a.1 == port && exists text :: text in texts[..i] && parse(text) == Some(a.0)
    {
      assert texts[..i + 1] == texts[..i] + [texts[i]];
      var ip := parse(texts[i]);
      if ip.Some? {
        found := found + [(ip.value, port)];
      }
    }
  }

  method ResolveBackends(parse: string -> Option<int>, slices: seq<Slice>, p: ServicePort) returns (r: Resolution)
    ensures Resolves(parse, slices, p, r)
  {
    var found: seq<Address> := [];
    var fqdn := false;
    for i := 0 to |slices|
      invariant fqdn <==> exists s :: s in slices[..i] && s.fqdn
      invariant forall a :: a in found <==> exists s :: s in slices[..i] && Reaches(parse, s, p, a)
    {
      var s := slices[i];
      assert slices[..i + 1] == slices[..i] + [s];
      if s.fqdn {
        fqdn := true;
      } else {
        var port := PodPort(s, p);
        if port.Some? {
          var more := AddressesOf(parse, s, port.value);
          assert forall a :: a in more <==> Reaches(parse, s, p, a);
          found := found + more;
        }
      }
    }
    assert slices[..|slices|] == slices;
    var sorted := SortBy(Itself<Address>, AddressLe, found);
    Sorting(found);
    r := Resolution(fqdn, Dedup(sorted));
  }

  lemma Sorting(found: seq<Address>)
    ensures var d := Dedup(SortBy(Itself<Address>, AddressLe, found)); Ascending(d) && forall a :: a in d <==>
        a in found
  {
    assert TotalOrder(AddressLe);
    var sorted := SortBy(Itself<Address>, AddressLe, found);
    SortSorted(Itself<Address>, AddressLe, found);
    SortContents(Itself<Address>, AddressLe, found);
    assert forall a :: a in sorted <==> a in multiset(sorted);
    assert forall a :: a in found <==> a in multiset(found);
    DedupAscends(sorted);
  }

  lemma ResolutionExists(parse: string -> Option<int>, slices: seq<Slice>, p: ServicePort)
    ensures exists r :: Resolves(parse, slices, p, r)
  {
    var reached := set s, e, text | s in slices && e in s.endpoints && text in e.addresses && Ready(e) && !s.fqdn
                                    && PodPort(s, p).Some?
                                        && parse(text).Some? :: (parse(text).value, PodPort(s, p).value);
    var found := Listed(reached);
    Sorting(found);
    hide PodPort, Dedup, SortBy;
    var r := Resolution(exists s :: s in slices && s.fqdn, Dedup(SortBy(Itself<Address>, AddressLe, found)));
    assert Resolves(parse, slices, p, r);
  }

  lemma {:induction false} Listed(all: set<Address>) returns (list: seq<Address>)
    ensures forall a :: a in list <==> a in all
    decreases |all|
  {
    list := [];
    if all != {} {
      var x :| x in all;
      list := Listed(all - {x});
      list := [x] + list;
    }
  }

  ghost function ResolutionOf(parse: string -> Option<int>, slices: seq<Slice>, p: ServicePort): (r: Resolution)
    ensures Resolves(parse, slices, p, r)
  {
    ResolutionExists(parse, slices, p);
    var r :| Resolves(parse, slices, p, r);
    r
  }

  // ---- which addresses those are -----------------------------------------------------------------------

  predicate Unnamed(name: Option<string>) {
    name == None || name == Some("")
  }

  predicate SameName(a: Option<string>, b: Option<string>) {
    a == b || (Unnamed(a) && Unnamed(b))
  }

  predicate SameProtocol(a: Option<string>, b: Option<string>) {
    a == b || (a == None && b == Some("TCP")) || (a == Some("TCP") && b == None)
  }

  /** Slice port `i` carries the pods of Service port `p`: the first of its name, and where none has its name a
      sole port without one, of its protocol. */
  predicate Carries(ports: seq<Port>, p: ServicePort, i: int) {
    && 0 <= i < |ports|
    && if SameName(ports[i].name, p.name) then forall k :: 0 <= k < i ==> !SameName(ports[k].name, p.name)
       else |ports| == 1 && Unnamed(ports[0].name) && SameProtocol(ports[0].protocol, p.protocol)
  }

  lemma {:induction false} NamedFirst(ports: seq<Port>, name: Option<string>)
    ensures match FindNamed(ports, OrElse(name, ""))
            case None => forall k :: 0 <= k < |ports| ==> !SameName(ports[k].name, name)
            case Some(found) =>
              exists i :: 0 <= i < |ports| && ports[i] == found && SameName(ports[i].name, name) &&
                          forall k :: 0 <= k < i ==> !SameName(ports[k].name, name)
  {
    if ports != [] {
      var name0 := ports[0].name;
      assert OrElse(name0, "") == OrElse(name, "") <==> SameName(name0, name);
      if SameName(name0, name) {
        assert ports[0] == ports[0] && SameName(ports[0].name, name);
      } else {
        NamedFirst(ports[1..], name);
        var rest := FindNamed(ports[1..], OrElse(name, ""));
        if rest.Some? {
          var i :| 0 <= i < |ports[1..]| && ports[1..][i] == rest.value && SameName(ports[1..][i].name, name) &&
                   forall k :: 0 <= k < i ==> !SameName(ports[1..][k].name, name);
          assert ports[i + 1] == rest.value;
          assert forall k :: 1 <= k < i + 1 ==> ports[1..][k - 1] == ports[k];
        } else {
          assert forall k :: 1 <= k < |ports| ==> ports[1..][k - 1] == ports[k];
        }
      }
    }
  }

  lemma SlicePortCarries(ports: seq<Port>, p: ServicePort)
    ensures SlicePort(ports, p).Some? ==> exists i :: Carries(ports, p, i) && ports[i] == SlicePort(ports, p).value
    ensures forall i :: Carries(ports, p, i) ==> SlicePort(ports, p) == Some(ports[i])
  {
    NamedFirst(ports, p.name);
    if FindNamed(ports, OrElse(p.name, "")).None? && |ports| == 1 {
      assert OrElse(ports[0].protocol, "TCP") == OrElse(p.protocol, "TCP") <==>
          SameProtocol(ports[0].protocol, p.protocol);
      assert SlicePort(ports, p).Some? ==> Carries(ports, p, 0);
    }
  }

  /** Through slice port `i` of `s`, an endpoint not known to be unready spells the address. */
  ghost predicate Spells(parse: string -> Option<int>, s: Slice, i: int, e: Endpoint, text: string, a: Address) {
    && !s.fqdn && 0 <= i < |s.ports| && s.ports[i].number == Some(a.1) && 0 <= a.1 < 0x1_0000
    && e in s.endpoints && (e.ready == None || e.ready == Some(true)) && text in e.addresses && parse(text) == Some(a.0)
  }

  /** A Service port resolves to exactly the addresses its slices spell through the ports that carry its pods. */
  lemma ResolvedExactly(parse: string -> Option<int>, slices: seq<Slice>, p: ServicePort, r: Resolution, a: Address)
    requires Resolves(parse, slices, p, r)
    ensures a in r.addresses <==>
            exists s, i, e, text :: s in slices && Carries(s.ports, p, i) && Spells(parse, s, i, e, text, a)
  {
    hide SlicePort;
    if a in r.addresses {
      var s :| s in slices && Reaches(parse, s, p, a);
      SlicePortCarries(s.ports, p);
      var e, text :| e in s.endpoints && Ready(e) && text in e.addresses && parse(text) == Some(a.0);
      var i :| Carries(s.ports, p, i) && s.ports[i] == SlicePort(s.ports, p).value;
      assert e.ready.Some? && !e.ready.value ==> e.ready == Some(false);
      assert e.ready == None || e.ready == Some(true);
      assert Spells(parse, s, i, e, text, a);
    }
    if s, i, e, text :| s in slices && Carries(s.ports, p, i) && Spells(parse, s, i, e, text, a) {
      SlicePortCarries(s.ports, p);
      assert PodPort(s, p) == Some(a.1) && Ready(e);
      assert Reaches(parse, s, p, a);
    }
  }

  /** The addresses are listed from the least, each once: by IP, then by port. */
  lemma ResolvedAscending(parse: string -> Option<int>, slices: seq<Slice>, p: ServicePort, r: Resolution)
    requires Resolves(parse, slices, p, r)
    ensures forall i, j :: 0 <= i < j < |r.addresses| ==>
              || r.addresses[i].0 < r.addresses[j].0
              || (r.addresses[i].0 == r.addresses[j].0 && r.addresses[i].1 < r.addresses[j].1)
  {
    forall i, j | 0 <= i < j < |r.addresses|
      ensures r.addresses[i].0 < r.addresses[j].0
              || (r.addresses[i].0 == r.addresses[j].0 && r.addresses[i].1 < r.addresses[j].1)
    {
      assert AddressLe(r.addresses[i], r.addresses[j]) && r.addresses[i] != r.addresses[j];
    }
  }

  /** A slice feeds the Service its label names in its own namespace, the default one if it has none. */
  lemma FeedingExactly(slices: seq<Slice>, service: Service, s: Slice)
    ensures s in Feeding(slices, service) <==>
            && s in slices && s.service == Some(service.1)
            && (s.namespace == Some(service.0) || (s.namespace == None && service.0 == "default"))
  {
    OfKeyMember(ServiceOf, Some(service), slices, s);
  }

  // ---- adding a route to a Service ---------------------------------------------------------------------------

  /** A Service: its ports, its uid, and what its annotations ask of its cluster. */
  datatype ServiceObject = ServiceObject(ports: seq<ServicePort>, uid: string, settings: Settings)

  /** A health check, if any, or why the annotations that ask for one are unusable. */
  datatype HealthCheck = Checked(check: Option<string>) | Unusable(reason: string)

  datatype Settings = Settings(balancing: string, sticky: bool, connections: Option<nat>, retryAfter: Option<nat>,
                               health: HealthCheck)

  /** How a backend reference names a port: by number, by number with TCP preferred, or by name. */
  datatype PortRef = Number(number: int) | HttpNumber(number: int) | Named(name: string)

  datatype Problem =
    | ServiceNotFound(service: string)
    | ServicePortNotFound(service: string, port: string)
    | FqdnEndpoints(service: string)
    | InvalidHealthCheck(service: string, reason: string)
    | Other(text: string)

  datatype Cluster = Cluster(id: string, balancing: string, sticky: bool, httpsRedirect: bool, connections: Option<nat>,
                             retryAfter: Option<nat>, http2: bool, check: Option<string>)

  datatype Backend = Backend(cluster: string, id: string, address: Address, sticky: Option<string>)

  datatype Answer = Routed(cluster: string, ready: bool) | Refused(problem: Problem)

  /** Foreign functions: reading an IP address, spelling addresses and numbers, and the cookie values of the
      backends of a sticky cluster. */
  datatype Env = Env(parse: string -> Option<int>, spell: Address -> string, decimal: int -> string,
                     cookies: (string, seq<string>) -> seq<string>)

  type Services = map<Service, ServiceObject>

  function Protocol(p: ServicePort): string {
    OrElse(p.protocol, "TCP")
  }

  function FindPort(ports: seq<ServicePort>, wanted: ServicePort -> bool): Option<ServicePort> {
    if ports == [] then None else if wanted(ports[0]) then Some(ports[0]) else FindPort(ports[1..], wanted)
  }

  function FirstWith(ports: seq<ServicePort>, number: int): Option<ServicePort> {
    FindPort(ports, (p: ServicePort) => p.number == number)
  }

  function FindRef(ports: seq<ServicePort>, ref: PortRef): Option<ServicePort> {
    match ref
    case Number(n) => FirstWith(ports, n)
    case HttpNumber(n) =>
      var tcp := FindPort(ports, (p: ServicePort) => p.number == n && Protocol(p) == "TCP");
      if tcp.Some? then tcp else FirstWith(ports, n)
    case Named(name) => FindPort(ports, (p: ServicePort) => p.name == Some(name))
  }

  /** The id of the cluster a port maps to: a later entry of a number has its protocol appended. */
  function ClusterId(env: Env, service: Service, ports: seq<ServicePort>, p: ServicePort): string {
    var base := service.0 + "." + service.1 + "." + env.decimal(p.number);
    var first := FirstWith(ports, p.number);
    if first.Some? && Protocol(first.value) == Protocol(p) then base else base + "." + Lower(Protocol(p))
  }

  datatype Found = Found(port: ServicePort, cluster: string) | Missing(problem: Problem)

  function FindServicePort(env: Env, services: Services, service: Service, ref: PortRef): Found {
    if service !in services then Missing(ServiceNotFound(service.1))
    else
      var ports := services[service].ports;
      var port := FindRef(ports, ref);
      if port.None? then
        Missing(ServicePortNotFound(service.1, if ref.Named? then ref.name else env.decimal(ref.number)))
      else Found(port.value, ClusterId(env, service, ports, port.value))
  }

  function Push(problems: seq<Problem>, problem: Problem): seq<Problem> {
    if problem in problems then problems else problems + [problem]
  }

  function BackendId(env: Env, cluster: string, a: Address): string {
    cluster + "#" + env.spell(a)
  }

  function BackendIds(env: Env, cluster: string, addresses: seq<Address>): seq<string> {
    if addresses == [] then []
    else BackendIds(env, cluster, addresses[..|addresses| - 1]) + [BackendId(env, cluster, addresses[|addresses| - 1])]
  }

  /** `backends` with one for each of the first `n` addresses that has none yet. */
  function WithBackends(env: Env, backends: map<string, Backend>, cluster: string, addresses: seq<Address>,
                        cookies: Option<seq<string>>, n: nat): map<string, Backend>
    requires n <= |addresses|
  {
    if n == 0 then backends
    else
      var before := WithBackends(env, backends, cluster, addresses, cookies, n - 1);
      var id := BackendId(env, cluster, addresses[n - 1]);
      if id in before then before
      else before[id := Backend(cluster, id, addresses[n - 1], CookieAt(cookies, n - 1))]
  }

  function CookieAt(cookies: Option<seq<string>>, n: nat): Option<string> {
    if cookies.Some? && n < |cookies.value| then Some(cookies.value[n]) else None
  }

  function ClusterFor(id: string, s: Settings): Cluster {
    Cluster(id, s.balancing, s.sticky, false, s.connections, s.retryAfter, false,
            if s.health.Checked? then s.health.check else None)
  }

  /** What a build has put together so far. */
  datatype Parts = Parts(clusters: map<string, Cluster>, backends: map<string, Backend>, referenced: set<string>)

  datatype Effect = Effect(parts: Parts, answer: Answer, problems: seq<Problem>)

  /** What adding a route to a Service does, from the slices that feed that Service alone. */
  ghost function Added(env: Env, services: Services, feeding: seq<Slice>, parts: Parts, call: Call): Effect {
    var recorded := parts.(referenced := parts.referenced + {KeyOf(call.service)});
    match FindServicePort(env, services, call.service, call.ref)
    case Missing(problem) => Effect(recorded, Refused(problem), call.problems)
    case Found(port, id) =>
      var resolved := ResolutionOf(env.parse, feeding, port);
      var settings := if call.service in services then services[call.service].settings else NO_SETTINGS;
      var uid := if call.service in services then services[call.service].uid else "";
      var told := if resolved.fqdnIgnored then Push(call.problems, FqdnEndpoints(call.service.1)) else call.problems;
      var problems := if settings.health.Checked? then told
                      else Push(told, InvalidHealthCheck(KeyOf(call.service), settings.health.reason));
      var clusters := if id in parts.clusters then parts.clusters else parts.clusters[id := ClusterFor(id, settings)];
      var cookies := if clusters[id].sticky then Some(env.cookies(uid, BackendIds(env, id, resolved.addresses)))
          else None;
      var backends := WithBackends(env, parts.backends, id, resolved.addresses, cookies, |resolved.addresses|);
      Effect(recorded.(clusters := clusters, backends := backends), Routed(id, resolved.addresses != []), problems)
  }

  const NO_SETTINGS := Settings("", false, None, None, Checked(None))

  /** One call: the Service and port a route names, and the problems its object has so far. */
  datatype Call = Call(service: Service, ref: PortRef, problems: seq<Problem>)

  /** The accumulators every route of a build shares. */
  class Accumulators {
    var clusters: map<string, Cluster>
    var backends: map<string, Backend>
    var referenced: set<string>

    constructor ()
      ensures View() == Parts(map[], map[], {})
    {
      clusters, backends, referenced := map[], map[], {};
    }

    ghost function View(): Parts
      reads this
    {
      Parts(clusters, backends, referenced)
    }

    /** Resolves a Service and port and adds its cluster and backends. The Service is recorded first, so whatever
        comes of it; a Service or port that is missing ends it there; a cluster or backend there already stays. */
    method AddServiceRoute(env: Env, services: Services, index: map<Service, seq<Slice>>, call: Call)
        returns (answer: Answer, problems: seq<Problem>)
      modifies this
      ensures Effect(View(), answer, problems) == Added(env, services, Lookup(index, call.service), old(View()), call)
      ensures referenced == old(referenced) + {KeyOf(call.service)}
    {
      problems := call.problems;
      referenced := referenced + {KeyOf(call.service)};
      var found := FindServicePort(env, services, call.service, call.ref);
      if found.Missing? {
        return Refused(found.problem), problems;
      }
      var id, service := found.cluster, services[call.service];
      var resolved := Resolved(env, Lookup(index, call.service), found.port);
      if resolved.fqdnIgnored {
        problems := Push(problems, FqdnEndpoints(call.service.1));
      }
      if service.settings.health.Unusable? {
        problems := Push(problems, InvalidHealthCheck(KeyOf(call.service), service.settings.health.reason));
      }
      if id !in clusters {
        clusters := clusters[id := ClusterFor(id, service.settings)];
      }
      var cookies := None;
      if clusters[id].sticky {
        var ids := BackendIds(env, id, resolved.addresses);
        cookies := Some(env.cookies(service.uid, ids));
      }
      AddBackends(env, id, resolved.addresses, cookies);
      answer := Routed(id, resolved.addresses != []);
    }

    method AddBackends(env: Env, cluster: string, addresses: seq<Address>, cookies: Option<seq<string>>)
      modifies this`backends
      ensures backends == WithBackends(env, old(backends), cluster, addresses, cookies, |addresses|)
    {
      for i := 0 to |addresses|
        invariant backends == WithBackends(env, old(backends), cluster, addresses, cookies, i)
      {
        var id := BackendId(env, cluster, addresses[i]);
        if id !in backends {
          backends := backends[id := Backend(cluster, id, addresses[i], CookieAt(cookies, i))];
        }
      }
    }
  }

  method Resolved(env: Env, slices: seq<Slice>, p: ServicePort) returns (r: Resolution)
    ensures r == ResolutionOf(env.parse, slices, p)
  {
    r := ResolveBackends(env.parse, slices, p);
    ResolutionIsOrderFree(env.parse, slices, slices, p, r, ResolutionOf(env.parse, slices, p));
  }

  /** The first reference fixes a cluster and a backend, and a reference that fails adds nothing but its record. */
  lemma AddedKeeps(env: Env, services: Services, feeding: seq<Slice>, parts: Parts, call: Call)
    ensures var e := Added(env, services, feeding, parts, call);
            && (forall id :: id in parts.clusters ==>
                id in e.parts.clusters && e.parts.clusters[id] == parts.clusters[id])
            && (forall id :: id in parts.backends ==>
                id in e.parts.backends && e.parts.backends[id] == parts.backends[id])
            && KeyOf(call.service) in e.parts.referenced && parts.referenced <= e.parts.referenced
            && (e.answer.Refused? ==> e.parts.clusters == parts.clusters && e.parts.backends == parts.backends
                                      && e.problems == call.problems)
            && call.problems <= e.problems
  {
    hide ResolutionOf, FindServicePort, WithBackends;
    var found := FindServicePort(env, services, call.service, call.ref);
    if found.Found? {
      var addresses := ResolutionOf(env.parse, feeding, found.port).addresses;
      forall cookies ensures Keeps(parts.backends,
                                   WithBackends(env, parts.backends, found.cluster, addresses, cookies, |addresses|)) {
        BackendsKept(env, parts.backends, found.cluster, addresses, cookies, |addresses|);
      }
    }
  }

  ghost predicate Keeps(before: map<string, Backend>, after: map<string, Backend>) {
    forall id :: id in before ==> id in after && after[id] == before[id]
  }

  lemma {:induction false} BackendsKept(env: Env, backends: map<string, Backend>, cluster: string,
                                        addresses: seq<Address>, cookies: Option<seq<string>>, n: nat)
    requires n <= |addresses|
    ensures Keeps(backends, WithBackends(env, backends, cluster, addresses, cookies, n))
  {
    if n > 0 {
      BackendsKept(env, backends, cluster, addresses, cookies, n - 1);
    }
  }

  // ---- what a route gets ---------------------------------------------------------------------------------

  /** The port a reference names: by name, or by number, where an HTTP route takes the TCP entry if there is one. */
  predicate Takes(ports: seq<ServicePort>, ref: PortRef, i: int) {
    && 0 <= i < |ports|
    && match ref
       case Named(name) => ports[i].name == Some(name)
       case Number(n) => ports[i].number == n
       case HttpNumber(n) =>
         && ports[i].number == n
         && ((ports[i].protocol == None || ports[i].protocol == Some("TCP")) ||
             forall k :: 0 <= k < |ports| && ports[k].number == n ==>
               ports[k].protocol != None && ports[k].protocol != Some("TCP"))
  }

  predicate FirstTaken(ports: seq<ServicePort>, ref: PortRef, i: int) {
    Takes(ports, ref, i) && forall k :: 0 <= k < i ==> !Takes(ports, ref, k)
  }

  lemma {:induction false} PortFound(ports: seq<ServicePort>, wanted: ServicePort -> bool)
    ensures match FindPort(ports, wanted)
            case None => forall k :: 0 <= k < |ports| ==> !wanted(ports[k])
            case Some(p) =>
              exists i :: 0 <= i < |ports| && ports[i] == p && wanted(p) && forall k :: 0 <= k < i ==> !wanted(ports[k])
  {
    if ports != [] {
      if wanted(ports[0]) {
        assert ports[0] == ports[0];
      } else {
        PortFound(ports[1..], wanted);
        assert forall k :: 1 <= k < |ports| ==> ports[1..][k - 1] == ports[k];
        var rest := FindPort(ports[1..], wanted);
        if rest.Some? {
          var i :| 0 <= i < |ports[1..]| && ports[1..][i] == rest.value &&
                   forall k :: 0 <= k < i ==> !wanted(ports[1..][k]);
          assert ports[i + 1] == rest.value;
        }
      }
    }
  }

  lemma IsTcp(p: ServicePort)
    ensures Protocol(p) == "TCP" <==> p.protocol == None || p.protocol == Some("TCP")
  {
  }

  /** A reference finds the first port it takes. */
  lemma RefFindsFirst(ports: seq<ServicePort>, ref: PortRef)
    ensures match FindRef(ports, ref)
            case None => forall i :: !Takes(ports, ref, i)
            case Some(p) => exists i :: FirstTaken(ports, ref, i) && ports[i] == p
  {
    hide FindPort, Protocol;
    forall i | 0 <= i < |ports|
      ensures Protocol(ports[i]) == "TCP" <==> ports[i].protocol == None || ports[i].protocol == Some("TCP")
    {
      IsTcp(ports[i]);
    }
    match ref
    case Number(n) => PortFound(ports, (p: ServicePort) => p.number == n);
    case Named(name) => PortFound(ports, (p: ServicePort) => p.name == Some(name));
    case HttpNumber(n) =>
      PortFound(ports, (p: ServicePort) => p.number == n && Protocol(p) == "TCP");
      PortFound(ports, (p: ServicePort) => p.number == n);
  }

  /** The entries of one number are kept apart by protocol: each has its own cluster, the first under the plain
      id. */
  lemma TwinsHaveOwnClusters(env: Env, service: Service, ports: seq<ServicePort>, p: ServicePort, q: ServicePort)
    requires p in ports && q in ports && p.number == q.number
    ensures Lower(Protocol(p)) != Lower(Protocol(q)) ==>
              ClusterId(env, service, ports, p) != ClusterId(env, service, ports, q)
    ensures Protocol(p) == Protocol(q) ==> ClusterId(env, service, ports, p) == ClusterId(env, service, ports, q)
    ensures (exists i :: FirstTaken(ports, Number(p.number), i) && ports[i] == p) ==>
              ClusterId(env, service, ports, p) == service.0 + "." + service.1 + "." + env.decimal(p.number)
  {
    hide Lower, Protocol;
    var base := service.0 + "." + service.1 + "." + env.decimal(p.number);
    PortFound(ports, (x: ServicePort) => x.number == p.number);
    PortFound(ports, (x: ServicePort) => x.number == q.number);
    var x, y := ClusterId(env, service, ports, p), ClusterId(env, service, ports, q);
    var long := base + ".";
    assert x == base || x == long + Lower(Protocol(p));
    assert y == base || y == long + Lower(Protocol(q));
    assert |long| > |base|;
    var first := FirstWith(ports, p.number);
    if i :| FirstTaken(ports, Number(p.number), i) && ports[i] == p {
      var j :| 0 <= j < |ports| && ports[j] == first.value && forall k :: 0 <= k < j ==> ports[k].number != p.number;
      assert Takes(ports, Number(p.number), j);
      assert i == j;
    }
    if x == long + Lower(Protocol(p)) && y == long + Lower(Protocol(q)) {
      assert x[|long|..] == Lower(Protocol(p)) && y[|long|..] == Lower(Protocol(q));
    }
  }

  lemma {:induction false} EachHasBackend(env: Env, backends: map<string, Backend>, cluster: string,
                                          addresses: seq<Address>, cookies: Option<seq<string>>, n: nat)
    requires n <= |addresses|
    ensures var after := WithBackends(env, backends, cluster, addresses, cookies, n);
            && (forall i :: 0 <= i < n ==> BackendId(env, cluster, addresses[i]) in after)
            && (forall id :: id in after && id !in backends ==>
                  exists i :: 0 <= i < n && id == BackendId(env, cluster, addresses[i])
                              && after[id] == Backend(cluster, id, addresses[i], CookieAt(cookies, i)))
  {
    hide BackendId, CookieAt;
    if n > 0 {
      EachHasBackend(env, backends, cluster, addresses, cookies, n - 1);
    }
  }

  /** The cookie of the backend of address `i`: none unless its cluster is sticky, else the one made for its id. */
  function StickyFor(env: Env, cluster: Cluster, uid: string, addresses: seq<Address>, i: nat): Option<string> {
    var ids := seq(|addresses|, k requires 0 <= k < |addresses| => cluster.id + "#" + env.spell(addresses[k]));
    if cluster.sticky && i < |env.cookies(uid, ids)| then Some(env.cookies(uid, ids)[i]) else None
  }

  lemma {:induction false} IdsSpelled(env: Env, cluster: string, addresses: seq<Address>)
    ensures BackendIds(env, cluster, addresses) ==
            seq(|addresses|, k requires 0 <= k < |addresses| => cluster + "#" + env.spell(addresses[k]))
  {
    if addresses != [] {
      IdsSpelled(env, cluster, addresses[..|addresses| - 1]);
    }
  }

  /** The port a call names, with what it resolves to. */
  ghost function ResolvedFor(env: Env, services: Services, feeding: seq<Slice>, call: Call): Resolution
    requires call.service in services && FindRef(services[call.service].ports, call.ref).Some?
  {
    ResolutionOf(env.parse, feeding, FindRef(services[call.service].ports, call.ref).value)
  }

  lemma RoutedIsFound(env: Env, services: Services, feeding: seq<Slice>, parts: Parts, call: Call)
    requires Added(env, services, feeding, parts, call).answer.Routed?
    ensures call.service in services && FindRef(services[call.service].ports, call.ref).Some?
  {
    hide FindRef, ClusterId, WithBackends, ResolutionOf;
  }

  /** What a routed reference leaves of its cluster: as the Service's settings ask if it is new, and no other
      cluster is added; what is unusable about the Service is told. */
  lemma RouteHasCluster(env: Env, services: Services, feeding: seq<Slice>, parts: Parts, call: Call)
    requires call.service in services && FindRef(services[call.service].ports, call.ref).Some?
    requires Added(env, services, feeding, parts, call).answer.Routed?
    ensures var e := Added(env, services, feeding, parts, call);
            var s := services[call.service].settings;
            var id := e.answer.cluster;
            && id in e.parts.clusters
            && (forall other :: other in e.parts.clusters && other != id ==> other in parts.clusters)
            && (id !in parts.clusters ==>
                  var c := e.parts.clusters[id];
                  && c.id == id && c.balancing == s.balancing && c.sticky == s.sticky && !c.httpsRedirect
                  && c.connections == s.connections && c.retryAfter == s.retryAfter && !c.http2
                  && c.check == if s.health.Checked? then s.health.check else None)
            && (ResolvedFor(env, services, feeding, call).fqdnIgnored ==>
                  FqdnEndpoints(call.service.1) in e.problems)
            && (s.health.Unusable? ==>
                  InvalidHealthCheck(call.service.0 + "/" + call.service.1, s.health.reason) in e.problems)
  {
    hide WithBackends, ClusterId, FindRef, ResolutionOf;
  }

  ghost predicate ListedOnce(problems: seq<Problem>) {
    forall i, j :: 0 <= i < j < |problems| ==> problems[i] != problems[j]
  }

  /** An object is told each thing once, and nothing else than what concerns this Service. */
  lemma ToldOnce(env: Env, services: Services, feeding: seq<Slice>, parts: Parts, call: Call)
    requires ListedOnce(call.problems)
    ensures var problems := Added(env, services, feeding, parts, call).problems;
            && ListedOnce(problems) && call.problems <= problems
            && forall p :: p in problems && p !in call.problems ==>
                 || p == FqdnEndpoints(call.service.1)
                 || (p.InvalidHealthCheck? && p.service == call.service.0 + "/" + call.service.1)
  {
    hide WithBackends, FindServicePort, ResolutionOf;
    var found := FindServicePort(env, services, call.service, call.ref);
    if found.Found? {
      var resolved := ResolutionOf(env.parse, feeding, found.port);
      var told := if resolved.fqdnIgnored then Push(call.problems, FqdnEndpoints(call.service.1)) else call.problems;
      assert ListedOnce(told);
    }
  }

  /** A reference is refused when there is no such Service, or no port of it that the reference takes; the refusal
      names the Service, and the port as it was asked for. */
  lemma RefusedSays(env: Env, services: Services, feeding: seq<Slice>, parts: Parts, call: Call)
    ensures var answer := Added(env, services, feeding, parts, call).answer;
            if call.service !in services then answer == Refused(ServiceNotFound(call.service.1))
            else if forall i :: !Takes(services[call.service].ports, call.ref, i) then
              answer == Refused(ServicePortNotFound(call.service.1,
                match call.ref case Named(name) => name case Number(n) => env.decimal(n)
                               case HttpNumber(n) => env.decimal(n)))
            else answer.Routed?
  {
    hide WithBackends, ResolutionOf, ClusterId, FindRef, Takes;
    if call.service in services {
      RefFindsFirst(services[call.service].ports, call.ref);
    }
  }

  lemma BackendsAre(env: Env, services: Services, feeding: seq<Slice>, parts: Parts, call: Call)
      returns (cookies: Option<seq<string>>)
    requires call.service in services && FindRef(services[call.service].ports, call.ref).Some?
    requires Added(env, services, feeding, parts, call).answer.Routed?
    ensures var e := Added(env, services, feeding, parts, call);
            var addresses := ResolvedFor(env, services, feeding, call).addresses;
            var id := e.answer.cluster;
            && id in e.parts.clusters && (e.answer.ready <==> addresses != [])
            && cookies == (if e.parts.clusters[id].sticky
                           then Some(env.cookies(services[call.service].uid, BackendIds(env, id, addresses))) else None)
            && e.parts.backends == WithBackends(env, parts.backends, id, addresses, cookies, |addresses|)
  {
    hide WithBackends, ClusterId, FindRef, ResolutionOf;
    var e := Added(env, services, feeding, parts, call);
    var id := e.answer.cluster;
    cookies := if e.parts.clusters[id].sticky
        then Some(env.cookies(services[call.service].uid,
                              BackendIds(env, id, ResolvedFor(env, services, feeding, call).addresses)))
        else None;
  }

  /** What a routed reference leaves of its backends: ready exactly when some address resolved; for every address
      a backend of its cluster, a new one with the address and, in a sticky cluster, the cookie made for it. */
  lemma RouteHasBackends(env: Env, services: Services, feeding: seq<Slice>, parts: Parts, call: Call)
    requires call.service in services && FindRef(services[call.service].ports, call.ref).Some?
    requires Added(env, services, feeding, parts, call).answer.Routed?
    requires forall id :: id in parts.clusters ==> parts.clusters[id].id == id
    ensures var e := Added(env, services, feeding, parts, call);
            var addresses := ResolvedFor(env, services, feeding, call).addresses;
            var id := e.answer.cluster;
            && id in e.parts.clusters && (e.answer.ready <==> exists a :: a in addresses)
            && (forall a :: a in addresses ==> id + "#" + env.spell(a) in e.parts.backends)
            && (forall k :: k in e.parts.backends && k !in parts.backends ==>
                  NewBackend(env, e.parts.clusters[id], services[call.service].uid, addresses, e.parts.backends[k], k))
  {
    var cookies := BackendsAre(env, services, feeding, parts, call);
    AddedKeeps(env, services, feeding, parts, call);
    RouteHasCluster(env, services, feeding, parts, call);
    hide Added, WithBackends, ClusterId, FindRef, ResolvedFor, BackendIds, NewBackend;
    var e := Added(env, services, feeding, parts, call);
    var addresses := ResolvedFor(env, services, feeding, call).addresses;
    assert e.answer.ready <==> exists a :: a in addresses by {
      if e.answer.ready {
        assert addresses[0] in addresses;
      }
    }
    MadeBackends(env, parts.backends, e.parts.clusters[e.answer.cluster], services[call.service].uid, addresses,
                 cookies);
  }

  lemma MadeBackends(env: Env, backends: map<string, Backend>, c: Cluster, uid: string, addresses: seq<Address>,
                     cookies: Option<seq<string>>)
    requires cookies == if c.sticky then Some(env.cookies(uid, BackendIds(env, c.id, addresses))) else None
    ensures var after := WithBackends(env, backends, c.id, addresses, cookies, |addresses|);
            && (forall a :: a in addresses ==> c.id + "#" + env.spell(a) in after)
            && (forall k :: k in after && k !in backends ==> NewBackend(env, c, uid, addresses, after[k], k))
  {
    hide WithBackends, BackendIds;
    IdsSpelled(env, c.id, addresses);
    EachHasBackend(env, backends, c.id, addresses, cookies, |addresses|);
    var after := WithBackends(env, backends, c.id, addresses, cookies, |addresses|);
    forall a | a in addresses ensures c.id + "#" + env.spell(a) in after {
      var i :| 0 <= i < |addresses| && addresses[i] == a;
      assert BackendId(env, c.id, addresses[i]) in after;
    }
    forall k | k in after && k !in backends ensures NewBackend(env, c, uid, addresses, after[k], k) {
      var i :| 0 <= i < |addresses| && k == BackendId(env, c.id, addresses[i])
          && after[k] == Backend(c.id, k, addresses[i], CookieAt(cookies, i));
      assert CookieAt(cookies, i) == StickyFor(env, c, uid, addresses, i);
    }
  }

  ghost predicate NewBackend(env: Env, cluster: Cluster, uid: string, addresses: seq<Address>, b: Backend, id: string) {
    && id == b.id == cluster.id + "#" + env.spell(b.address) && b.cluster == cluster.id
    && exists i :: 0 <= i < |addresses| && addresses[i] == b.address
        && b.sticky == StickyFor(env, cluster, uid, addresses, i)
  }

  // ---- any build -----------------------------------------------------------------------------------------

  /** The rest of the build, over its other inputs: any deterministic computation, in state `S`, that makes its
      next call, or none when it has its output, and goes on from the answer. It sees the clusters and backends
      at every turn, and may change them; the Services referenced are recorded by the calls alone. */
  datatype Build<!S> = Build(
    start: S,
    next: (S, map<string, Cluster>, map<string, Backend>) -> Option<Call>,
    take: (S, map<string, Cluster>, map<string, Backend>, Answer, seq<Problem>) -> (S, map<string, Cluster>,
        map<string, Backend>))

  datatype Stage<S> = Stage(inner: S, parts: Parts)

  function NextCall<S>(b: Build<S>, s: Stage<S>): Option<Call> {
    b.next(s.inner, s.parts.clusters, s.parts.backends)
  }

  /** Where a build stands after `n` calls. */
  ghost function After<S>(b: Build<S>, env: Env, services: Services, slices: seq<Slice>, n: nat): Stage<S> {
    if n == 0 then Stage(b.start, Parts(map[], map[], {}))
    else
      var s := After(b, env, services, slices, n - 1);
      var call := NextCall(b, s);
      if call.None? then s
      else
        var e := Added(env, services, Feeding(slices, call.value.service), s.parts, call.value);
        var (inner, clusters, backends) := b.take(s.inner, e.parts.clusters, e.parts.backends, e.answer, e.problems);
        Stage(inner, Parts(clusters, backends, e.parts.referenced))
  }

  /** A build as it runs: the index once, then call after call on the shared accumulators. */
  method RunBuild<S>(b: Build<S>, env: Env, services: Services, slices: seq<Slice>, n: nat)
      returns (inner: S, acc: Accumulators)
    ensures fresh(acc) && Stage(inner, acc.View()) == After(b, env, services, slices, n)
  {
    var index := BuildIndex(slices);
    acc := new Accumulators();
    inner := b.start;
    for i := 0 to n
      invariant fresh(acc) && Stage(inner, acc.View()) == After(b, env, services, slices, i)
    {
      var call := b.next(inner, acc.clusters, acc.backends);
      if call.Some? {
        assert Lookup(index, call.value.service) == Feeding(slices, call.value.service);
        var answer, problems := acc.AddServiceRoute(env, services, index, call.value);
        var (next, clusters, backends) := b.take(inner, acc.clusters, acc.backends, answer, problems);
        inner, acc.clusters, acc.backends := next, clusters, backends;
      }
    }
  }

  // ---- the filter ------------------------------------------------------------------------------------------

  /** `b` is `a` with one slice added, removed or changed. */
  ghost predicate Edited(a: seq<Slice>, b: seq<Slice>, gone: seq<Slice>, come: seq<Slice>) {
    && |gone| <= 1 && |come| <= 1
    && exists before, behind :: a == before + gone + behind && b == before + come + behind
  }

  /** Whether an event about the slice wakes the loop. */
  predicate Pings(referenced: set<string>, s: Slice) {
    referenced == {} || (ServiceOf(s).Some? && KeyOf(ServiceOf(s).value) in referenced)
  }

  /** Before any build references a Service every slice wakes the loop; after, exactly those labelled with a
      referenced one, by its spelled key. */
  lemma PingsExactly(referenced: set<string>, s: Slice)
    ensures Pings(referenced, s) <==>
            || referenced == {}
            || (s.service.Some? && s.namespace.Some? && s.namespace.value + "/" + s.service.value in referenced)
            || (s.service.Some? && s.namespace.None? && "default" + "/" + s.service.value in referenced)
  {
  }

  lemma SameFeeding(a: seq<Slice>, b: seq<Slice>, gone: seq<Slice>, come: seq<Slice>, service: Service)
    requires Edited(a, b, gone, come) && forall s :: s in gone + come ==> ServiceOf(s) != Some(service)
    ensures Feeding(a, service) == Feeding(b, service)
  {
    var before, behind :| a == before + gone + behind && b == before + come + behind;
    var k := Some(service);
    OfKeyAppend(ServiceOf, k, before + gone, behind);
    OfKeyAppend(ServiceOf, k, before, gone);
    OfKeyAppend(ServiceOf, k, before + come, behind);
    OfKeyAppend(ServiceOf, k, before, come);
    assert forall s :: s in gone || s in come ==> s in gone + come;
    assert OfKey(ServiceOf, k, gone) == [] && OfKey(ServiceOf, k, come) == [];
  }

  /** The same build on two lists of slices goes through the same stages as long as no Service the edit touches
      has been referenced. */
  lemma {:induction false} SameBuild<S>(b: Build<S>, env: Env, services: Services, x: seq<Slice>, y: seq<Slice>,
                                        gone: seq<Slice>, come: seq<Slice>, n: nat)
    requires Edited(x, y, gone, come)
    requires forall s :: s in gone + come && ServiceOf(s).Some? ==>
               KeyOf(ServiceOf(s).value) !in After(b, env, services, x, n).parts.referenced
    ensures After(b, env, services, x, n) == After(b, env, services, y, n)
  {
    hide Added;
    if n > 0 {
      var s := After(b, env, services, x, n - 1);
      var call := NextCall(b, s);
      if call.Some? {
        AddedKeeps(env, services, Feeding(x, call.value.service), s.parts, call.value);
        SameBuild(b, env, services, x, y, gone, come, n - 1);
        SameFeeding(x, y, gone, come, call.value.service);
      } else {
        SameBuild(b, env, services, x, y, gone, come, n - 1);
      }
    }
  }

  /** An edit whose slices, before and after, do not wake the loop leaves the whole build as it was: the same
      output after the same calls, the same clusters and backends, and the same Services referenced. */
  lemma UnheardEditsChangeNothing<S>(b: Build<S>, env: Env, services: Services, x: seq<Slice>, y: seq<Slice>,
                                     gone: seq<Slice>, come: seq<Slice>, n: nat)
    requires Edited(x, y, gone, come) && NextCall(b, After(b, env, services, x, n)).None?
    requires forall s :: s in gone + come ==> !Pings(After(b, env, services, x, n).parts.referenced, s)
    ensures After(b, env, services, y, n) == After(b, env, services, x, n)
    ensures NextCall(b, After(b, env, services, y, n)).None?
  {
    SameBuild(b, env, services, x, y, gone, come, n);
  }

  lemma FeedingOne(s: Slice, service: Service)
    ensures Feeding([s], service) == if ServiceOf(s) == Some(service) then [s] else []
  {
    var one := [s];
    assert one[0] == s && one[1..] == [];
    assert OfKey(ServiceOf, Some(service), one) ==
           (if ServiceOf(s) == Some(service) then [s] else []) + OfKey(ServiceOf, Some(service), one[1..]);
  }

  /** The slice before the edit matters too: relabelled from a referenced Service to another, it takes its
      endpoint away, and the event, which shows only the slice as it is now, wakes nothing. */
  lemma RelabelledSliceChangesTheBuild(parse: string -> Option<int>, text: string)
    requires parse(text).Some?
    ensures var p := ServicePort(None, None, 80);
            var was := Slice(Some("ns"), Some("old"), false, [Port(None, None, Some(80))], [Endpoint(None, [text])]);
            var now := was.(service := Some("other"));
            && !Pings({KeyOf(("ns", "old"))}, now)
            && ResolutionOf(parse, Feeding([was], ("ns", "old")), p) !=
                ResolutionOf(parse, Feeding([now], ("ns", "old")), p)
  {
    var p := ServicePort(None, None, 80);
    var was := Slice(Some("ns"), Some("old"), false, [Port(None, None, Some(80))], [Endpoint(None, [text])]);
    var now := was.(service := Some("other"));
    var service := ("ns", "old");
    assert KeyOf(service) == "ns/old" && KeyOf(("ns", "other")) == "ns/other";
    assert |KeyOf(service)| != |KeyOf(("ns", "other"))|;
    assert |"old"| != |"other"|;
    assert ServiceOf(was) == Some(service) && ServiceOf(now) != Some(service);
    FeedingOne(was, service);
    FeedingOne(now, service);
    assert Feeding([was], service) == [was] && Feeding([now], service) == [];
    var a := (parse(text).value, 80);
    assert PodPort(was, p) == Some(80);
    assert was.endpoints[0] in was.endpoints && text in was.endpoints[0].addresses;
    assert Reaches(parse, was, p, a);
    var r, q := ResolutionOf(parse, [was], p), ResolutionOf(parse, [], p);
    assert was in [was];
    assert a in r.addresses && a !in q.addresses;
  }
}
