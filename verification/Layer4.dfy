/** Layer-4 routes: one frontend per socket, for the oldest claim, and every loss on its own parent. */
module Layer4 {
  import opened Base
  import opened Frontends
  import opened Collisions

  datatype Protocol = Tcp | Udp

  type Socket = (Protocol, Listener)

  /** A listener a parent reference selected: its identity, and, once programmed, the socket it binds
      and the port it declares. */
  datatype Selected = Selected(id: string, bind: Option<(Listener, nat)>)

  /** A parent reference: whether it names one of our Gateways, the listeners that accept it, and what resolving
      its backend reported. */
  datatype ParentRef = ParentRef(ours: bool, name: string, selected: seq<Selected>, reported: seq<string>)

  /** A TCPRoute or UDPRoute: its claim, its references and the cluster its backend resolves to. */
  datatype View = View(protocol: Protocol, order: Claim, cluster: Option<string>, refs: seq<ParentRef>)

  datatype Conflict = Conflict(port: nat, protocol: Protocol, winner: string)

  datatype Problem = Lost(conflict: Conflict) | Other(text: string)

  datatype ParentResult = ParentResult(parent: ParentRef, problems: seq<Problem>)

  datatype RouteKind = HttpRoute | L4Route(protocol: Protocol)

  datatype RouteResult = RouteResult(kind: RouteKind, name: string, parents: seq<ParentResult>)

  /** A bid for a socket: what it asks for, its rank, and the indices of the result that hears of its loss. */
  datatype SocketClaim = SocketClaim(socket: Socket, advertised: nat, cluster: string, route: nat, parent: nat,
                                     order: Claim)

  datatype L4Frontend = L4Frontend(socket: Socket, cluster: string)

  // ---- claims --------------------------------------------------------------------------------------

  ghost predicate MadeBy(c: SocketClaim, v: View, r: ParentRef, l: Selected) {
    && r in v.refs && r.ours && l in r.selected && l.bind.Some? && v.cluster == Some(c.cluster)
    && c.socket == (v.protocol, l.bind.value.0) && c.advertised == l.bind.value.1 && c.order == v.order
  }

  /** `c` is reported on the result of the very parent reference that made it. */
  ghost predicate Placed(c: SocketClaim, routes: seq<RouteResult>, v: View, r: ParentRef) {
    && c.route < |routes| && routes[c.route].kind == L4Route(v.protocol) && routes[c.route].name == v.order.name
    && c.parent < |routes[c.route].parents| && routes[c.route].parents[c.parent].parent == r
  }

  /** Through `r`, route `v` asks for the socket of listener `l`. */
  ghost predicate Bids(views: seq<View>, v: View, r: ParentRef, l: Selected) {
    v in views && r in v.refs && r.ours && l in r.selected && l.bind.Some? && v.cluster.Some?
  }

  ghost predicate ClaimsMade(views: seq<View>, routes: seq<RouteResult>, claims: seq<SocketClaim>) {
    forall c :: c in claims ==> exists v, r, l :: v in views && MadeBy(c, v, r, l) && Placed(c, routes, v, r)
  }

  ghost predicate BidsClaimed(views: seq<View>, routes: seq<RouteResult>, claims: seq<SocketClaim>) {
    forall v, r, l :: Bids(views, v, r, l) ==> exists c :: c in claims && MadeBy(c, v, r, l) && Placed(c, routes, v, r)
  }

  ghost predicate ClaimsOfViews(views: seq<View>, routes: seq<RouteResult>, claims: seq<SocketClaim>) {
    ClaimsMade(views, routes, claims) && BidsClaimed(views, routes, claims)
  }

  /** The claim on the socket of `l`. */
  function ClaimOn(v: View, l: Selected, route: nat, parent: nat): SocketClaim
    requires l.bind.Some? && v.cluster.Some?
  {
    SocketClaim((v.protocol, l.bind.value.0), l.bind.value.1, v.cluster.value, route, parent, v.order)
  }

  /** One claim for each of the first `n` selected listeners that binds a socket. */
  function ClaimsFrom(v: View, r: ParentRef, route: nat, parent: nat, n: nat): seq<SocketClaim>
    requires n <= |r.selected| && v.cluster.Some?
  {
    if n == 0 then []
    else
      ClaimsFrom(v, r, route, parent, n - 1) +
      if r.selected[n - 1].bind.Some? then [ClaimOn(v, r.selected[n - 1], route, parent)] else []
  }

  /** The claims one parent reference makes: exactly one per socket it selected, if its backend resolves. */
  method ClaimSockets(v: View, r: ParentRef, route: nat, parent: nat) returns (claims: seq<SocketClaim>)
    requires r in v.refs && r.ours
    ensures claims == if v.cluster.Some? then ClaimsFrom(v, r, route, parent, |r.selected|) else []
    ensures forall c :: c in claims ==> c.route == route && c.parent == parent && exists l :: MadeBy(c, v, r, l)
    ensures forall l :: l in r.selected && l.bind.Some? && v.cluster.Some? ==>
        exists c :: c in claims && MadeBy(c, v, r, l)
  {
    hide ClaimOn, MadeBy;
    claims := [];
    if v.cluster.Some? {
      for n := 0 to |r.selected|
        invariant claims == ClaimsFrom(v, r, route, parent, n)
      {
        if r.selected[n].bind.Some? {
          claims := claims + [ClaimOn(v, r.selected[n], route, parent)];
        }
      }
      hide ClaimsFrom;
      forall c | c in claims ensures c.route == route && c.parent == parent && exists l :: MadeBy(c, v, r, l) {
        var l := ClaimMade(v, r, route, parent, |r.selected|, c);
      }
      forall l | l in r.selected && l.bind.Some? ensures exists c :: c in claims && MadeBy(c, v, r, l) {
        var i :| 0 <= i < |r.selected| && r.selected[i] == l;
        SocketClaimed(v, r, route, parent, |r.selected|, i);
      }
    }
  }

  lemma {:induction false} ClaimMade(v: View, r: ParentRef, route: nat, parent: nat, n: nat, c: SocketClaim)
      returns (l: Selected)
    requires r in v.refs && r.ours && v.cluster.Some? && n <= |r.selected| && c in ClaimsFrom(v, r, route, parent, n)
    ensures c.route == route && c.parent == parent && MadeBy(c, v, r, l)
  {
    l := r.selected[n - 1];
    if c in ClaimsFrom(v, r, route, parent, n - 1) {
      l := ClaimMade(v, r, route, parent, n - 1, c);
    }
  }

  lemma {:induction false} SocketClaimed(v: View, r: ParentRef, route: nat, parent: nat, n: nat, i: nat)
    requires r in v.refs && r.ours && v.cluster.Some? && i < n <= |r.selected| && r.selected[i].bind.Some?
    ensures var c := ClaimOn(v, r.selected[i], route, parent);
            c in ClaimsFrom(v, r, route, parent, n) && MadeBy(c, v, r, r.selected[i])
  {
    if i < n - 1 {
      SocketClaimed(v, r, route, parent, n - 1, i);
    }
  }

  /** The listeners a route is counted on, once each. */
  ghost function AttachedTo(v: View): set<string> {
    set r, l | r in v.refs && r.ours && l in r.selected :: l.id
  }

  ghost predicate ViewClaims(v: View, route: nat, parents: seq<ParentResult>, claims: seq<SocketClaim>, n: nat)
    requires n <= |v.refs|
  {
    && (forall c :: c in claims ==>
          && c.route == route && c.parent < |parents|
          && exists l :: MadeBy(c, v, parents[c.parent].parent, l))
    && (forall r, l :: r in v.refs[..n] && r.ours && l in r.selected && l.bind.Some? && v.cluster.Some? ==>
          exists c :: c in claims && MadeBy(c, v, r, l) && PointsAt(c, parents, r))
    && (forall i :: 0 <= i < |parents| ==> parents[i].problems == Reported(parents[i].parent))
  }

  /** What resolving the backend reported, as the parent's first problems. */
  function Reported(r: ParentRef): seq<Problem> {
    seq(|r.reported|, i requires 0 <= i < |r.reported| => Other(r.reported[i]))
  }

  ghost predicate PointsAt(c: SocketClaim, parents: seq<ParentResult>, r: ParentRef) {
    c.parent < |parents| && parents[c.parent].parent == r
  }

  /** One route's parents, in the order of its references to our Gateways, with its claims. */
  method AttachRoute(v: View, route: nat)
      returns (parents: seq<ParentResult>, claims: seq<SocketClaim>, listeners: set<string>)
    ensures ViewClaims(v, route, parents, claims, |v.refs|)
    ensures listeners == AttachedTo(v)
  {
    parents, claims, listeners := [], [], {};
    for n := 0 to |v.refs|
      invariant ViewClaims(v, route, parents, claims, n)
      invariant listeners == set r, l | r in v.refs[..n] && r.ours && l in r.selected :: l.id
    {
      var r := v.refs[n];
      assert v.refs[..n + 1] == v.refs[..n] + [r];
      if r.ours {
        listeners := listeners + set l | l in r.selected :: l.id;
        var more := ClaimSockets(v, r, route, |parents|);
        NextParent(v, route, parents, claims, n, more);
        claims := claims + more;
        parents := parents + [ParentResult(r, Reported(r))];
      }
    }
    assert v.refs[..|v.refs|] == v.refs;
  }

  lemma NextParent(v: View, route: nat, parents: seq<ParentResult>, claims: seq<SocketClaim>, n: nat,
                   more: seq<SocketClaim>)
    requires n < |v.refs| && ViewClaims(v, route, parents, claims, n) && v.refs[n].ours
    requires forall c :: c in more ==>
               c.route == route && c.parent == |parents| && exists l :: MadeBy(c, v, v.refs[n], l)
    requires forall l :: l in v.refs[n].selected && l.bind.Some? && v.cluster.Some? ==>
        exists c :: c in more && MadeBy(c, v, v.refs[n], l)
    ensures ViewClaims(v, route, parents + [ParentResult(v.refs[n], Reported(v.refs[n]))], claims + more, n + 1)
  {
    hide MadeBy;
    var all, after := claims + more, parents + [ParentResult(v.refs[n], Reported(v.refs[n]))];
    assert v.refs[..n + 1] == v.refs[..n] + [v.refs[n]];
    assert forall c :: c in all <==> c in claims || c in more;
    forall c | c in all
      ensures c.route == route && c.parent < |after| && exists l :: MadeBy(c, v, after[c.parent].parent, l)
    {
      if c in claims {
        assert after[c.parent] == parents[c.parent];
      } else {
        assert after[c.parent].parent == v.refs[n];
      }
    }
    forall r, l | r in v.refs[..n + 1] && r.ours && l in r.selected && l.bind.Some? && v.cluster.Some?
      ensures exists c :: c in all && MadeBy(c, v, r, l) && PointsAt(c, after, r)
    {
      if r in v.refs[..n] {
        var c :| c in claims && MadeBy(c, v, r, l) && PointsAt(c, parents, r);
        assert c in all;
      } else {
        var c :| c in more && MadeBy(c, v, r, l);
        assert c in all;
      }
    }
  }

  function CountAttached(views: seq<View>, id: string): nat {
    if views == [] then 0
    else CountAttached(views[..|views| - 1], id) +
         if exists r, l :: r in views[|views| - 1].refs && r.ours && l in r.selected && l.id == id then 1 else 0
  }

  ghost predicate Attachments(views: seq<View>, attached: map<string, nat>) {
    && (forall id :: id in attached ==> attached[id] == CountAttached(views, id))
    && (forall id :: id !in attached ==> CountAttached(views, id) == 0)
  }

  ghost predicate AttachedAt(views: seq<View>, i: int, id: string) {
    0 <= i < |views| && id in AttachedTo(views[i])
  }

  /** The count of a listener is the number of routes some reference of which selects it. */
  lemma {:induction false} CountIsSize(views: seq<View>, id: string)
    ensures CountAttached(views, id) == |set i | 0 <= i < |views| && AttachedAt(views, i, id)|
  {
    hide AttachedTo;
    if views != [] {
      var n := |views| - 1;
      var most := views[..n];
      CountIsSize(most, id);
      AttachedIs(views[n], id);
      var before := set i | 0 <= i < n && AttachedAt(most, i, id);
      var after := set i | 0 <= i < |views| && AttachedAt(views, i, id);
      assert forall i :: 0 <= i < n ==> (AttachedAt(most, i, id) <==> AttachedAt(views, i, id));
      assert after == before + if AttachedAt(views, n, id) then {n} else {};
    }
  }

  lemma AttachedIs(v: View, id: string)
    ensures id in AttachedTo(v) <==> exists r, l :: r in v.refs && r.ours && l in r.selected && l.id == id
  {
  }

  /** The claims of every route, whose results come after `initial`, those of the other routes; a route none of
      whose references is ours has no result. */
  method CollectClaims(initial: seq<RouteResult>, views: seq<View>)
      returns (routes: seq<RouteResult>, claims: seq<SocketClaim>, attached: map<string, nat>)
    requires Undisputed(initial)
    ensures ClaimsOfViews(views, routes, claims) && Attachments(views, attached)
    ensures Undisputed(routes) && Appended(initial, routes, claims) && ReportedFirst(routes, |initial|)
  {
    hide MadeBy, AttachedTo, ReportedFirst;
    assert ReportedFirst(initial, |initial|) by {
      NothingAppended(initial);
    }
    routes, claims, attached := initial, [], map[];
    for n := 0 to |views|
      invariant ClaimsOfViews(views[..n], routes, claims) && Attachments(views[..n], attached)
      invariant Undisputed(routes) && Appended(initial, routes, claims) && ReportedFirst(routes, |initial|)
    {
      var v := views[n];
      var parents, more, listeners := AttachRoute(v, |routes|);
      assert views[..n + 1] == views[..n] + [v] && views[..n + 1][..n] == views[..n];
      CountNext(views[..n], v, attached, listeners);
      attached := map id | id in attached.Keys + listeners ::
        (if id in attached then attached[id] else 0) + if id in listeners then 1 else 0;
      NextView(views[..n], routes, claims, v, parents, more);
      claims := claims + more;
      if parents != [] {
        NextUndisputed(routes, RouteResult(L4Route(v.protocol), v.order.name, parents));
        NextReported(routes, |initial|, RouteResult(L4Route(v.protocol), v.order.name, parents));
        routes := routes + [RouteResult(L4Route(v.protocol), v.order.name, parents)];
      }
    }
    assert views[..|views|] == views;
  }

  lemma CountNext(views: seq<View>, v: View, attached: map<string, nat>, listeners: set<string>)
    requires Attachments(views, attached) && listeners == AttachedTo(v)
    ensures Attachments(views + [v], map id | id in attached.Keys + listeners ::
                                       (if id in attached then attached[id] else 0) + if id in listeners then 1 else 0)
  {
    assert (views + [v])[..|views|] == views;
  }

  lemma NextView(views: seq<View>, routes: seq<RouteResult>, claims: seq<SocketClaim>, v: View,
                 parents: seq<ParentResult>, more: seq<SocketClaim>)
    requires ClaimsOfViews(views, routes, claims) && ViewClaims(v, |routes|, parents, more, |v.refs|)
    ensures ClaimsOfViews(views + [v],
                          if parents == [] then routes
                              else routes + [RouteResult(L4Route(v.protocol), v.order.name, parents)], claims + more)
  {
    hide MadeBy;
    var all := claims + more;
    var after := if parents == [] then routes else routes + [RouteResult(L4Route(v.protocol), v.order.name, parents)];
    assert forall x :: x in views + [v] <==> x in views || x == v;
    assert v.refs[..|v.refs|] == v.refs;
    forall c | c in all ensures exists w, r, l :: w in views + [v] && MadeBy(c, w, r, l) && Placed(c, after, w, r) {
      if c in claims {
        var w, r, l :| w in views && MadeBy(c, w, r, l) && Placed(c, routes, w, r);
        assert Placed(c, after, w, r);
      } else {
        var l :| MadeBy(c, v, parents[c.parent].parent, l);
        assert Placed(c, after, v, parents[c.parent].parent);
      }
    }
    forall w, r, l | Bids(views + [v], w, r, l)
      ensures exists c :: c in all && MadeBy(c, w, r, l) && Placed(c, after, w, r)
    {
      if w in views {
        assert Bids(views, w, r, l);
        var c :| c in claims && MadeBy(c, w, r, l) && Placed(c, routes, w, r);
        assert c in all && Placed(c, after, w, r);
      } else {
        var c :| c in more && MadeBy(c, v, r, l) && PointsAt(c, parents, r);
        assert c in all && Placed(c, after, v, r);
      }
    }
  }

  // ---- settlement ------------------------------------------------------------------------------------

  function OrderOf(c: SocketClaim): Claim { c.order }

  /** The order claims settle in: oldest first, ties in the order they were made. */
  function Settling(claims: seq<SocketClaim>): (s: seq<SocketClaim>) {
    SortBy(OrderOf, ClaimLe, claims)
  }

  /** The winner of a socket: the first claim on it. */
  function WinnerIn(s: seq<SocketClaim>, socket: Socket): (w: Option<SocketClaim>)
    ensures w.Some? ==> w.value in s && w.value.socket == socket
    ensures w.None? ==> forall c :: c in s ==> c.socket != socket
  {
    if s == [] then None
    else if s[0].socket == socket then Some(s[0])
    else WinnerIn(s[1..], socket)
  }

  /** `c` asks for the cluster its socket's winner routes to. */
  predicate Carried(s: seq<SocketClaim>, c: SocketClaim) {
    var w := WinnerIn(s, c.socket);
    w.Some? && w.value.cluster == c.cluster
  }

  function ConflictOf(c: SocketClaim, winner: SocketClaim): Conflict {
    Conflict(c.advertised, c.socket.0, winner.order.name)
  }

  ghost predicate InPlace(c: SocketClaim, routes: seq<RouteResult>) {
    c.route < |routes| && c.parent < |routes[c.route].parents|
  }

  /** `routes` with `conflict` on the result `c` points at, unless it is there already. */
  function PushProblem(routes: seq<RouteResult>, c: SocketClaim, conflict: Conflict): seq<RouteResult>
    requires InPlace(c, routes)
  {
    var result := routes[c.route];
    var parent := result.parents[c.parent];
    if Lost(conflict) in parent.problems then routes
    else
      var told := parent.(problems := parent.problems + [Lost(conflict)]);
      routes[c.route := result.(parents := result.parents[c.parent := told])]
  }

  /** The same results, with what `b` adds to a parent's problems after those it had. */
  ghost predicate SameShape(a: seq<RouteResult>, b: seq<RouteResult>) {
    |a| == |b| && forall i :: 0 <= i < |a| ==> SameResult(a[i], b[i])
  }

  ghost predicate SameResult(a: RouteResult, b: RouteResult) {
    && a.kind == b.kind && a.name == b.name && |a.parents| == |b.parents|
    && forall j :: 0 <= j < |a.parents| ==>
         a.parents[j].parent == b.parents[j].parent && a.parents[j].problems <= b.parents[j].problems
  }

  /** `p` stands on the result of parent `j` of route `i`. */
  ghost predicate Stands(p: Conflict, i: int, j: int, routes: seq<RouteResult>) {
    0 <= i < |routes| && 0 <= j < |routes[i].parents| && Lost(p) in routes[i].parents[j].problems
  }

  /** `c` lost its socket, and `p`, on the result it points at, says so. */
  ghost predicate LostAt(s: seq<SocketClaim>, c: SocketClaim, i: int, j: int, p: Conflict) {
    && c.route == i && c.parent == j && !Carried(s, c)
    && var w := WinnerIn(s, c.socket); w.Some? && p == ConflictOf(c, w.value)
  }

  /** A settled claim routes, or its loss stands on its own parent's result. */
  ghost predicate Decided(s: seq<SocketClaim>, c: SocketClaim, routes: seq<RouteResult>) {
    Carried(s, c) || exists p :: LostAt(s, c, c.route, c.parent, p) && Stands(p, c.route, c.parent, routes)
  }

  ghost predicate AllDecided(s: seq<SocketClaim>, n: nat, routes: seq<RouteResult>)
    requires n <= |s|
  {
    forall i :: 0 <= i < n ==> Decided(s, s[i], routes)
  }

  /** Every problem on a parent is the loss of a claim that parent made. */
  ghost predicate Justified(s: seq<SocketClaim>, n: nat, routes: seq<RouteResult>)
    requires n <= |s|
  {
    forall i, j, p :: Stands(p, i, j, routes) ==> exists k :: 0 <= k < n && LostAt(s, s[k], i, j, p)
  }

  ghost predicate Won(s: seq<SocketClaim>, n: nat, winners: map<Socket, SocketClaim>)
    requires n <= |s|
  {
    && (forall i :: 0 <= i < n ==> s[i].socket in winners)
    && (forall k :: k in winners ==> exists i :: 0 <= i < n && s[i].socket == k)
    && (forall k :: k in winners ==> WinnerIn(s, k) == Some(winners[k]))
  }

  /** One frontend per socket won, to the winner's cluster. */
  ghost predicate OnePerSocket(frontends: seq<L4Frontend>, winners: map<Socket, SocketClaim>) {
    && (forall f :: f in frontends ==> f.socket in winners && f.cluster == winners[f.socket].cluster)
    && (forall k :: k in winners ==> L4Frontend(k, winners[k].cluster) in frontends)
    && SocketsDistinct(frontends)
  }

  ghost predicate SocketsDistinct(frontends: seq<L4Frontend>) {
    forall i, j :: 0 <= i < j < |frontends| ==> frontends[i].socket != frontends[j].socket
  }

  ghost predicate Carriers(s: seq<SocketClaim>, n: nat, carriers: seq<SocketClaim>)
    requires n <= |s|
  {
    carriers == CarriedOf(s, s[..n])
  }

  /** The claims among `some` that route, in order. */
  function CarriedOf(s: seq<SocketClaim>, some: seq<SocketClaim>): seq<SocketClaim> {
    if some == [] then []
    else CarriedOf(s, some[..|some| - 1]) + if Carried(s, some[|some| - 1]) then [some[|some| - 1]] else []
  }

  lemma {:induction false} WinnerIsFirst(s: seq<SocketClaim>, n: nat)
    requires n < |s| && forall j :: 0 <= j < n ==> s[j].socket != s[n].socket
    ensures WinnerIn(s, s[n].socket) == Some(s[n])
  {
    if n > 0 {
      assert forall j :: 0 <= j < n - 1 ==> s[1..][j] == s[j + 1];
      WinnerIsFirst(s[1..], n - 1);
    }
  }

  lemma WonNext(s: seq<SocketClaim>, n: nat, winners: map<Socket, SocketClaim>)
    requires n < |s| && Won(s, n, winners)
    ensures s[n].socket !in winners ==> Won(s, n + 1, winners[s[n].socket := s[n]]) && Carried(s, s[n])
    ensures s[n].socket in winners ==> Won(s, n + 1, winners) && WinnerIn(s, s[n].socket) == Some(winners[s[n].socket])
  {
    hide WinnerIn;
    var c, after := s[n], winners[s[n].socket := s[n]];
    if c.socket !in winners {
      assert forall j :: 0 <= j < n ==> s[j].socket in winners;
      WinnerIsFirst(s, n);
      forall k | k in after ensures WinnerIn(s, k) == Some(after[k]) && exists i :: 0 <= i < n + 1 && s[i].socket == k {
        if k != c.socket {
          var i :| 0 <= i < n && s[i].socket == k;
        }
      }
    } else {
      forall k | k in winners ensures exists i :: 0 <= i < n + 1 && s[i].socket == k {
        var i :| 0 <= i < n && s[i].socket == k;
      }
    }
  }

  lemma NextFrontend(frontends: seq<L4Frontend>, winners: map<Socket, SocketClaim>, c: SocketClaim)
    requires OnePerSocket(frontends, winners) && c.socket !in winners
    ensures OnePerSocket(frontends + [L4Frontend(c.socket, c.cluster)], winners[c.socket := c])
  {
    var all := frontends + [L4Frontend(c.socket, c.cluster)];
    assert forall f :: f in frontends ==> f in all;
    assert all[|frontends|] in all;
    forall i, j | 0 <= i < j < |all| ensures all[i].socket != all[j].socket {
      assert frontends[i] in frontends;
    }
  }

  lemma CarriersNext(s: seq<SocketClaim>, n: nat, carriers: seq<SocketClaim>)
    requires n < |s| && Carriers(s, n, carriers)
    ensures Carriers(s, n + 1, if Carried(s, s[n]) then carriers + [s[n]] else carriers)
  {
    hide Carried;
    assert s[..n + 1][..n] == s[..n];
  }

  lemma CarriedNext(s: seq<SocketClaim>, n: nat, routes: seq<RouteResult>)
    requires n < |s| && AllDecided(s, n, routes) && Justified(s, n, routes) && Carried(s, s[n])
    ensures AllDecided(s, n + 1, routes) && Justified(s, n + 1, routes)
  {
    hide LostAt, Carried, Stands;
    forall i | 0 <= i < n + 1 ensures Decided(s, s[i], routes) {
      if i < n {
        assert Decided(s, s[i], routes);
      }
    }
  }

  lemma LostNext(s: seq<SocketClaim>, n: nat, routes: seq<RouteResult>, p: Conflict)
    requires n < |s| && AllDecided(s, n, routes) && Justified(s, n, routes)
    requires InPlace(s[n], routes) && LostAt(s, s[n], s[n].route, s[n].parent, p)
    ensures AllDecided(s, n + 1, PushProblem(routes, s[n], p)) && Justified(s, n + 1, PushProblem(routes, s[n], p))
    ensures SameShape(routes, PushProblem(routes, s[n], p))
  {
    var c, after := s[n], PushProblem(routes, s[n], p);
    ProblemPushed(routes, c, p);
    hide LostAt, Carried, Stands, PushProblem, SameShape;
    forall i | 0 <= i < n + 1 ensures Decided(s, s[i], after) {
      if i < n {
        assert Decided(s, s[i], routes);
      }
    }
    forall i, j, q | Stands(q, i, j, after) ensures exists k :: 0 <= k < n + 1 && LostAt(s, s[k], i, j, q) {
      if Stands(q, i, j, routes) {
        var k :| 0 <= k < n && LostAt(s, s[k], i, j, q);
      } else {
        assert LostAt(s, s[n], i, j, q);
      }
    }
  }

  lemma ProblemPushed(routes: seq<RouteResult>, c: SocketClaim, p: Conflict)
    requires InPlace(c, routes)
    ensures SameShape(routes, PushProblem(routes, c, p))
    ensures forall q, i, j :: Stands(q, i, j, PushProblem(routes, c, p)) <==>
                                Stands(q, i, j, routes) || (q == p && i == c.route && j == c.parent)
  {
    var after := PushProblem(routes, c, p);
    assert SameShape(routes, after);
    forall q, i, j ensures Stands(q, i, j, after) <==>
        Stands(q, i, j, routes) || (q == p && i == c.route && j == c.parent) {
      if 0 <= i < |routes| && 0 <= j < |routes[i].parents| {
        assert i != c.route ==> after[i] == routes[i];
        assert i == c.route && j != c.parent ==> after[i].parents[j] == routes[i].parents[j];
      }
    }
  }

  /** A result no claim points at stays as it was. */
  ghost predicate Untouched(claims: seq<SocketClaim>, a: seq<RouteResult>, b: seq<RouteResult>) {
    |a| == |b| && forall i :: 0 <= i < |a| && (forall c :: c in claims ==> c.route != i) ==> b[i] == a[i]
  }

  lemma StillUntouched(claims: seq<SocketClaim>, initial: seq<RouteResult>, routes: seq<RouteResult>, c: SocketClaim,
                       p: Conflict)
    requires Untouched(claims, initial, routes) && InPlace(c, routes) && c in claims
    ensures Untouched(claims, initial, PushProblem(routes, c, p))
  {
  }

  lemma SameShapeLaws(a: seq<RouteResult>, b: seq<RouteResult>, c: seq<RouteResult>)
    ensures SameShape(a, a)
    ensures SameShape(a, b) && SameShape(b, c) ==> SameShape(a, c)
  {
  }

  lemma StillInPlace(c: SocketClaim, a: seq<RouteResult>, b: seq<RouteResult>)
    requires InPlace(c, a) && SameShape(a, b)
    ensures InPlace(c, b)
  {
  }

  /** No socket conflict is reported yet. */
  ghost predicate Undisputed(routes: seq<RouteResult>) {
    forall p, i, j :: !Stands(p, i, j, routes)
  }

  /** The results of the other routes come first, and no claim points at them. */
  ghost predicate Appended(initial: seq<RouteResult>, routes: seq<RouteResult>, claims: seq<SocketClaim>) {
    initial <= routes && forall c :: c in claims ==> |initial| <= c.route
  }

  lemma NextUndisputed(routes: seq<RouteResult>, result: RouteResult)
    requires Undisputed(routes)
    requires forall i :: 0 <= i < |result.parents| ==> result.parents[i].problems == Reported(result.parents[i].parent)
    ensures Undisputed(routes + [result])
  {
    var more := routes + [result];
    forall p, i, j ensures !Stands(p, i, j, more) {
      if 0 <= i < |routes| {
        assert more[i] == routes[i] && !Stands(p, i, j, routes);
      }
    }
  }

  /** On every result from the `n`th on, what resolving the backend reported stands first, in order. */
  ghost predicate ReportedFirst(routes: seq<RouteResult>, n: nat) {
    forall i, j :: n <= i < |routes| && 0 <= j < |routes[i].parents| ==> ReportsFirst(routes[i].parents[j])
  }

  predicate ReportsFirst(result: ParentResult) {
    && |result.parent.reported| <= |result.problems|
    && forall k :: 0 <= k < |result.parent.reported| ==> result.problems[k] == Other(result.parent.reported[k])
  }

  lemma NothingAppended(routes: seq<RouteResult>)
    ensures ReportedFirst(routes, |routes|)
  {
  }

  lemma NextReported(routes: seq<RouteResult>, n: nat, result: RouteResult)
    requires ReportedFirst(routes, n)
    requires forall j :: 0 <= j < |result.parents| ==> result.parents[j].problems == Reported(result.parents[j].parent)
    ensures ReportedFirst(routes + [result], n)
  {
  }

  lemma ReportedStays(a: seq<RouteResult>, b: seq<RouteResult>, n: nat)
    requires ReportedFirst(a, n) && SameShape(a, b)
    ensures ReportedFirst(b, n)
  {
    forall i, j | n <= i < |b| && 0 <= j < |b[i].parents| ensures ReportsFirst(b[i].parents[j]) {
      assert SameResult(a[i], b[i]) && ReportsFirst(a[i].parents[j]);
    }
  }

  /** No result tells one conflict twice. */
  ghost predicate ToldOnce(routes: seq<RouteResult>) {
    forall i, j :: 0 <= i < |routes| && 0 <= j < |routes[i].parents| ==> LostOnce(routes[i].parents[j].problems)
  }

  predicate LostOnce(problems: seq<Problem>) {
    forall x, y :: 0 <= x < y < |problems| && problems[x].Lost? ==> problems[x] != problems[y]
  }

  lemma UndisputedToldOnce(routes: seq<RouteResult>)
    requires Undisputed(routes)
    ensures ToldOnce(routes)
  {
    forall i, j | 0 <= i < |routes| && 0 <= j < |routes[i].parents| ensures LostOnce(routes[i].parents[j].problems) {
      var problems := routes[i].parents[j].problems;
      forall x | 0 <= x < |problems| ensures !problems[x].Lost? {
        assert problems[x].Lost? ==> Stands(problems[x].conflict, i, j, routes);
      }
    }
  }

  lemma StillToldOnce(routes: seq<RouteResult>, c: SocketClaim, p: Conflict)
    requires ToldOnce(routes) && InPlace(c, routes)
    ensures ToldOnce(PushProblem(routes, c, p))
  {
  }

  /** Settles the sockets: the oldest claim wins, a same-cluster claim routes beside it, and any other
      is reported on its own parent's result. */
  method SettleSockets(claims: seq<SocketClaim>, initial: seq<RouteResult>)
      returns (frontends: seq<L4Frontend>, carriers: seq<SocketClaim>, routes: seq<RouteResult>,
               ghost winners: map<Socket, SocketClaim>)
    requires Undisputed(initial) && forall c :: c in claims ==> InPlace(c, initial)
    ensures var s := Settling(claims);
            && |s| == |claims| && Won(s, |s|, winners) && OnePerSocket(frontends, winners) && Carriers(s, |s|, carriers)
            && AllDecided(s, |s|, routes) && Justified(s, |s|, routes)
    ensures SameShape(initial, routes) && Untouched(claims, initial, routes) && ToldOnce(routes)
  {
    UndisputedToldOnce(initial);
    var s := Settling(claims);
    SortContents(OrderOf, ClaimLe, claims);
    SameShapeLaws(initial, initial, initial);
    frontends, carriers, routes := [], [], initial;
    var won: map<Socket, SocketClaim> := map[];
    assert Justified(s, 0, routes) && Untouched(claims, initial, routes);
    assert OnePerSocket(frontends, won) && Won(s, 0, won) && Carriers(s, 0, carriers) && AllDecided(s, 0, routes);
    hide PushProblem, ConflictOf, OnePerSocket, Won, Carriers, CarriedOf, AllDecided, Justified, SortBy, SameShape,
        WinnerIn, InPlace, Untouched, ToldOnce;
    for n := 0 to |s|
      invariant Won(s, n, won) && OnePerSocket(frontends, won) && Carriers(s, n, carriers)
      invariant AllDecided(s, n, routes) && Justified(s, n, routes) && SameShape(initial, routes)
      invariant Untouched(claims, initial, routes) && ToldOnce(routes)
    {
      var c := s[n];
      assert c in multiset(s) && c in claims;
      StillInPlace(c, initial, routes);
      WonNext(s, n, won);
      CarriersNext(s, n, carriers);
      if c.socket !in won {
        CarriedNext(s, n, routes);
        NextFrontend(frontends, won, c);
        won := won[c.socket := c];
        frontends := frontends + [L4Frontend(c.socket, c.cluster)];
        carriers := carriers + [c];
      } else if won[c.socket].cluster == c.cluster {
        CarriedNext(s, n, routes);
        carriers := carriers + [c];
      } else {
        var problem := ConflictOf(c, won[c.socket]);
        LostNext(s, n, routes, problem);
        SameShapeLaws(initial, routes, PushProblem(routes, c, problem));
        StillUntouched(claims, initial, routes, c, problem);
        StillToldOnce(routes, c, problem);
        routes := PushProblem(routes, c, problem);
      }
    }
    winners := won;
  }

  // ---- what settlement means for the routes ------------------------------------------------------------

  function SocketOf(v: View, l: Selected): Socket
    requires l.bind.Some?
  {
    (v.protocol, l.bind.value.0)
  }

  ghost predicate BidsOn(views: seq<View>, v: View, socket: Socket) {
    exists r, l :: Bids(views, v, r, l) && SocketOf(v, l) == socket
  }

  /** `w` holds the least claim on the frontend's socket, and the frontend routes to its cluster. */
  ghost predicate Wins(views: seq<View>, w: View, f: L4Frontend) {
    && BidsOn(views, w, f.socket) && w.cluster == Some(f.cluster)
    && forall v :: BidsOn(views, v, f.socket) ==> ClaimLe(w.order, v.order)
  }

  /** Result `j` of route result `i` is the one for `r` of `v`. */
  ghost predicate ResultOf(routes: seq<RouteResult>, i: int, j: int, v: View, r: ParentRef) {
    && 0 <= i < |routes| && routes[i].kind == L4Route(v.protocol) && routes[i].name == v.order.name
    && 0 <= j < |routes[i].parents| && routes[i].parents[j].parent == r
  }

  ghost predicate LostBy(views: seq<View>, v: View, l: Selected, f: L4Frontend, p: Conflict) {
    && l.bind.Some? && SocketOf(v, l) == f.socket && v.cluster != Some(f.cluster)
    && exists w :: Wins(views, w, f) && p == Conflict(l.bind.value.1, v.protocol, w.order.name)
  }

  ghost predicate Routes(v: View, r: ParentRef, l: Selected, carriers: seq<SocketClaim>, routes: seq<RouteResult>) {
    exists c :: c in carriers && MadeBy(c, v, r, l) && Placed(c, routes, v, r)
  }

  /** Exactly one frontend per socket asked for, to the cluster of a least claim on it. */
  ghost predicate FrontendsSettled(views: seq<View>, frontends: seq<L4Frontend>) {
    && SocketsDistinct(frontends)
    && (forall f :: f in frontends ==> exists w :: Wins(views, w, f))
    && (forall v, k :: BidsOn(views, v, k) ==> exists f :: f in frontends && f.socket == k)
  }

  /** Each bid routes, exactly when it asks for the frontend's cluster, or is told on its own result. */
  ghost predicate BidsSettled(views: seq<View>, frontends: seq<L4Frontend>, carriers: seq<SocketClaim>,
                              routes: seq<RouteResult>) {
    forall v, r, l :: Bids(views, v, r, l) ==> BidSettled(views, v, r, l, frontends, carriers, routes)
  }

  ghost predicate BidSettled(views: seq<View>, v: View, r: ParentRef, l: Selected, frontends: seq<L4Frontend>,
                             carriers: seq<SocketClaim>, routes: seq<RouteResult>)
  {
    exists f :: f in frontends && Settles(views, v, r, l, f, carriers, routes)
  }

  ghost predicate Settles(views: seq<View>, v: View, r: ParentRef, l: Selected, f: L4Frontend,
                          carriers: seq<SocketClaim>, routes: seq<RouteResult>)
  {
    && l.bind.Some? && f.socket == SocketOf(v, l)
    && if v.cluster == Some(f.cluster) then Routes(v, r, l, carriers, routes)
       else exists p, i, j :: LostBy(views, v, l, f, p) && Stands(p, i, j, routes) && ResultOf(routes, i, j, v, r)
  }

  /** Nothing is reported but the loss of a bid, on the result of the reference that made it. */
  ghost predicate ProblemsSettled(views: seq<View>, frontends: seq<L4Frontend>, routes: seq<RouteResult>) {
    forall p, i, j :: Stands(p, i, j, routes) ==>
      exists v, r, l, f :: Bids(views, v, r, l) && f in frontends && LostBy(views, v, l, f, p)
          && ResultOf(routes, i, j, v, r)
  }

  lemma {:induction false} WinnerIsLeast(s: seq<SocketClaim>, c: SocketClaim)
    requires SortedBy(OrderOf, ClaimLe, s) && c in s && TotalOrder(ClaimLe)
    ensures var w := WinnerIn(s, c.socket); w.Some? && ClaimLe(w.value.order, c.order)
  {
    hide ClaimLe;
    if s[0].socket == c.socket {
      var i :| 0 <= i < |s| && s[i] == c;
      assert ClaimLe(c.order, c.order);
      if i > 0 {
        assert ClaimLe(OrderOf(s[0]), OrderOf(s[i]));
      }
    } else {
      assert c in s[1..];
      WinnerIsLeast(s[1..], c);
    }
  }

  lemma ClaimBids(views: seq<View>, routes: seq<RouteResult>, claims: seq<SocketClaim>, c: SocketClaim)
      returns (v: View, r: ParentRef, l: Selected)
    requires ClaimsOfViews(views, routes, claims) && c in claims
    ensures MadeBy(c, v, r, l) && Placed(c, routes, v, r) && Bids(views, v, r, l)
    ensures SocketOf(v, l) == c.socket && c.order == v.order && v.cluster == Some(c.cluster)
  {
    hide BidsClaimed, Placed;
    v, r, l :| v in views && MadeBy(c, v, r, l) && Placed(c, routes, v, r);
  }

  lemma BidClaims(views: seq<View>, routes: seq<RouteResult>, claims: seq<SocketClaim>, v: View, r: ParentRef,
                  l: Selected)
      returns (c: SocketClaim)
    requires ClaimsOfViews(views, routes, claims) && Bids(views, v, r, l)
    ensures c in claims && MadeBy(c, v, r, l) && Placed(c, routes, v, r) && SocketOf(v, l) == c.socket
        && c.order == v.order
  {
    hide ClaimsMade, Placed;
    c :| c in claims && MadeBy(c, v, r, l) && Placed(c, routes, v, r);
  }

  lemma BidderClaims(views: seq<View>, routes: seq<RouteResult>, claims: seq<SocketClaim>, v: View, k: Socket)
      returns (c: SocketClaim)
    requires ClaimsOfViews(views, routes, claims) && BidsOn(views, v, k)
    ensures c in claims && c.socket == k && c.order == v.order
  {
    hide ClaimsOfViews, MadeBy, Placed;
    var r, l :| Bids(views, v, r, l) && SocketOf(v, l) == k;
    c := BidClaims(views, routes, claims, v, r, l);
  }

  lemma WinnerWins(views: seq<View>, routes: seq<RouteResult>, claims: seq<SocketClaim>, k: Socket) returns (w: View)
    requires ClaimsOfViews(views, routes, claims) && WinnerIn(Settling(claims), k).Some?
    ensures var c := WinnerIn(Settling(claims), k).value; Wins(views, w, L4Frontend(k, c.cluster)) && w.order == c.order
  {
    hide ClaimLe, WinnerIn, ClaimsOfViews, MadeBy, Placed, Settling, Bids;
    var s := Settling(claims);
    ClaimLeIsTotal();
    SettlingHolds(claims);
    var c := WinnerIn(s, k).value;
    assert c in s && c.socket == k;
    var v, r, l := ClaimBids(views, routes, claims, c);
    w := v;
    forall x | BidsOn(views, x, k) ensures ClaimLe(v.order, x.order) {
      var d := BidderClaims(views, routes, claims, x, k);
      WinnerIsLeast(s, d);
    }
  }

  /** Each frontend routes to the cluster of the oldest route that asks for its socket, ties going to the
      smaller name. */
  lemma SocketGoesToOldest(views: seq<View>, frontends: seq<L4Frontend>, f: L4Frontend) returns (w: View)
    requires FrontendsSettled(views, frontends) && f in frontends
    ensures BidsOn(views, w, f.socket) && w.cluster == Some(f.cluster)
    ensures forall v :: BidsOn(views, v, f.socket) ==> NotOutdone(w.order, v.order)
  {
    hide ClaimLe, BidsOn, NotOutdone;
    w :| Wins(views, w, f);
    forall v | BidsOn(views, v, f.socket) ensures NotOutdone(w.order, v.order) {
      ClaimOrder(w.order, v.order);
    }
  }

  lemma SettlingHolds(claims: seq<SocketClaim>)
    ensures forall c :: c in Settling(claims) <==> c in claims
    ensures SortedBy(OrderOf, ClaimLe, Settling(claims))
  {
    ClaimLeIsTotal();
    SortSorted(OrderOf, ClaimLe, claims);
    SortContents(OrderOf, ClaimLe, claims);
    hide SortBy, ClaimLe;
    var s := Settling(claims);
    forall c ensures c in s <==> c in claims {
      assert c in s <==> c in multiset(s);
    }
  }

  lemma FrontendsAreSettled(views: seq<View>, routes: seq<RouteResult>, claims: seq<SocketClaim>,
                            frontends: seq<L4Frontend>, winners: map<Socket, SocketClaim>)
    requires ClaimsOfViews(views, routes, claims)
    requires Won(Settling(claims), |Settling(claims)|, winners) && OnePerSocket(frontends, winners)
    ensures FrontendsSettled(views, frontends)
  {
    hide WinnerIn, Wins, Settling, ClaimsOfViews, MadeBy, Placed, Bids, SortedBy, BidsOn;
    SettlingHolds(claims);
    var s := Settling(claims);
    forall f | f in frontends ensures exists w :: Wins(views, w, f) {
      assert WinnerIn(s, f.socket) == Some(winners[f.socket]);
      var w := WinnerWins(views, routes, claims, f.socket);
    }
    forall v, k | BidsOn(views, v, k) ensures exists f :: f in frontends && f.socket == k {
      var c := BidderClaims(views, routes, claims, v, k);
      assert c in s && c.socket in winners;
      assert L4Frontend(k, winners[k].cluster) in frontends;
    }
  }

  lemma {:induction false} CarriedAreCarriers(s: seq<SocketClaim>, some: seq<SocketClaim>, c: SocketClaim)
    ensures c in CarriedOf(s, some) <==> c in some && Carried(s, c)
  {
    if some != [] {
      CarriedAreCarriers(s, some[..|some| - 1], c);
      assert c in some <==> c in some[..|some| - 1] || c == some[|some| - 1];
    }
  }

  /** Everything settlement knows when it ends. */
  ghost predicate Finished(claims: seq<SocketClaim>, frontends: seq<L4Frontend>, winners: map<Socket, SocketClaim>,
                           carriers: seq<SocketClaim>, routes: seq<RouteResult>)
  {
    var s := Settling(claims);
    && Won(s, |s|, winners) && OnePerSocket(frontends, winners) && Carriers(s, |s|, carriers)
    && AllDecided(s, |s|, routes) && Justified(s, |s|, routes)
  }

  lemma LossIsLost(views: seq<View>, initial: seq<RouteResult>, claims: seq<SocketClaim>, c: SocketClaim, p: Conflict,
                   v: View, r: ParentRef, l: Selected, f: L4Frontend)
    requires ClaimsOfViews(views, initial, claims) && c in claims && MadeBy(c, v, r, l)
    requires LostAt(Settling(claims), c, c.route, c.parent, p)
    requires f.socket == c.socket && f.cluster == WinnerIn(Settling(claims), c.socket).value.cluster
    ensures LostBy(views, v, l, f, p)
  {
    hide WinnerIn, Wins, Settling, ClaimsOfViews;
    var w := WinnerWins(views, initial, claims, c.socket);
    assert Wins(views, w, f);
  }

  lemma StillPlaced(c: SocketClaim, initial: seq<RouteResult>, routes: seq<RouteResult>, v: View, r: ParentRef)
    requires Placed(c, initial, v, r) && SameShape(initial, routes)
    ensures Placed(c, routes, v, r) && ResultOf(routes, c.route, c.parent, v, r)
  {
  }

  lemma BidIsSettled(views: seq<View>, initial: seq<RouteResult>, claims: seq<SocketClaim>, frontends: seq<L4Frontend>,
                     winners: map<Socket, SocketClaim>, carriers: seq<SocketClaim>, routes: seq<RouteResult>,
                     v: View, r: ParentRef, l: Selected, c: SocketClaim)
    requires ClaimsOfViews(views, initial, claims) && Finished(claims, frontends, winners, carriers, routes)
    requires SameShape(initial, routes) && Bids(views, v, r, l) && c in claims && MadeBy(c, v, r, l)
        && Placed(c, initial, v, r)
    ensures BidSettled(views, v, r, l, frontends, carriers, routes)
  {
    hide WinnerIn, Wins, Settling, ClaimsOfViews, SameShape, CarriedOf, Placed, ResultOf, LostBy, Stands, Justified;
    var s := Settling(claims);
    SettlingHolds(claims);
    assert c in s && c.socket in winners;
    var f := L4Frontend(c.socket, winners[c.socket].cluster);
    assert f in frontends && WinnerIn(s, c.socket) == Some(winners[c.socket]);
    StillPlaced(c, initial, routes, v, r);
    assert Decided(s, c, routes);
    if Carried(s, c) {
      assert s[..|s|] == s;
      CarriedAreCarriers(s, s, c);
      assert Routes(v, r, l, carriers, routes);
    } else {
      var p :| LostAt(s, c, c.route, c.parent, p) && Stands(p, c.route, c.parent, routes);
      LossIsLost(views, initial, claims, c, p, v, r, l, f);
    }
    assert Settles(views, v, r, l, f, carriers, routes);
  }

  lemma ProblemsAreSettled(views: seq<View>, initial: seq<RouteResult>, claims: seq<SocketClaim>,
                           frontends: seq<L4Frontend>, winners: map<Socket, SocketClaim>, carriers: seq<SocketClaim>,
                           routes: seq<RouteResult>)
    requires ClaimsOfViews(views, initial, claims) && Finished(claims, frontends, winners, carriers, routes)
    requires SameShape(initial, routes)
    ensures ProblemsSettled(views, frontends, routes)
  {
    hide WinnerIn, Wins, Settling, SameShape, CarriedOf, Placed, ResultOf, LostBy, Stands, AllDecided, Carriers,
        ClaimsOfViews, MadeBy, Bids, SortedBy;
    var s := Settling(claims);
    SettlingHolds(claims);
    forall p, i, j | Stands(p, i, j, routes)
      ensures exists v, r, l, f ::
                Bids(views, v, r, l) && f in frontends && LostBy(views, v, l, f, p) && ResultOf(routes, i, j, v, r)
    {
      var k :| 0 <= k < |s| && LostAt(s, s[k], i, j, p);
      var c := s[k];
      var v, r, l := ClaimBids(views, initial, claims, c);
      StillPlaced(c, initial, routes, v, r);
      assert c.socket in winners && WinnerIn(s, c.socket) == Some(winners[c.socket]);
      var f := L4Frontend(c.socket, winners[c.socket].cluster);
      assert f in frontends;
      LossIsLost(views, initial, claims, c, p, v, r, l, f);
    }
  }

  function SocketOfFrontend(f: L4Frontend): Socket { f.socket }

  /** Layer-4 routing for all routes, after the results `others` of the other kinds: `le` is the order of sockets. */
  method AttachL4Routes(others: seq<RouteResult>, views: seq<View>, le: (Socket, Socket) -> bool)
      returns (frontends: seq<L4Frontend>, carriers: seq<SocketClaim>, routes: seq<RouteResult>,
               attached: map<string, nat>)
    requires TotalOrder(le) && Undisputed(others)
    ensures others <= routes
    ensures FrontendsSettled(views, frontends) && SortedBy(SocketOfFrontend, le, frontends)
    ensures BidsSettled(views, frontends, carriers, routes)
    ensures ProblemsSettled(views, frontends, routes)
    ensures ReportedFirst(routes, |others|) && ToldOnce(routes)
    ensures Attachments(views, attached)
  {
    var initial, claims;
    initial, claims, attached := CollectClaims(others, views);
    AllInPlace(views, initial, claims);
    ghost var winners;
    frontends, carriers, routes, winners := SettleSockets(claims, initial);
    assert others <= routes by {
      assert forall i :: 0 <= i < |others| ==> routes[i] == initial[i] == others[i];
    }
    ReportedStays(initial, routes, |others|);
    hide ClaimsOfViews, Won, OnePerSocket, Carriers, AllDecided, Justified, SameShape, FrontendsSettled, BidsSettled,
        ProblemsSettled, Attachments, SortBy, ToldOnce, ReportedFirst;
    FrontendsAreSettled(views, initial, claims, frontends, winners);
    var unsorted := frontends;
    frontends := SortBy(SocketOfFrontend, le, unsorted);
    SortSorted(SocketOfFrontend, le, unsorted);
    SortContents(SocketOfFrontend, le, unsorted);
    SortingFrontends(views, unsorted, frontends);
    BidsAreSettled(views, initial, claims, unsorted, frontends, winners, carriers, routes);
  }

  lemma AllInPlace(views: seq<View>, routes: seq<RouteResult>, claims: seq<SocketClaim>)
    requires ClaimsOfViews(views, routes, claims)
    ensures forall c :: c in claims ==> InPlace(c, routes)
  {
  }

  lemma SortingFrontends(views: seq<View>, a: seq<L4Frontend>, b: seq<L4Frontend>)
    requires FrontendsSettled(views, a) && multiset(a) == multiset(b)
    ensures FrontendsSettled(views, b) && forall f :: f in b <==> f in a
  {
    hide Wins, BidsOn;
    forall f ensures f in b <==> f in a {
      assert f in b <==> f in multiset(b);
      assert f in a <==> f in multiset(a);
    }
    forall i, j | 0 <= i < j < |b| ensures b[i].socket != b[j].socket {
      if b[i].socket == b[j].socket {
        assert b[i] in a && b[j] in a;
        assert b[i] == b[j];
        Twice(b, i, j);
        Once(a, b[i]);
      }
    }
  }

  lemma {:induction false} Once(s: seq<L4Frontend>, f: L4Frontend)
    requires SocketsDistinct(s)
    ensures multiset(s)[f] <= 1
  {
    if s != [] {
      assert s == [s[0]] + s[1..];
      Once(s[1..], f);
      if s[0] == f {
        assert f !in s[1..];
        assert f !in multiset(s[1..]);
      }
    }
  }

  lemma BidsAreSettled(views: seq<View>, initial: seq<RouteResult>, claims: seq<SocketClaim>, unsorted: seq<L4Frontend>,
                       frontends: seq<L4Frontend>, winners: map<Socket, SocketClaim>, carriers: seq<SocketClaim>,
                       routes: seq<RouteResult>)
    requires ClaimsOfViews(views, initial, claims) && Finished(claims, unsorted, winners, carriers, routes)
    requires SameShape(initial, routes) && forall f :: f in frontends <==> f in unsorted
    ensures BidsSettled(views, frontends, carriers, routes) && ProblemsSettled(views, frontends, routes)
  {
    ProblemsAreSettled(views, initial, claims, unsorted, winners, carriers, routes);
    hide Finished, SameShape, Settles, Stands, LostBy, ResultOf, ClaimsOfViews, MadeBy, Placed, Bids;
    forall v, r, l | Bids(views, v, r, l) ensures BidSettled(views, v, r, l, frontends, carriers, routes) {
      var c := BidClaims(views, initial, claims, v, r, l);
      BidIsSettled(views, initial, claims, unsorted, winners, carriers, routes, v, r, l, c);
    }
  }

  // ---- order independence ----------------------------------------------------------------------------

  /** No two routes of a kind have the same claim: age, namespace and name tell them apart. */
  ghost predicate DistinctRoutes(views: seq<View>) {
    forall v, w :: v in views && w in views && v.protocol == w.protocol && v.order == w.order ==> v == w
  }

  /** The frontends do not depend on the order of the routes. */
  lemma FrontendsAreOrderFree(a: seq<View>, b: seq<View>, x: seq<L4Frontend>, y: seq<L4Frontend>,
                              le: (Socket, Socket) -> bool)
    requires (forall v :: v in a <==> v in b) && DistinctRoutes(a) && TotalOrder(le)
    requires FrontendsSettled(a, x) && SortedBy(SocketOfFrontend, le, x)
    requires FrontendsSettled(b, y) && SortedBy(SocketOfFrontend, le, y)
    ensures x == y
  {
    SameFrontends(a, b, x, y);
    SameFrontends(b, a, y, x);
    SortedSame(x, y, le);
  }

  lemma SameFrontends(a: seq<View>, b: seq<View>, x: seq<L4Frontend>, y: seq<L4Frontend>)
    requires (forall v :: v in a <==> v in b) && DistinctRoutes(a)
    requires FrontendsSettled(a, x) && FrontendsSettled(b, y)
    ensures forall f :: f in x ==> f in y
  {
    hide ClaimLe;
    ClaimLeIsTotal();
    assert forall v, r, l :: Bids(a, v, r, l) <==> Bids(b, v, r, l);
    assert forall v, k :: BidsOn(a, v, k) <==> BidsOn(b, v, k);
    forall f | f in x ensures f in y {
      var v :| Wins(a, v, f);
      assert BidsOn(b, v, f.socket);
      var g :| g in y && g.socket == f.socket;
      var w :| Wins(b, w, g);
      assert ClaimLe(v.order, w.order) && ClaimLe(w.order, v.order);
      assert v in a && w in a && v.protocol == w.protocol;
    }
  }

  lemma {:induction false} SortedSame(x: seq<L4Frontend>, y: seq<L4Frontend>, le: (Socket, Socket) -> bool)
    requires TotalOrder(le) && SortedBy(SocketOfFrontend, le, x) && SortedBy(SocketOfFrontend, le, y)
    requires SocketsDistinct(x) && SocketsDistinct(y) && forall f :: f in x <==> f in y
    ensures x == y
  {
    forall k ensures OfKey(SocketOfFrontend, k, x) == OfKey(SocketOfFrontend, k, y) {
      AtMostOne(x, k);
      AtMostOne(y, k);
      if f :| f in x && f.socket == k {
        OfKeyMember(SocketOfFrontend, k, x, f);
        OfKeyMember(SocketOfFrontend, k, y, f);
      } else {
        if OfKey(SocketOfFrontend, k, x) != [] {
          OfKeyMember(SocketOfFrontend, k, x, OfKey(SocketOfFrontend, k, x)[0]);
        }
        if OfKey(SocketOfFrontend, k, y) != [] {
          OfKeyMember(SocketOfFrontend, k, y, OfKey(SocketOfFrontend, k, y)[0]);
        }
      }
    }
    SortedDetermined(SocketOfFrontend, le, x, y);
  }

  lemma {:induction false} AtMostOne(s: seq<L4Frontend>, k: Socket)
    requires SocketsDistinct(s)
    ensures |OfKey(SocketOfFrontend, k, s)| <= 1
  {
    if s != [] {
      AtMostOne(s[1..], k);
      if s[0].socket == k && OfKey(SocketOfFrontend, k, s[1..]) != [] {
        OfKeyMember(SocketOfFrontend, k, s[1..], OfKey(SocketOfFrontend, k, s[1..])[0]);
        assert false;
      }
    }
  }
}
