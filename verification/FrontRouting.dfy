/** Where a connection to the public port ends up under a compiled configuration. */
module FrontRouting {
  import opened Prelude
  import opened Text
  import opened SniMap

  // ---- addresses ----

  /** Which hosts are addresses of the machine nginx is on. */
  datatype Machine = Machine(local: string -> bool)

  /** What stands before and after the last colon. */
  function CutLastColon(s: string): Option<(string, string)> {
    if s == "" then None
    else
      var init, last := s[..|s| - 1], s[|s| - 1];
      if last == ':' then Some((init, ""))
      else match CutLastColon(init) case None => None case Some((h, p)) => Some((h, p + [last]))
  }

  /** An address on this machine with that port. */
  predicate OnPort(m: Machine, address: string, port: int) {
    match CutLastColon(address)
    case None => false
    case Some((h, p)) => m.local(h) && ParseInt(p) == Some(port)
  }

  lemma {:induction false} CutsAtColon(host: string, digits: string)
    requires ':' !in digits
    ensures CutLastColon(host + ":" + digits) == Some((host, digits))
  {
    var s := host + ":" + digits;
    if digits == "" {
      assert s[..|s| - 1] == host;
    } else {
      var n := |digits| - 1;
      assert digits == digits[..n] + [digits[n]];
      assert digits[n] in digits;
      CutsAtColon(host, digits[..n]);
      assert s[..|s| - 1] == host + ":" + digits[..n];
    }
  }

  lemma HostPortIsOnPort(m: Machine, host: string, port: nat)
    requires m.local(host)
    ensures OnPort(m, host + ":" + Itoa(port), port)
  {
    ItoaDigits(port);
    ParseItoa(port);
    CutsAtColon(host, Itoa(port));
  }

  // ---- who listens ----

  /** Who listens on an address: a relay's server, the site's, the public server, or something outside nginx. */
  datatype Listener = RelayListener(upstream: string) | SiteListener | FrontListener | Outside

  function RelayAt(relays: seq<Server>, address: string): Option<Server> {
    if relays == [] then None
    else if relays[0].listen == address then Some(relays[0])
    else RelayAt(relays[1..], address)
  }

  /** The public server listens on every address of the machine; a server on the address itself comes before it. */
  function ListenerAt(m: Machine, c: Config, address: string): Listener
    requires c.mode != MODE_OFF
  {
    var out := StreamOf(c).value;
    match RelayAt(out.relays, address)
    case Some(s) => RelayListener(s.upstream)
    case None =>
      if c.site.Some? && c.site.value.listen == address then SiteListener
      else if OnPort(m, address, out.port) then FrontListener
      else Outside
  }

  /** The HTTP side cannot bind the port the stream side has, and then nginx does not take the configuration up. */
  predicate Starts(m: Machine, c: Config) {
    c.site.Some? ==> !OnPort(m, c.site.value.listen, c.port)
  }

  /** A relay takes the PROXY header off, and relays and the site refuse a connection that comes without one. */
  datatype Arrival = AtSite | AtInbound(address: string) | BackAtFront | Broken | Down

  function Arrive(m: Machine, c: Config, address: string): Arrival
    requires c.mode != MODE_OFF
  {
    match ListenerAt(m, c, address)
    case Outside => AtInbound(address)
    case SiteListener => AtSite
    case FrontListener => BackAtFront
    case RelayListener(upstream) =>
      (match ListenerAt(m, c, upstream)
       case Outside => AtInbound(upstream)
       case FrontListener => BackAtFront
       case _ => Broken)
  }

  /** Where a connection that asks for this name on the public port goes. */
  function Connect(m: Machine, c: Config, name: string): Arrival
    requires c.mode != MODE_OFF
  {
    if !Starts(m, c) then Down else Arrive(m, c, LookUp(StreamOf(c).value, name))
  }

  // ---- relays ----

  function Listens(relays: seq<Server>): seq<string> {
    seq(|relays|, i requires 0 <= i < |relays| => relays[i].listen)
  }

  lemma {:induction false} ListensAreRelays(routes: seq<Route>)
    ensures Listens(RelayServers(routes)) == Relays(routes)
  {
    if routes != [] {
      ListensAreRelays(routes[..|routes| - 1]);
    }
  }

  lemma {:induction false} ServerOfRoute(routes: seq<Route>, i: nat)
    requires i < |routes| && routes[i].relay != ""
    ensures Server(routes[i].relay, routes[i].upstream, routes[i].name) in RelayServers(routes)
  {
    if i < |routes| - 1 {
      assert routes[..|routes| - 1][i] == routes[i];
      ServerOfRoute(routes[..|routes| - 1], i);
    }
  }

  lemma {:induction false} RouteOfServer(routes: seq<Route>, s: Server)
    requires s in RelayServers(routes)
    ensures exists r :: r in routes && r.relay == s.listen && r.upstream == s.upstream && r.relay != ""
  {
    var init, last := routes[..|routes| - 1], routes[|routes| - 1];
    if s in RelayServers(init) {
      RouteOfServer(init, s);
      var r :| r in init && r.relay == s.listen && r.upstream == s.upstream && r.relay != "";
      assert r in routes;
    } else {
      assert last in routes;
    }
  }

  lemma {:induction false} RelayAtFinds(relays: seq<Server>, address: string)
    ensures RelayAt(relays, address).Some? ==>
              RelayAt(relays, address).value in relays && RelayAt(relays, address).value.listen == address
    ensures RelayAt(relays, address).Some? <==> address in Listens(relays)
    ensures NoDuplicates(Listens(relays)) ==>
              forall s :: s in relays && s.listen == address ==> RelayAt(relays, address) == Some(s)
  {
    if relays != [] {
      var tail := relays[1..];
      assert relays == [relays[0]] + tail;
      assert Listens(relays) == [relays[0].listen] + Listens(tail);
      RelayAtFinds(tail, address);
      if NoDuplicates(Listens(relays)) {
        assert forall i :: 0 <= i < |tail| ==> Listens(relays)[i + 1] == Listens(tail)[i] == tail[i].listen;
        assert Listens(relays)[0] == relays[0].listen;
      }
    }
  }

  /** A relay's address is its route's own. */
  lemma RelayIsItsRoutes(m: Machine, c: Config, i: nat)
    requires Valid(c) && c.mode != MODE_OFF && i < |c.routes| && c.routes[i].relay != ""
    ensures ListenerAt(m, c, c.routes[i].relay) == RelayListener(c.routes[i].upstream)
  {
    ListensAreRelays(c.routes);
    ServerOfRoute(c.routes, i);
    RelayAtFinds(RelayServers(c.routes), c.routes[i].relay);
  }

  /** No relay relays to itself, so whoever reaches a relay at a route's upstream does not reach that upstream. */
  lemma RelayLeadsElsewhere(m: Machine, c: Config, address: string)
    requires Valid(c) && c.mode != MODE_OFF && ListenerAt(m, c, address).RelayListener?
    ensures ListenerAt(m, c, address).upstream != address
  {
    RelayAtFinds(RelayServers(c.routes), address);
    var s := RelayAt(RelayServers(c.routes), address).value;
    RouteOfServer(c.routes, s);
    var r :| r in c.routes && r.relay == s.listen && r.upstream == s.upstream && r.relay != "";
    assert ValidRoute(r);
  }

  // ---- the main results ----

  /** Through its own relay if it has one, a route's target leads to its upstream exactly when that is outside nginx. */
  lemma RouteArrives(m: Machine, c: Config, i: nat)
    requires Valid(c) && c.mode != MODE_OFF && i < |c.routes|
    ensures Arrive(m, c, c.routes[i].Target()) == AtInbound(c.routes[i].upstream)
            <==> ListenerAt(m, c, c.routes[i].upstream).Outside?
  {
    var r := c.routes[i];
    if r.relay != "" {
      RelayIsItsRoutes(m, c, i);
    } else if ListenerAt(m, c, r.upstream).RelayListener? {
      RelayLeadsElsewhere(m, c, r.upstream);
    }
  }

  /**
   A name a route claims is looked up to that route's target, however written; and the connection reaches the route's
   upstream if and only if nginx can bind its servers and none of them, the public one included, sits on that address.
   */
  lemma ClaimedNameReachesClaimant(m: Machine, c: Config, i: nat, j: nat)
    requires Valid(c) && c.mode != MODE_OFF && i < |c.routes| && j < |c.routes[i].snis|
    ensures LookUp(StreamOf(c).value, Normal(c.routes[i].snis[j])) == c.routes[i].Target()
    ensures Connect(m, c, Normal(c.routes[i].snis[j])) == AtInbound(c.routes[i].upstream)
            <==> Starts(m, c) && ListenerAt(m, c, c.routes[i].upstream).Outside?
  {
    MapKeys(c);
    var s, key := StreamOf(c).value, Normal(c.routes[i].snis[j]);
    RouteHasLine(c.routes, i, j);
    LeadsConcat(SiteLines(c), RouteLines(c.routes), key, c.routes[i].Target());
    LookUpFinds(s.lines, key, s.default_);
    RouteArrives(m, c, i);
  }

  /** The site's address is taken by the site. */
  lemma SiteIsAtItsAddress(m: Machine, c: Config)
    requires Valid(c) && c.mode != MODE_OFF && c.site.Some?
    ensures Arrive(m, c, c.site.value.listen) == AtSite
  {
    ListensAreRelays(c.routes);
    RelayAtFinds(RelayServers(c.routes), c.site.value.listen);
  }

  /** The domain, and with an IP certificate a connection that names no server, reach the site exactly when nginx can bind it. */
  lemma SiteNamesReachSite(m: Machine, c: Config)
    requires Valid(c) && c.mode != MODE_OFF && c.site.Some?
    ensures c.site.value.domain != "" ==> (Connect(m, c, Normal(c.site.value.domain)) == AtSite <==> Starts(m, c))
    ensures c.site.value.HasIPCert() ==> (Connect(m, c, "") == AtSite <==> Starts(m, c))
  {
    MapKeys(c);
    SiteIsAtItsAddress(m, c);
    var s, site := StreamOf(c).value, c.site.value;
    if site.domain != "" {
      LookUpFinds(s.lines, Normal(site.domain), s.default_);
      assert SiteLines(c)[0] == DomainLine(site);
      assert s.lines[0] == SiteLines(c)[0];
    }
    if site.HasIPCert() {
      LookUpFinds(s.lines, "", s.default_);
      assert SiteLines(c)[|SiteLines(c)| - 1] == NamelessLine(site);
      assert s.lines[|SiteLines(c)| - 1] == SiteLines(c)[|SiteLines(c)| - 1];
    }
  }

  /** The route that takes what nobody claims, if it is a route. */
  function FallbackRoute(c: Config): Option<Route> {
    match FirstFallback(c.routes)
    case Some(r) => Some(r)
    case None => if c.site.Some? || c.routes == [] then None else Some(c.routes[0])
  }

  lemma {:induction false} FirstFallbackAt(routes: seq<Route>) returns (i: nat)
    requires FirstFallback(routes).Some?
    ensures i < |routes| && routes[i] == FirstFallback(routes).value && routes[i].fallback
  {
    if routes[0].fallback {
      i := 0;
    } else {
      var j := FirstFallbackAt(routes[1..]);
      i := j + 1;
    }
  }

  /**
   Every other name goes where the one fallback is: the route that claims it, else the site, else the first route; and
   arrives there under the same conditions.
   */
  lemma OtherNamesReachFallback(m: Machine, c: Config, name: string)
    requires Valid(c) && c.mode != MODE_OFF && name !in Claimed(c)
    requires name == "" ==> c.site.None? || !c.site.value.HasIPCert()
    ensures forall i :: 0 <= i < |c.routes| && c.routes[i].fallback ==> FallbackRoute(c) == Some(c.routes[i])
    ensures FallbackRoute(c).Some? ==>
              var r := FallbackRoute(c).value;
              r in c.routes && (Connect(m, c, name) == AtInbound(r.upstream) <==> Starts(m, c) && ListenerAt(m, c, r.upstream).Outside?)
    ensures FallbackRoute(c).None? ==> c.site.Some? && (Connect(m, c, name) == AtSite <==> Starts(m, c))
  {
    MapKeys(c);
    var s := StreamOf(c).value;
    LookUpFinds(s.lines, name, s.default_);
    forall i | 0 <= i < |c.routes| && c.routes[i].fallback ensures FallbackRoute(c) == Some(c.routes[i]) {
      OneFallback(c.routes, i);
    }
    if FirstFallback(c.routes).Some? {
      var i := FirstFallbackAt(c.routes);
      RouteArrives(m, c, i);
    } else if c.site.Some? {
      SiteIsAtItsAddress(m, c);
    } else {
      RouteArrives(m, c, 0);
    }
  }

  // ---- what Validate lets through ----

  /** A route without a relay, on an upstream that is another route's relay: its names reach the other's inbound. */
  lemma UpstreamOnRelayIsMisrouted(m: Machine, c: Config, i: nat, j: nat, other: nat)
    requires Valid(c) && c.mode != MODE_OFF && i < |c.routes| && j < |c.routes[i].snis| && other < |c.routes|
    requires c.routes[i].relay == "" && c.routes[i].upstream == c.routes[other].relay
    requires Starts(m, c) && ListenerAt(m, c, c.routes[other].upstream).Outside?
    ensures Connect(m, c, Normal(c.routes[i].snis[j])) == AtInbound(c.routes[other].upstream)
    ensures c.routes[other].upstream != c.routes[i].upstream
  {
    assert ValidRoute(c.routes[i]) && ValidRoute(c.routes[other]);
    ClaimedNameReachesClaimant(m, c, i, j);
    RelayIsItsRoutes(m, c, other);
  }

  /** A route on the public port of this machine: its names come back to the front and reach no inbound. */
  lemma UpstreamOnFrontComesBack(m: Machine, c: Config, i: nat, j: nat)
    requires Valid(c) && c.mode != MODE_OFF && i < |c.routes| && j < |c.routes[i].snis|
    requires Starts(m, c) && ListenerAt(m, c, c.routes[i].upstream).FrontListener?
    ensures Connect(m, c, Normal(c.routes[i].snis[j])) == BackAtFront
  {
    ClaimedNameReachesClaimant(m, c, i, j);
    if c.routes[i].relay != "" {
      RelayIsItsRoutes(m, c, i);
    }
  }

  /** Validate accepts such a misrouting: two plain names, the second's relay being the first's upstream. */
  lemma ValidateAcceptsMisrouting(m: Machine, a: string, b: string, relay: string, upstream: string) returns (c: Config)
    requires Normal(a) == a && Normal(b) == b && a != "" && b != "" && a != b
    requires relay != "" && upstream != "" && relay != upstream && !OnPort(m, upstream, 443)
    ensures Valid(c) && c.mode != MODE_OFF && |c.routes| == 2 && c.routes[0].snis == [a] && Starts(m, c)
    ensures c.routes[0].relay == "" && c.routes[0].upstream == c.routes[1].relay
    ensures ListenerAt(m, c, c.routes[1].upstream).Outside?
  {
    var first, second := Route("", [a], relay, false, ""), Route("", [b], upstream, false, relay);
    var routes := [first, second];
    c := Config(MODE_SHARED, 443, routes, None);
    OneRouteMore([], first);
    OneRouteMore([first], second);
    assert [] + [first] == [first] && [first] + [second] == routes;
    assert Normals([a]) == [a] && Normals([b]) == [b];
    assert Relays(routes) == [relay] && RouteNames(routes) == [a, b] && Fallbacks(routes) == 0;
    assert Claimed(c) == [a, b];
    assert ValidRoutes(routes);
    ListensAreRelays(routes);
    RelayAtFinds(RelayServers(routes), upstream);
  }

  /** One route that takes everything, on an address of its own. */
  lemma LoneRouteIsValid(upstream: string, port: int) returns (c: Config)
    requires upstream != "" && 0 < port <= 65535
    ensures c == Config(MODE_SHARED, port, [Route("", [], upstream, true, "")], None) && Valid(c)
    ensures StreamOf(c).value.relays == [] && Claimed(c) == []
  {
    var r := Route("", [], upstream, true, "");
    c := Config(MODE_SHARED, port, [r], None);
    OneRouteMore([], r);
    assert [] + [r] == [r];
    assert Normals([]) == [];
    assert Claimed(c) == [];
    assert [r][..0] == [];
    assert RelayServers([r]) == [];
  }

  /** It accepts a fallback on the public port too, and then no name whatever reaches anything. */
  lemma ValidateAcceptsLoop(m: Machine, host: string, port: int) returns (c: Config)
    requires m.local(host) && 0 < port <= 65535
    ensures Valid(c) && c.mode != MODE_OFF && |c.routes| == 1 && c.routes[0].upstream == host + ":" + Itoa(port)
    ensures forall name :: Connect(m, c, name) == BackAtFront
  {
    HostPortIsOnPort(m, host, port);
    c := LoneRouteIsValid(host + ":" + Itoa(port), port);
    forall name ensures Connect(m, c, name) == BackAtFront {
      MapKeys(c);
      LookUpFinds(StreamOf(c).value.lines, name, StreamOf(c).value.default_);
    }
  }

  /** And a site on the public port, with which nginx does not come up. */
  lemma ValidateAcceptsUnbindableSite(m: Machine, host: string, port: int, cert: string) returns (c: Config)
    requires m.local(host) && 0 < port <= 65535 && cert != ""
    ensures Valid(c) && c.mode != MODE_OFF && !Starts(m, c)
    ensures forall name :: Connect(m, c, name) == Down
  {
    HostPortIsOnPort(m, host, port);
    c := Config(MODE_SHARED, port, [], Some(Site("", "", "", cert, cert, host + ":" + Itoa(port), "", None, None)));
    assert Claimed(c) == [];
  }
}
