/**
 The front's configuration: what Validate accepts, and the stream block it is compiled to.
 Names and addresses are compared as written: wildcards, and two spellings of one address, are not modelled.
 */
module SniMap {
  import opened Prelude
  import opened Text

  datatype Route = Route(name: string, snis: seq<string>, upstream: string, fallback: bool, relay: string)
  {
    function Target(): string { if relay != "" then relay else upstream }
  }

  datatype Proxy = Proxy(name: string, paths: seq<string>, target: string, tls: bool)

  datatype Site = Site(domain: string, certFile: string, keyFile: string, ipCertFile: string, ipKeyFile: string,
                       listen: string, root: string, panel: Option<Proxy>, sub: Option<Proxy>)
  {
    predicate HasIPCert() { ipCertFile != "" }
  }

  const MODE_OFF := "off"
  const MODE_SHARED := "shared"
  const MODE_ONLY443 := "only443"

  datatype Config = Config(mode: string, port: int, routes: seq<Route>, site: Option<Site>)

  // ---- names ----

  function LowerChar(c: char): char {
    if 'A' <= c <= 'Z' then (c as int + 32) as char else c
  }

  function ToLower(s: string): string {
    seq(|s|, i requires 0 <= i < |s| => LowerChar(s[i]))
  }

  function Normal(name: string): string {
    ToLower(TrimSpace(name))
  }

  function Normals(names: seq<string>): seq<string> {
    seq(|names|, i requires 0 <= i < |names| => Normal(names[i]))
  }

  ghost predicate InOrder(names: seq<string>) {
    forall i, j :: 0 <= i < j < |names| ==> StringLe(names[i], names[j])
  }

  function Insert(n: string, sorted: seq<string>): seq<string> {
    if sorted == [] || StringLe(n, sorted[0]) then [n] + sorted else [sorted[0]] + Insert(n, sorted[1..])
  }

  lemma {:induction false} InsertMembers(n: string, sorted: seq<string>)
    ensures multiset(Insert(n, sorted)) == multiset(sorted) + multiset{n}
  {
    if sorted != [] && !StringLe(n, sorted[0]) {
      InsertMembers(n, sorted[1..]);
      assert sorted == [sorted[0]] + sorted[1..];
    }
  }

  lemma {:induction false} InsertSorts(n: string, sorted: seq<string>)
    requires InOrder(sorted)
    ensures InOrder(Insert(n, sorted)) && multiset(Insert(n, sorted)) == multiset(sorted) + multiset{n}
  {
    InsertMembers(n, sorted);
    if sorted == [] {
    } else if StringLe(n, sorted[0]) {
      forall j | 0 < j < |sorted| ensures StringLe(n, sorted[j]) {
        StringLeTransitive(n, sorted[0], sorted[j]);
      }
    } else {
      InsertSorts(n, sorted[1..]);
      StringLeTotal(n, sorted[0]);
      var t := Insert(n, sorted[1..]);
      forall j | 0 <= j < |t| ensures StringLe(sorted[0], t[j]) {
        InsertAt(n, sorted[1..], j);
      }
    }
  }

  lemma InsertAt(n: string, sorted: seq<string>, j: nat)
    requires j < |Insert(n, sorted)|
    ensures Insert(n, sorted)[j] == n || Insert(n, sorted)[j] in sorted
  {
    InsertMembers(n, sorted);
    assert Insert(n, sorted)[j] in multiset(Insert(n, sorted));
  }

  /** What `sortedLower` promises; by `RenderingIsStable` only one list has it. */
  ghost predicate IsSortedLower(names: seq<string>, out: seq<string>) {
    InOrder(out) && multiset(out) == multiset(NonEmpty(Normals(names)))
  }

  function NonEmpty(names: seq<string>): seq<string> {
    if names == [] then []
    else NonEmpty(names[..|names| - 1]) + if names[|names| - 1] == "" then [] else [names[|names| - 1]]
  }

  function SortedLower(names: seq<string>): seq<string> {
    if names == [] then []
    else
      var n := |names| - 1;
      var rest := SortedLower(names[..n]);
      if Normal(names[n]) == "" then rest else Insert(Normal(names[n]), rest)
  }

  lemma {:induction false} SortedLowerSorts(names: seq<string>)
    ensures IsSortedLower(names, SortedLower(names))
  {
    if names != [] {
      var n := |names| - 1;
      SortedLowerSorts(names[..n]);
      assert Normals(names)[..n] == Normals(names[..n]);
      if Normal(names[n]) != "" {
        InsertSorts(Normal(names[n]), SortedLower(names[..n]));
      }
    }
  }

  lemma TailOf(a: seq<string>)
    requires a != []
    ensures multiset(a[1..]) == multiset(a) - multiset{a[0]} && a == [a[0]] + a[1..]
  {
    assert a == [a[0]] + a[1..];
  }

  lemma SameHead(a: seq<string>, b: seq<string>)
    requires InOrder(a) && InOrder(b) && multiset(a) == multiset(b) && a != [] && b != []
    ensures a[0] == b[0]
  {
    assert a[0] in multiset(b) && b[0] in multiset(a);
    var i :| 0 <= i < |b| && b[i] == a[0];
    var j :| 0 <= j < |a| && a[j] == b[0];
    FirstIsLeast(a, j);
    FirstIsLeast(b, i);
    StringLeAntisymmetric(a[0], b[0]);
  }

  lemma {:induction false} OrderIsUnique(a: seq<string>, b: seq<string>)
    requires InOrder(a) && InOrder(b) && multiset(a) == multiset(b)
    ensures a == b
  {
    assert |a| == |multiset(a)| == |b|;
    if a != [] {
      SameHead(a, b);
      TailOf(a);
      TailOf(b);
      OrderIsUnique(a[1..], b[1..]);
    }
  }

  lemma FirstIsLeast(a: seq<string>, j: nat)
    requires InOrder(a) && j < |a|
    ensures StringLe(a[0], a[j])
  {
    StringLeTotal(a[0], a[0]);
  }

  /** Server names in any order, case and with any blanks around them render the same. */
  lemma RenderingIsStable(a: seq<string>, b: seq<string>)
    requires multiset(NonEmpty(Normals(a))) == multiset(NonEmpty(Normals(b)))
    ensures SortedLower(a) == SortedLower(b)
  {
    SortedLowerSorts(a);
    SortedLowerSorts(b);
    OrderIsUnique(SortedLower(a), SortedLower(b));
  }

  // ---- validation ----

  function RouteNames(routes: seq<Route>): seq<string> {
    if routes == [] then [] else RouteNames(routes[..|routes| - 1]) + Normals(routes[|routes| - 1].snis)
  }

  function SiteNames(c: Config): seq<string> {
    if c.site.Some? && c.site.value.domain != "" then [Normal(c.site.value.domain)] else []
  }

  /** Every server name some route or the site claims, as compared. */
  function Claimed(c: Config): seq<string> {
    RouteNames(c.routes) + SiteNames(c)
  }

  function Relays(routes: seq<Route>): seq<string> {
    if routes == [] then []
    else Relays(routes[..|routes| - 1]) + if routes[|routes| - 1].relay == "" then [] else [routes[|routes| - 1].relay]
  }

  function Fallbacks(routes: seq<Route>): nat {
    if routes == [] then 0 else Fallbacks(routes[..|routes| - 1]) + if routes[|routes| - 1].fallback then 1 else 0
  }

  predicate ValidRoute(r: Route) {
    r.upstream != "" && r.relay != r.upstream && (r.snis != [] || r.fallback)
  }

  predicate ValidProxy(p: Option<Proxy>) {
    p.Some? ==> p.value.target != "" && p.value.paths != []
  }

  ghost predicate DistinctNames(names: seq<string>) {
    NoDuplicates(names) && "" !in names
  }

  ghost predicate ValidRoutes(routes: seq<Route>) {
    && (forall r :: r in routes ==> ValidRoute(r))
    && NoDuplicates(Relays(routes))
    && DistinctNames(RouteNames(routes))
  }

  predicate ValidSite(s: Site) {
    && (s.domain != "" || s.HasIPCert())
    && (s.domain != "" ==> s.certFile != "" && s.keyFile != "")
    && (s.HasIPCert() ==> s.ipKeyFile != "")
    && s.listen != ""
    && ValidProxy(s.panel) && ValidProxy(s.sub)
  }

  ghost predicate Valid(c: Config) {
    || c.mode == MODE_OFF
    || (&& (c.mode == MODE_SHARED || c.mode == MODE_ONLY443)
        && 0 < c.port <= 65535
        && (c.routes != [] || c.site.Some?)
        && ValidRoutes(c.routes)
        && Fallbacks(c.routes) <= 1
        && (c.site.Some? ==> ValidSite(c.site.value) && c.site.value.listen !in Relays(c.routes))
        && DistinctNames(Claimed(c)))
  }

  datatype ConfigError =
    | UnknownMode | PortOutOfRange | NothingToServe | NoUpstream(route: string) | RelaysToItself(route: string)
    | SharedRelay(route: string, other: string) | MatchesNothing(route: string) | NamelessOwner(owner: string)
    | ClaimedTwice(name: string, first: string, second: string) | ManyFallbacks
    | NoDomain | NoCertificate | NoIPKey | NoListen | SiteOnRelay(route: string) | NoTarget(proxy: string) | NoPath(proxy: string)

  lemma DistinctOneMore(names: seq<string>, n: string)
    requires DistinctNames(names)
    ensures DistinctNames(names + [n]) <==> n != "" && n !in names
  {
    if n in names {
      var i :| 0 <= i < |names| && names[i] == n;
      assert (names + [n])[i] == (names + [n])[|names|];
    }
    assert (names + [n])[|names|] == n;
  }

  lemma DistinctPart(a: seq<string>, b: seq<string>)
    requires NoDuplicates(a + b)
    ensures NoDuplicates(a)
  {
    forall i, j | 0 <= i < j < |a| ensures a[i] != a[j] {
      assert (a + b)[i] == a[i] && (a + b)[j] == a[j];
    }
  }

  /** Claiming one name: the error, if any, and the claims after it. */
  method Claim(seen: map<string, string>, name: string, owner: string)
    returns (err: Option<ConfigError>, now: map<string, string>)
    ensures err.None? <==> Normal(name) != "" && Normal(name) !in seen
    ensures err.None? ==> now == seen[Normal(name) := owner]
  {
    var key := Normal(name);
    now := seen;
    if key == "" {
      return Some(NamelessOwner(owner)), now;
    }
    if key in seen {
      return Some(ClaimedTwice(key, seen[key], owner)), now;
    }
    now := seen[key := owner];
    err := None;
  }

  method ClaimAll(seen: map<string, string>, r: Route, ghost names: seq<string>)
    returns (err: Option<ConfigError>, now: map<string, string>)
    requires seen.Keys == Elements(names) && DistinctNames(names)
    ensures err.None? <==> DistinctNames(names + Normals(r.snis))
    ensures err.None? ==> now.Keys == Elements(names + Normals(r.snis))
  {
    now := seen;
    assert names + Normals(r.snis[..0]) == names;
    for i := 0 to |r.snis|
      invariant now.Keys == Elements(names + Normals(r.snis[..i])) && DistinctNames(names + Normals(r.snis[..i]))
    {
      var sofar, key := names + Normals(r.snis[..i]), Normal(r.snis[i]);
      assert names + Normals(r.snis[..i + 1]) == sofar + [key];
      DistinctOneMore(sofar, key);
      assert key in now <==> key in Elements(sofar);
      err, now := Claim(now, r.snis[i], r.name);
      if err.Some? {
        var rest := Normals(r.snis)[i + 1..];
        assert names + Normals(r.snis) == sofar + [key] + rest;
        if DistinctNames(sofar + [key] + rest) {
          DistinctPart(sofar + [key], rest);
          assert false;
        }
        return;
      }
    }
    assert r.snis[..|r.snis|] == r.snis;
    err := None;
  }

  /** What the loop over the routes knows after some of them. */
  ghost predicate Checked(routes: seq<Route>, seen: set<string>, relays: set<string>, fallbacks: int) {
    && ValidRoutes(routes) && seen == Elements(RouteNames(routes))
    && relays == Elements(Relays(routes)) && fallbacks == Fallbacks(routes)
  }

  lemma {:induction false} PrefixIsValid(routes: seq<Route>, i: nat)
    requires i <= |routes| && ValidRoutes(routes)
    ensures ValidRoutes(routes[..i])
    decreases |routes|
  {
    if i < |routes| {
      var init := routes[..|routes| - 1];
      var names := Normals(routes[|routes| - 1].snis);
      DistinctPart(RouteNames(init), names);
      DistinctPart(Relays(init), if routes[|routes| - 1].relay == "" then [] else [routes[|routes| - 1].relay]);
      assert forall n :: n in RouteNames(init) ==> n in RouteNames(init) + names;
      PrefixIsValid(init, i);
      assert init[..i] == routes[..i];
    } else {
      assert routes[..i] == routes;
    }
  }

  lemma OneRouteMore(routes: seq<Route>, r: Route)
    ensures Relays(routes + [r]) == Relays(routes) + if r.relay == "" then [] else [r.relay]
    ensures RouteNames(routes + [r]) == RouteNames(routes) + Normals(r.snis)
    ensures Fallbacks(routes + [r]) == Fallbacks(routes) + if r.fallback then 1 else 0
  {
    assert (routes + [r])[..|routes|] == routes;
  }

  lemma RelayOneMore(relays: seq<string>, r: Route)
    requires NoDuplicates(relays)
    ensures NoDuplicates(relays + if r.relay == "" then [] else [r.relay]) <==> r.relay == "" || r.relay !in relays
  {
    if r.relay == "" {
      assert relays + [] == relays;
    } else if r.relay in relays {
      var k :| 0 <= k < |relays| && relays[k] == r.relay;
      assert (relays + [r.relay])[k] == (relays + [r.relay])[|relays|];
    }
  }

  /** What makes a route acceptable after others. */
  lemma RouteAccepted(before: seq<Route>, r: Route)
    requires ValidRoutes(before)
    ensures ValidRoutes(before + [r]) <==>
            && ValidRoute(r) && (r.relay == "" || r.relay !in Relays(before))
            && DistinctNames(RouteNames(before) + Normals(r.snis))
  {
    OneRouteMore(before, r);
    RelayOneMore(Relays(before), r);
    assert (forall x :: x in before + [r] ==> ValidRoute(x)) <==> ValidRoute(r) by {
      assert forall x :: x in before + [r] <==> x in before || x == r;
    }
  }

  /** The checks on one route, after those on the routes before it. */
  method ValidateRoute(ghost before: seq<Route>, r: Route, seen: map<string, string>, relays: map<string, string>)
    returns (err: Option<ConfigError>, seen': map<string, string>, relays': map<string, string>)
    requires ValidRoutes(before) && seen.Keys == Elements(RouteNames(before)) && relays.Keys == Elements(Relays(before))
    ensures err.None? <==> ValidRoutes(before + [r])
    ensures err.None? ==> seen'.Keys == Elements(RouteNames(before + [r])) && relays'.Keys == Elements(Relays(before + [r]))
  {
    seen', relays' := seen, relays;
    OneRouteMore(before, r);
    RouteAccepted(before, r);
    assert r.relay in relays <==> r.relay in Elements(Relays(before));
    if r.upstream == "" {
      return Some(NoUpstream(r.name)), seen', relays';
    }
    if r.relay != "" {
      if r.relay == r.upstream {
        return Some(RelaysToItself(r.name)), seen', relays';
      }
      if r.relay in relays {
        return Some(SharedRelay(relays[r.relay], r.name)), seen', relays';
      }
      relays' := relays[r.relay := r.name];
    }
    if |r.snis| == 0 && !r.fallback {
      return Some(MatchesNothing(r.name)), seen', relays';
    }
    err, seen' := ClaimAll(seen, r, RouteNames(before));
  }

  method ValidateRoutes(routes: seq<Route>)
    returns (err: Option<ConfigError>, seen: map<string, string>, relays: map<string, string>, fallbacks: int)
    ensures err.None? <==> ValidRoutes(routes)
    ensures err.None? ==> Checked(routes, seen.Keys, relays.Keys, fallbacks)
  {
    err, seen, relays, fallbacks := None, map[], map[], 0;
    for i := 0 to |routes|
      invariant Checked(routes[..i], seen.Keys, relays.Keys, fallbacks)
    {
      assert routes[..i + 1] == routes[..i] + [routes[i]];
      assert routes[..i + 1][..i] == routes[..i];
      err, seen, relays := ValidateRoute(routes[..i], routes[i], seen, relays);
      if err.Some? {
        if ValidRoutes(routes) {
          PrefixIsValid(routes, i + 1);
          assert false;
        }
        return;
      }
      if routes[i].fallback {
        fallbacks := fallbacks + 1;
      }
    }
    assert routes[..|routes|] == routes;
    err := None;
  }

  method ValidateProxy(p: Option<Proxy>) returns (err: Option<ConfigError>)
    ensures err.None? <==> ValidProxy(p)
  {
    if p.None? {
      return None;
    }
    if p.value.target == "" {
      return Some(NoTarget(p.value.name));
    }
    if |p.value.paths| == 0 {
      return Some(NoPath(p.value.name));
    }
    return None;
  }

  method Validate(c: Config) returns (err: Option<ConfigError>)
    ensures err.None? <==> Valid(c)
  {
    if c.mode != MODE_OFF && c.mode != MODE_SHARED && c.mode != MODE_ONLY443 {
      return Some(UnknownMode);
    }
    if c.mode == MODE_OFF {
      return None;
    }
    if c.port <= 0 || c.port > 65535 {
      return Some(PortOutOfRange);
    }
    if |c.routes| == 0 && c.site.None? {
      return Some(NothingToServe);
    }
    var seen: map<string, string>, relays: map<string, string>, fallbacks: int;
    err, seen, relays, fallbacks := ValidateRoutes(c.routes);
    if err.Some? {
      return;
    }
    if fallbacks > 1 {
      return Some(ManyFallbacks);
    }
    if c.site.None? {
      assert Claimed(c) == RouteNames(c.routes);
      return None;
    }
    var s := c.site.value;
    if s.domain == "" && !s.HasIPCert() {
      return Some(NoDomain);
    }
    if s.domain != "" && (s.certFile == "" || s.keyFile == "") {
      return Some(NoCertificate);
    }
    if s.ipCertFile != "" && s.ipKeyFile == "" {
      return Some(NoIPKey);
    }
    if s.listen == "" {
      return Some(NoListen);
    }
    assert s.listen in relays <==> s.listen in Relays(c.routes) by {
      assert s.listen in Relays(c.routes) <==> s.listen in Elements(Relays(c.routes));
    }
    if s.listen in relays {
      return Some(SiteOnRelay(relays[s.listen]));
    }
    if s.domain != "" {
      DistinctOneMore(RouteNames(c.routes), Normal(s.domain));
      assert Normal(s.domain) in seen <==> Normal(s.domain) in Elements(RouteNames(c.routes));
      err, seen := Claim(seen, s.domain, "the site");
      if err.Some? {
        return;
      }
    } else {
      assert Claimed(c) == RouteNames(c.routes);
    }
    err := ValidateProxy(s.panel);
    if err.Some? {
      return;
    }
    err := ValidateProxy(s.sub);
  }

  // ---- compilation ----

  /** A line of the map: its key as nginx compares it and as it is written, and the comment above it if there is one. */
  datatype Line = Line(key: string, written: string, upstream: string, heading: Option<string>)

  function LinesFor(names: seq<string>, upstream: string, owner: string): seq<Line> {
    seq(|names|, i requires 0 <= i < |names| => Line(names[i], names[i], upstream, if i == 0 then Some(owner) else None))
  }

  function DomainLine(s: Site): Line {
    Line(Normal(s.domain), s.domain, s.listen, Some("panel domain"))
  }

  function NamelessLine(s: Site): Line {
    Line("", "\"\"", s.listen, Some("requests by IP address, no SNI"))
  }

  function SiteLines(c: Config): seq<Line> {
    if c.site.None? then []
    else
      (if c.site.value.domain != "" then [DomainLine(c.site.value)] else [])
      + if c.site.value.HasIPCert() then [NamelessLine(c.site.value)] else []
  }

  function RouteLines(routes: seq<Route>): seq<Line> {
    if routes == [] then []
    else
      var r := routes[|routes| - 1];
      RouteLines(routes[..|routes| - 1]) + LinesFor(SortedLower(r.snis), r.Target(), r.name)
  }

  /** A relay's own server: it takes the PROXY header off and passes the plain stream on. */
  datatype Server = Server(listen: string, upstream: string, heading: string)

  function RelayServers(routes: seq<Route>): seq<Server> {
    if routes == [] then []
    else
      var r := routes[|routes| - 1];
      RelayServers(routes[..|routes| - 1]) + if r.relay == "" then [] else [Server(r.relay, r.upstream, r.name)]
  }

  function FirstFallback(routes: seq<Route>): Option<Route> {
    if routes == [] then None else if routes[0].fallback then Some(routes[0]) else FirstFallback(routes[1..])
  }

  function FallbackUpstream(c: Config): string {
    match FirstFallback(c.routes)
    case Some(r) => r.Target()
    case None =>
      if c.site.Some? then c.site.value.listen
      else if c.routes != [] then c.routes[0].Target()
      else ""
  }

  /** The stream block: the map, the public server that reads names by it, and the relays' servers. */
  datatype Stream = Stream(lines: seq<Line>, default_: string, port: int, relays: seq<Server>)

  /** None when there is no block. */
  function StreamOf(c: Config): Option<Stream> {
    if c.mode == MODE_OFF then None
    else Some(Stream(SiteLines(c) + RouteLines(c.routes), FallbackUpstream(c), c.port, RelayServers(c.routes)))
  }

  method FindFallbackUpstream(c: Config) returns (upstream: string)
    ensures upstream == FallbackUpstream(c)
  {
    for i := 0 to |c.routes|
      invariant FirstFallback(c.routes) == FirstFallback(c.routes[i..])
    {
      assert c.routes[i..][1..] == c.routes[i + 1..];
      if c.routes[i].fallback {
        return c.routes[i].Target();
      }
    }
    if c.site.Some? {
      return c.site.value.listen;
    }
    if |c.routes| > 0 {
      return c.routes[0].Target();
    }
    return "";
  }

  method AppendLines(before: seq<Line>, names: seq<string>, upstream: string, owner: string) returns (lines: seq<Line>)
    ensures lines == before + LinesFor(names, upstream, owner)
  {
    lines := before;
    for j := 0 to |names|
      invariant lines == before + LinesFor(names[..j], upstream, owner)
    {
      lines := lines + [Line(names[j], names[j], upstream, if j == 0 then Some(owner) else None)];
    }
    assert names[..|names|] == names;
  }

  method WriteSiteLines(c: Config) returns (lines: seq<Line>)
    ensures lines == SiteLines(c)
  {
    lines := [];
    if c.site.Some? && c.site.value.domain != "" {
      lines := lines + [DomainLine(c.site.value)];
    }
    if c.site.Some? && c.site.value.HasIPCert() {
      lines := lines + [NamelessLine(c.site.value)];
    }
  }

  lemma RouteLinesStep(routes: seq<Route>, i: nat, names: seq<string>, target: string)
    requires i < |routes| && names == SortedLower(routes[i].snis) && target == routes[i].Target()
    ensures RouteLines(routes[..i + 1]) == RouteLines(routes[..i]) + LinesFor(names, target, routes[i].name)
  {
    assert routes[..i + 1][..i] == routes[..i];
  }

  lemma LinesAssoc(a: seq<Line>, b: seq<Line>, c: seq<Line>)
    ensures a + b + c == a + (b + c)
  {
  }

  method WriteRouteLines(before: seq<Line>, routes: seq<Route>) returns (lines: seq<Line>)
    ensures lines == before + RouteLines(routes)
  {
    lines := before;
    for i := 0 to |routes|
      invariant lines == before + RouteLines(routes[..i])
    {
      var names, target := SortedLower(routes[i].snis), routes[i].Target();
      RouteLinesStep(routes, i, names, target);
      LinesAssoc(before, RouteLines(routes[..i]), LinesFor(names, target, routes[i].name));
      lines := AppendLines(lines, names, target, routes[i].name);
    }
    assert routes[..|routes|] == routes;
  }

  method WriteRelayServers(routes: seq<Route>) returns (relays: seq<Server>)
    ensures relays == RelayServers(routes)
  {
    relays := [];
    for i := 0 to |routes|
      invariant relays == RelayServers(routes[..i])
    {
      assert routes[..i + 1][..i] == routes[..i];
      if routes[i].relay == "" {
        continue;
      }
      relays := relays + [Server(routes[i].relay, routes[i].upstream, routes[i].name)];
    }
    assert routes[..|routes|] == routes;
  }

  method StreamConf(c: Config) returns (r: Result<Option<Stream>, ConfigError>)
    ensures r.Ok? <==> Valid(c)
    ensures r.Ok? ==> r.value == StreamOf(c)
  {
    var err := Validate(c);
    if err.Some? {
      return Err(err.value);
    }
    if c.mode == MODE_OFF {
      return Ok(None);
    }
    var lines := WriteSiteLines(c);
    lines := WriteRouteLines(lines, c.routes);
    var upstream := FindFallbackUpstream(c);
    var relays := WriteRelayServers(c.routes);
    return Ok(Some(Stream(lines, upstream, c.port, relays)));
  }

  /** What the map makes of a server name: nginx keeps the last of equal keys. */
  function LookUp(s: Stream, name: string): string {
    LookUpIn(s.lines, name, s.default_)
  }

  function LookUpIn(lines: seq<Line>, name: string, default_: string): string {
    if lines == [] then default_
    else if lines[|lines| - 1].key == name then lines[|lines| - 1].upstream
    else LookUpIn(lines[..|lines| - 1], name, default_)
  }

  function Keys(lines: seq<Line>): seq<string> {
    seq(|lines|, i requires 0 <= i < |lines| => lines[i].key)
  }

  lemma {:induction false} LookUpFinds(lines: seq<Line>, name: string, default_: string)
    ensures name !in Keys(lines) ==> LookUpIn(lines, name, default_) == default_
    ensures forall l :: l in lines && l.key == name && NoDuplicates(Keys(lines)) ==> LookUpIn(lines, name, default_) == l.upstream
  {
    if lines != [] {
      var n := |lines| - 1;
      var init := lines[..n];
      LookUpFinds(init, name, default_);
      assert lines == init + [lines[n]];
      assert Keys(lines) == Keys(init) + [lines[n].key];
      if NoDuplicates(Keys(lines)) {
        DistinctPart(Keys(init), [lines[n].key]);
        forall l | l in lines && l.key == name ensures LookUpIn(lines, name, default_) == l.upstream {
          var i :| 0 <= i < |lines| && lines[i] == l;
          assert Keys(lines)[i] == name && Keys(lines)[n] == lines[n].key;
        }
      }
    }
  }

  lemma {:induction false} NoneDropped(names: seq<string>)
    requires "" !in names
    ensures NonEmpty(names) == names
  {
    if names != [] {
      var n := |names| - 1;
      assert names == names[..n] + [names[n]];
      NoneDropped(names[..n]);
    }
  }

  lemma KeysOfLines(before: seq<Line>, names: seq<string>, upstream: string, owner: string)
    ensures Keys(before + LinesFor(names, upstream, owner)) == Keys(before) + names
  {
  }

  /** The keys of the routes' lines are the claimed names, reordered within each route. */
  lemma {:induction false} RouteKeys(routes: seq<Route>)
    requires "" !in RouteNames(routes)
    ensures multiset(Keys(RouteLines(routes))) == multiset(RouteNames(routes))
  {
    if routes != [] {
      var init, r := routes[..|routes| - 1], routes[|routes| - 1];
      var names := Normals(r.snis);
      NotInParts("", RouteNames(init), names);
      RouteKeys(init);
      NoneDropped(names);
      SortedLowerSorts(r.snis);
      KeysOfLines(RouteLines(init), SortedLower(r.snis), r.Target(), r.name);
    }
  }

  lemma NotInParts(n: string, a: seq<string>, b: seq<string>)
    ensures n in a + b <==> n in a || n in b
  {
  }

  lemma SameMultisetSameDistinct(a: seq<string>, b: seq<string>)
    requires multiset(a) == multiset(b) && NoDuplicates(a)
    ensures NoDuplicates(b)
  {
    assert |a| == |multiset(a)| == |b|;
    ElementsCount(a);
    ElementsCount(b);
    assert Elements(a) == Elements(b) by {
      forall x ensures x in Elements(a) <==> x in Elements(b) {
        assert x in a <==> x in multiset(a);
        assert x in b <==> x in multiset(b);
      }
    }
  }

  lemma FlatDistinct(names: seq<string>, site: seq<string>, empty: seq<string>)
    requires DistinctNames(names + site) && (empty == [] || empty == [""]) && |site| <= 1
    ensures NoDuplicates(site + empty + names)
    ensures forall n :: n in site + empty + names <==> n in names + site || n in empty
  {
    var claimed := names + site;
    assert forall i :: 0 <= i < |names| ==> claimed[i] == names[i] && names[i] in claimed;
    assert forall i :: 0 <= i < |site| ==> claimed[|names| + i] == site[i] && site[i] in claimed;
  }

  lemma SameMembers(a: seq<string>, b: seq<string>, n: string)
    requires multiset(a) == multiset(b)
    ensures n in a <==> n in b
  {
    assert n in a <==> n in multiset(a);
    assert n in b <==> n in multiset(b);
  }

  lemma KeysConcat(a: seq<Line>, b: seq<Line>)
    ensures Keys(a + b) == Keys(a) + Keys(b)
  {
  }

  lemma KeysOfOne(l: Line)
    ensures Keys([l]) == [l.key] && Keys([]) == []
  {
  }

  function EmptyName(c: Config): seq<string> {
    if c.site.Some? && c.site.value.HasIPCert() then [""] else []
  }

  lemma SiteKeysAre(c: Config)
    ensures Keys(SiteLines(c)) == SiteNames(c) + EmptyName(c)
  {
    if c.site.Some? {
      var s := c.site.value;
      KeysConcat(if s.domain != "" then [DomainLine(s)] else [], if s.HasIPCert() then [NamelessLine(s)] else []);
      KeysOfOne(DomainLine(s));
      KeysOfOne(NamelessLine(s));
    }
  }

  lemma MapKeysAre(c: Config)
    requires c.mode != MODE_OFF && multiset(Keys(RouteLines(c.routes))) == multiset(RouteNames(c.routes))
    ensures multiset(Keys(StreamOf(c).value.lines)) == multiset(SiteNames(c) + EmptyName(c) + RouteNames(c.routes))
  {
    KeysConcat(SiteLines(c), RouteLines(c.routes));
    SiteKeysAre(c);
  }

  /** The map's keys: what the site and the routes claim, and the empty name when there is an IP certificate. */
  lemma MapKeys(c: Config)
    requires Valid(c) && c.mode != MODE_OFF
    ensures NoDuplicates(Keys(StreamOf(c).value.lines))
    ensures forall n :: n in Keys(StreamOf(c).value.lines) <==>
                        n in Claimed(c) || (n == "" && c.site.Some? && c.site.value.HasIPCert())
  {
    var keys := Keys(StreamOf(c).value.lines);
    var names, site := RouteNames(c.routes), SiteNames(c);
    var empty := EmptyName(c);
    NotInParts("", names, site);
    RouteKeys(c.routes);
    FlatDistinct(names, site, empty);
    MapKeysAre(c);
    SameMultisetSameDistinct(site + empty + names, keys);
    forall n ensures n in keys <==> n in Claimed(c) || n in empty {
      SameMembers(keys, site + empty + names, n);
    }
  }

  /** Some line leads from this key to that upstream. */
  ghost predicate Leads(lines: seq<Line>, key: string, upstream: string) {
    exists l :: l in lines && l.key == key && l.upstream == upstream
  }

  lemma LeadsConcat(a: seq<Line>, b: seq<Line>, key: string, upstream: string)
    ensures Leads(a + b, key, upstream) <==> Leads(a, key, upstream) || Leads(b, key, upstream)
  {
    assert forall l :: l in a + b <==> l in a || l in b;
  }

  lemma {:induction false} RouteHasLine(routes: seq<Route>, i: nat, j: nat)
    requires "" !in RouteNames(routes) && i < |routes| && j < |routes[i].snis|
    ensures Leads(RouteLines(routes), Normal(routes[i].snis[j]), routes[i].Target())
    ensures Normal(routes[i].snis[j]) in RouteNames(routes)
  {
    var init, r := routes[..|routes| - 1], routes[|routes| - 1];
    var key := Normal(routes[i].snis[j]);
    NotInParts("", RouteNames(init), Normals(r.snis));
    NotInParts(key, RouteNames(init), Normals(r.snis));
    LeadsConcat(RouteLines(init), LinesFor(SortedLower(r.snis), r.Target(), r.name), key, routes[i].Target());
    if i < |init| {
      assert init[i] == routes[i];
      RouteHasLine(init, i, j);
    } else {
      OwnLine(r, j);
    }
  }

  lemma OwnLine(r: Route, j: nat)
    requires j < |r.snis| && "" !in Normals(r.snis)
    ensures Leads(LinesFor(SortedLower(r.snis), r.Target(), r.name), Normal(r.snis[j]), r.Target())
    ensures Normal(r.snis[j]) in Normals(r.snis)
  {
    NoneDropped(Normals(r.snis));
    SortedLowerSorts(r.snis);
    var names := SortedLower(r.snis);
    assert Normals(r.snis)[j] == Normal(r.snis[j]);
    SameMembers(names, Normals(r.snis), Normal(r.snis[j]));
    var k :| 0 <= k < |names| && names[k] == Normal(r.snis[j]);
    assert LinesFor(names, r.Target(), r.name)[k].key == Normal(r.snis[j]);
  }

  // ---- the fallback ----

  lemma {:induction false} OneFallback(routes: seq<Route>, i: nat)
    requires Fallbacks(routes) <= 1 && i < |routes| && routes[i].fallback
    ensures FirstFallback(routes) == Some(routes[i])
  {
    FallbacksFromFront(routes);
    if i > 0 {
      FallbackCounts(routes[1..], i - 1);
      OneFallback(routes[1..], i - 1);
    }
  }

  lemma {:induction false} FallbacksFromFront(routes: seq<Route>)
    requires routes != []
    ensures Fallbacks(routes) == (if routes[0].fallback then 1 else 0) + Fallbacks(routes[1..])
  {
    if |routes| == 1 {
      assert routes[..0] == [] && routes[1..] == [];
    } else {
      var init := routes[..|routes| - 1];
      FallbacksFromFront(init);
      assert init[1..] == routes[1..][..|routes[1..]| - 1];
    }
  }

  lemma {:induction false} FallbackCounts(routes: seq<Route>, i: nat)
    requires i < |routes| && routes[i].fallback
    ensures Fallbacks(routes) >= 1
  {
    if i < |routes| - 1 {
      assert routes[..|routes| - 1][i] == routes[i];
      FallbackCounts(routes[..|routes| - 1], i);
    }
  }

  lemma {:induction false} NoFallback(routes: seq<Route>)
    requires forall r :: r in routes ==> !r.fallback
    ensures FirstFallback(routes) == None
  {
    if routes != [] {
      NoFallback(routes[1..]);
    }
  }
}
