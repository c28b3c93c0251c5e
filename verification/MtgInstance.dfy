/**
 What an mtg process is started for: the settings of its inbound, the config they are written to, and the fingerprint
 that is to tell when the config changes.
 */
module MtgInstance {
  import opened Prelude
  import opened Text

  datatype ClientSecret = ClientSecret(id: string, secret: string, email: string)
  {
    function Rendered(): string { id + ['='] + secret + ['='] + email }
  }

  /** The optional settings. */
  datatype Tuning = Tuning(debug: bool, proxyProtocolListener: bool, preferIP: string, concurrency: int,
                           publicIPv4: string, publicIPv6: string, tolerateTimeSkewness: string, dns: string,
                           frontingHost: string, frontingPort: int, frontingProxyProtocol: bool,
                           doppelgangerURLs: seq<string>, doppelgangerRepeats: int, doppelgangerRaidEach: string,
                           doppelgangerDRS: bool, antiReplayDisabled: bool, blocklistDisabled: bool,
                           blocklistURLs: seq<string>, routeThroughXray: bool, xrayRoutePort: int)

  datatype Instance = Instance(id: int, tag: string, listen: string, port: int, multiUser: bool,
                               clients: seq<ClientSecret>, tuning: Tuning)
  {
    function BindTo(): string {
      (if listen == "" then "0.0.0.0" else listen) + ":" + FormatInt(port)
    }

    function ActiveClients(): seq<ClientSecret> {
      if multiUser || |clients| <= 1 then clients else clients[..1]
    }

    function General(): seq<string> {
      var t := tuning;
      [BindTo(), FormatBool(multiUser), FormatBool(t.debug), FormatBool(t.proxyProtocolListener), t.preferIP, FormatInt(t.concurrency)]
    }

    function Addresses(): seq<string> { [tuning.publicIPv4, tuning.publicIPv6] }

    function Others(): seq<string> {
      var t := tuning;
      [t.tolerateTimeSkewness, t.dns, t.frontingHost, FormatInt(t.frontingPort), FormatBool(t.frontingProxyProtocol),
       Join(t.doppelgangerURLs, ','), FormatInt(t.doppelgangerRepeats), t.doppelgangerRaidEach, FormatBool(t.doppelgangerDRS),
       FormatBool(t.antiReplayDisabled), FormatBool(t.blocklistDisabled), Join(t.blocklistURLs, ','),
       FormatBool(t.routeThroughXray), FormatInt(t.xrayRoutePort)]
    }

    /** The settings as texts, in their fixed order. */
    function Values(): seq<string> {
      General() + Addresses() + Others()
    }

    function Parts(): seq<string> {
      Values() + RenderedAll(ActiveClients())
    }

    function Fingerprint(): string { Join(Parts(), '|') }
  }

  function RenderedAll(clients: seq<ClientSecret>): seq<string> {
    seq(|clients|, i requires 0 <= i < |clients| => clients[i].Rendered())
  }

  // ---- the config ----

  datatype Fronting = Fronting(host: Option<string>, port: Option<int>, proxyProtocol: bool)

  /** The port is that of the bridge into Xray. */
  datatype Network = Network(dns: Option<string>, proxy: Option<int>)

  datatype Doppelganger = Doppelganger(urls: Option<seq<string>>, repeats: Option<int>, raidEach: Option<string>, drs: bool)

  datatype Blocklist = Off | From(urls: seq<string>)

  /** What the generated TOML says; a key that is not written is None or false. */
  datatype Toml = Toml(secret: Option<string>, bindTo: string, debug: bool, proxyProtocolListener: bool,
                       preferIP: Option<string>, concurrency: Option<int>, publicIPv4: Option<string>,
                       publicIPv6: Option<string>, tolerateTimeSkewness: Option<string>,
                       secrets: Option<seq<(string, string)>>, fronting: Option<Fronting>, network: Option<Network>,
                       doppelganger: Option<Doppelganger>, antiReplayOff: bool, blocklist: Option<Blocklist>, statsPort: int)

  function IfText(s: string): Option<string> { if s != "" then Some(s) else None }

  function IfPositive(n: int): Option<int> { if n > 0 then Some(n) else None }

  function IfAny(urls: seq<string>): Option<seq<string>> { if urls != [] then Some(urls) else None }

  function Keys(clients: seq<ClientSecret>): seq<(string, string)> {
    seq(|clients|, i requires 0 <= i < |clients| => (clients[i].id, clients[i].secret))
  }

  function FirstSecret(inst: Instance): Option<string> {
    if inst.multiUser || inst.clients == [] then None else Some(inst.ActiveClients()[0].secret)
  }

  function SecretTable(inst: Instance): Option<seq<(string, string)>> {
    if inst.multiUser then Some(Keys(inst.clients)) else None
  }

  function ConfigOf(inst: Instance, statsPort: int): Toml {
    var t := inst.tuning;
    Toml(FirstSecret(inst), inst.BindTo(), t.debug, t.proxyProtocolListener, IfText(t.preferIP), IfPositive(t.concurrency),
         IfText(t.publicIPv4), IfText(t.publicIPv6), IfText(t.tolerateTimeSkewness), SecretTable(inst),
         FrontingOf(t), NetworkOf(t), DoppelgangerOf(t), t.antiReplayDisabled, BlocklistOf(t), statsPort)
  }

  function FrontingOf(t: Tuning): Option<Fronting> {
    if t.frontingHost != "" || t.frontingPort > 0 || t.frontingProxyProtocol
    then Some(Fronting(IfText(t.frontingHost), IfPositive(t.frontingPort), t.frontingProxyProtocol))
    else None
  }

  function NetworkOf(t: Tuning): Option<Network> {
    var proxy := if t.routeThroughXray then IfPositive(t.xrayRoutePort) else None;
    if t.dns != "" || proxy.Some? then Some(Network(IfText(t.dns), proxy)) else None
  }

  function DoppelgangerOf(t: Tuning): Option<Doppelganger> {
    if t.doppelgangerURLs != [] || t.doppelgangerDRS
    then Some(Doppelganger(IfAny(t.doppelgangerURLs), IfPositive(t.doppelgangerRepeats), IfText(t.doppelgangerRaidEach),
                           t.doppelgangerDRS))
    else None
  }

  function BlocklistOf(t: Tuning): Option<Blocklist> {
    if t.blocklistDisabled then Some(Off) else if t.blocklistURLs != [] then Some(From(t.blocklistURLs)) else None
  }

  // ---- what a fingerprint tells ----

  /** What config and fingerprint are made from. */
  datatype Told = Told(bindTo: string, multiUser: bool, clients: seq<ClientSecret>, tuning: Tuning)
  {
    /** Apart from the lists, each of which is one text in the fingerprint. */
    function Scalars(): Told {
      Told(bindTo, multiUser, [], tuning.(doppelgangerURLs := [], blocklistURLs := []))
    }
  }

  function ToldOf(inst: Instance): Told {
    Told(inst.BindTo(), inst.multiUser, inst.ActiveClients(), inst.tuning)
  }

  /**
   Two fingerprints are equal exactly when the settings and clients as rendered, cut at every separator, are the same
   pieces in the same order.
   */
  lemma FingerprintsAgreeIff(a: Instance, b: Instance)
    ensures a.Fingerprint() == b.Fingerprint() <==> Pieces(a.Parts(), '|') == Pieces(b.Parts(), '|')
  {
    JoinsAgreeIff(a.Parts(), b.Parts(), '|');
  }

  /** No text in it holds the character that separates the parts of a fingerprint. */
  predicate Separable(a: Instance) {
    forall p :: p in a.Parts() ==> '|' !in p
  }

  /** A list of URLs and what stands for it: one that is empty is written like one that holds an empty text. */
  function Listed(urls: seq<string>): seq<string> {
    Pieces(if urls == [] then [""] else urls, ',')
  }

  /** Client by client, what stands between the equals signs. */
  predicate SameClientPieces(a: seq<ClientSecret>, b: seq<ClientSecret>) {
    |a| == |b| && forall i :: 0 <= i < |a| ==>
      Pieces([a[i].id, a[i].secret, a[i].email], '=') == Pieces([b[i].id, b[i].secret, b[i].email], '=')
  }

  /**
   Where no text holds the separator, fingerprints are equal exactly when every single setting is, the URL lists are the
   same cut at every comma, and the clients the same cut at every equals sign.
   */
  lemma SeparableAgreeIff(a: Instance, b: Instance)
    requires Separable(a) && Separable(b)
    ensures a.Fingerprint() == b.Fingerprint() <==>
            && ToldOf(a).Scalars() == ToldOf(b).Scalars()
            && Listed(a.tuning.doppelgangerURLs) == Listed(b.tuning.doppelgangerURLs)
            && Listed(a.tuning.blocklistURLs) == Listed(b.tuning.blocklistURLs)
            && SameClientPieces(a.ActiveClients(), b.ActiveClients())
  {
    SplitJoin(a.Parts(), '|');
    SplitJoin(b.Parts(), '|');
    assert a.Fingerprint() == b.Fingerprint() <==> a.Parts() == b.Parts();
    PartsAgreeIff(a, b);
    ValuesAgreeIff(a, b);
    ListsAgreeIff(a.tuning.doppelgangerURLs, b.tuning.doppelgangerURLs);
    ListsAgreeIff(a.tuning.blocklistURLs, b.tuning.blocklistURLs);
    ClientsAgreeIff(a.ActiveClients(), b.ActiveClients());
  }

  lemma PartsAgreeIff(a: Instance, b: Instance)
    ensures a.Parts() == b.Parts() <==>
            a.Values() == b.Values() && RenderedAll(a.ActiveClients()) == RenderedAll(b.ActiveClients())
  {
    var n := |a.Values()|;
    assert |b.Values()| == n;
    if a.Parts() == b.Parts() {
      assert a.Values() == a.Parts()[..n] == b.Parts()[..n] == b.Values();
      assert RenderedAll(a.ActiveClients()) == a.Parts()[n..] == b.Parts()[n..] == RenderedAll(b.ActiveClients());
    }
  }

  lemma NumbersAgreeIff(m: int, n: int)
    ensures FormatInt(m) == FormatInt(n) <==> m == n
  {
    ParseFormatInt(m);
    ParseFormatInt(n);
  }

  lemma FlagsAgreeIff(p: bool, q: bool)
    ensures FormatBool(p) == FormatBool(q) <==> p == q
  {
    assert FormatBool(true)[0] != FormatBool(false)[0];
  }

  lemma SameThreeParts(a: Instance, b: Instance)
    ensures a.Values() == b.Values() <==>
            a.General() == b.General() && a.Addresses() == b.Addresses() && a.Others() == b.Others()
  {
    var v, w := a.Values(), b.Values();
    assert a.General() == v[..6] && a.Addresses() == v[6..8] && a.Others() == v[8..];
    assert b.General() == w[..6] && b.Addresses() == w[6..8] && b.Others() == w[8..];
  }

  /** The texts one by one. */
  lemma EqualValues(a: Instance, b: Instance)
    requires a.General() == b.General() && a.Addresses() == b.Addresses() && a.Others() == b.Others()
    ensures var t, u := a.tuning, b.tuning;
      && a.BindTo() == b.BindTo() && FormatBool(a.multiUser) == FormatBool(b.multiUser)
      && FormatBool(t.debug) == FormatBool(u.debug)
      && FormatBool(t.proxyProtocolListener) == FormatBool(u.proxyProtocolListener)
      && t.preferIP == u.preferIP && FormatInt(t.concurrency) == FormatInt(u.concurrency)
      && t.publicIPv4 == u.publicIPv4 && t.publicIPv6 == u.publicIPv6
      && t.tolerateTimeSkewness == u.tolerateTimeSkewness && t.dns == u.dns && t.frontingHost == u.frontingHost
      && FormatInt(t.frontingPort) == FormatInt(u.frontingPort)
      && FormatBool(t.frontingProxyProtocol) == FormatBool(u.frontingProxyProtocol)
      && Join(t.doppelgangerURLs, ',') == Join(u.doppelgangerURLs, ',')
      && FormatInt(t.doppelgangerRepeats) == FormatInt(u.doppelgangerRepeats)
      && t.doppelgangerRaidEach == u.doppelgangerRaidEach
      && FormatBool(t.doppelgangerDRS) == FormatBool(u.doppelgangerDRS)
      && FormatBool(t.antiReplayDisabled) == FormatBool(u.antiReplayDisabled)
      && FormatBool(t.blocklistDisabled) == FormatBool(u.blocklistDisabled)
      && Join(t.blocklistURLs, ',') == Join(u.blocklistURLs, ',')
      && FormatBool(t.routeThroughXray) == FormatBool(u.routeThroughXray)
      && FormatInt(t.xrayRoutePort) == FormatInt(u.xrayRoutePort)
  {
    var v, w := a.General(), b.General();
    assert v[0] == w[0] && v[1] == w[1] && v[2] == w[2] && v[3] == w[3] && v[4] == w[4] && v[5] == w[5];
    assert a.Addresses()[0] == b.Addresses()[0] && a.Addresses()[1] == b.Addresses()[1];
    v, w := a.Others(), b.Others();
    assert v[0] == w[0] && v[1] == w[1] && v[2] == w[2] && v[3] == w[3] && v[4] == w[4] && v[5] == w[5] && v[6] == w[6];
    assert v[7] == w[7] && v[8] == w[8] && v[9] == w[9] && v[10] == w[10] && v[11] == w[11] && v[12] == w[12] && v[13] == w[13];
  }

  lemma ValuesAgreeIff(a: Instance, b: Instance)
    ensures a.Values() == b.Values() <==>
            && ToldOf(a).Scalars() == ToldOf(b).Scalars()
            && Join(a.tuning.doppelgangerURLs, ',') == Join(b.tuning.doppelgangerURLs, ',')
            && Join(a.tuning.blocklistURLs, ',') == Join(b.tuning.blocklistURLs, ',')
  {
    SameThreeParts(a, b);
    if a.Values() == b.Values() {
      EqualValues(a, b);
      var t, u := a.tuning, b.tuning;
      NumbersAgreeIff(t.concurrency, u.concurrency);
      NumbersAgreeIff(t.frontingPort, u.frontingPort);
      NumbersAgreeIff(t.doppelgangerRepeats, u.doppelgangerRepeats);
      NumbersAgreeIff(t.xrayRoutePort, u.xrayRoutePort);
      FlagsAgreeIff(a.multiUser, b.multiUser);
      FlagsAgreeIff(t.debug, u.debug);
      FlagsAgreeIff(t.proxyProtocolListener, u.proxyProtocolListener);
      FlagsAgreeIff(t.frontingProxyProtocol, u.frontingProxyProtocol);
      FlagsAgreeIff(t.doppelgangerDRS, u.doppelgangerDRS);
      FlagsAgreeIff(t.antiReplayDisabled, u.antiReplayDisabled);
      FlagsAgreeIff(t.blocklistDisabled, u.blocklistDisabled);
      FlagsAgreeIff(t.routeThroughXray, u.routeThroughXray);
    } else {
      var s, r := ToldOf(a).Scalars(), ToldOf(b).Scalars();
      assert s == r ==> s.tuning == r.tuning;
    }
  }

  /** Two URL lists are one text exactly when they are the same cut at every comma. */
  lemma ListsAgreeIff(a: seq<string>, b: seq<string>)
    ensures Join(a, ',') == Join(b, ',') <==> Listed(a) == Listed(b)
  {
    JoinsAgreeIff(if a == [] then [""] else a, if b == [] then [""] else b, ',');
  }

  lemma RenderedIsJoined(c: ClientSecret)
    ensures c.Rendered() == Join([c.id, c.secret, c.email], '=')
  {
    assert [c.id, c.secret, c.email][1..] == [c.secret, c.email];
    assert [c.secret, c.email][1..] == [c.email];
    assert Join([c.email], '=') == c.email;
    assert Join([c.secret, c.email], '=') == c.secret + ['='] + c.email;
  }

  lemma ClientsAgreeIff(a: seq<ClientSecret>, b: seq<ClientSecret>)
    ensures RenderedAll(a) == RenderedAll(b) <==> SameClientPieces(a, b)
  {
    if |a| == |b| {
      forall i | 0 <= i < |a|
        ensures a[i].Rendered() == b[i].Rendered() <==>
                Pieces([a[i].id, a[i].secret, a[i].email], '=') == Pieces([b[i].id, b[i].secret, b[i].email], '=')
      {
        RenderedIsJoined(a[i]);
        RenderedIsJoined(b[i]);
        JoinsAgreeIff([a[i].id, a[i].secret, a[i].email], [b[i].id, b[i].secret, b[i].email], '=');
      }
      assert forall i :: 0 <= i < |a| ==> RenderedAll(a)[i] == a[i].Rendered() && RenderedAll(b)[i] == b[i].Rendered();
    }
  }

  /**
   Where no text holds the separator and the fingerprints are equal, the configs differ exactly in what the joined lists
   hide: the URLs, and what of the clients is written.
   */
  lemma HiddenChangeIff(a: Instance, b: Instance, statsPort: int)
    requires Separable(a) && Separable(b) && a.Fingerprint() == b.Fingerprint()
    ensures ConfigOf(a, statsPort) == ConfigOf(b, statsPort) <==>
            && a.tuning.doppelgangerURLs == b.tuning.doppelgangerURLs
            && (a.tuning.blocklistDisabled || a.tuning.blocklistURLs == b.tuning.blocklistURLs)
            && SecretTable(a) == SecretTable(b) && FirstSecret(a) == FirstSecret(b)
  {
    SeparableAgreeIff(a, b);
    var s, r := ToldOf(a).Scalars(), ToldOf(b).Scalars();
    assert s == r && s.tuning == r.tuning;
    SameScalarsSameSections(a.tuning, b.tuning);
  }

  lemma SameScalarsSameSections(t: Tuning, u: Tuning)
    requires t.(doppelgangerURLs := [], blocklistURLs := []) == u.(doppelgangerURLs := [], blocklistURLs := [])
    ensures FrontingOf(t) == FrontingOf(u) && NetworkOf(t) == NetworkOf(u)
    ensures DoppelgangerOf(t) == DoppelgangerOf(u) <==> t.doppelgangerURLs == u.doppelgangerURLs
    ensures BlocklistOf(t) == BlocklistOf(u) <==> t.blocklistDisabled || t.blocklistURLs == u.blocklistURLs
  {
    var s, r := t.(doppelgangerURLs := [], blocklistURLs := []), u.(doppelgangerURLs := [], blocklistURLs := []);
    assert s.frontingHost == r.frontingHost && s.frontingPort == r.frontingPort && s.dns == r.dns;
    assert s.doppelgangerDRS == r.doppelgangerDRS && s.blocklistDisabled == r.blocklistDisabled;
  }

  // ---- texts that cannot be mistaken ----

  predicate PlainUrls(urls: seq<string>) {
    forall u :: u in urls ==> u != "" && ',' !in u
  }

  predicate PlainClients(clients: seq<ClientSecret>) {
    forall c :: c in clients ==> '=' !in c.id && '=' !in c.secret
  }

  /** No separator anywhere, no blank URL and none with a comma, and no equals sign in an id or a secret. */
  predicate Plain(a: Instance) {
    && Separable(a) && PlainUrls(a.tuning.doppelgangerURLs) && PlainUrls(a.tuning.blocklistURLs)
    && PlainClients(a.ActiveClients())
  }

  lemma PlainListsAgreeIff(a: seq<string>, b: seq<string>)
    requires PlainUrls(a) && PlainUrls(b)
    ensures Listed(a) == Listed(b) <==> a == b
  {
    UncutPieces(if a == [] then [""] else a, ',');
    UncutPieces(if b == [] then [""] else b, ',');
    assert a != [] ==> a[0] in a;
    assert b != [] ==> b[0] in b;
  }

  lemma PlainClientsAgreeIff(c: ClientSecret, d: ClientSecret)
    requires '=' !in c.id && '=' !in c.secret && '=' !in d.id && '=' !in d.secret
    ensures Pieces([c.id, c.secret, c.email], '=') == Pieces([d.id, d.secret, d.email], '=') <==> c == d
  {
    PiecesOfPlainClient(c);
    PiecesOfPlainClient(d);
    var p, q := Pieces([c.id, c.secret, c.email], '='), Pieces([d.id, d.secret, d.email], '=');
    if p == q {
      assert p[0] == q[0] && p[1] == q[1] && p[2..] == q[2..];
      JoinSplit(c.email, '=');
      JoinSplit(d.email, '=');
    }
  }

  lemma PiecesOfPlainClient(c: ClientSecret)
    requires '=' !in c.id && '=' !in c.secret
    ensures var p := Pieces([c.id, c.secret, c.email], '=');
      |p| >= 2 && p[0] == c.id && p[1] == c.secret && p[2..] == Split(c.email, '=')
  {
    UncutPieces([c.id, c.secret], '=');
    PiecesConcat([c.id, c.secret], [c.email], '=');
    assert [c.id, c.secret] + [c.email] == [c.id, c.secret, c.email];
    PiecesOfOne(c.email, '=');
  }

  /** For plain settings, fingerprints are equal exactly when all settings are. */
  lemma FingerprintDecides(a: Instance, b: Instance)
    requires Plain(a) && Plain(b)
    ensures a.Fingerprint() == b.Fingerprint() <==> ToldOf(a) == ToldOf(b)
  {
    SeparableAgreeIff(a, b);
    PlainListsAgreeIff(a.tuning.doppelgangerURLs, b.tuning.doppelgangerURLs);
    PlainListsAgreeIff(a.tuning.blocklistURLs, b.tuning.blocklistURLs);
    var c, d := a.ActiveClients(), b.ActiveClients();
    if |c| == |d| {
      forall i | 0 <= i < |c|
        ensures Pieces([c[i].id, c[i].secret, c[i].email], '=') == Pieces([d[i].id, d[i].secret, d[i].email], '=') <==> c[i] == d[i]
      {
        PlainClientsAgreeIff(c[i], d[i]);
      }
    }
    assert SameClientPieces(c, d) <==> c == d;
    ScalarsAndListsAreAll(ToldOf(a), ToldOf(b));
  }

  lemma ScalarsAndListsAreAll(s: Told, r: Told)
    ensures s == r <==>
            && s.Scalars() == r.Scalars() && s.clients == r.clients
            && s.tuning.doppelgangerURLs == r.tuning.doppelgangerURLs && s.tuning.blocklistURLs == r.tuning.blocklistURLs
  {
    var t, u := s.Scalars(), r.Scalars();
    assert t == r.Scalars() ==> t.tuning == u.tuning;
    assert s.tuning == t.tuning.(doppelgangerURLs := s.tuning.doppelgangerURLs, blocklistURLs := s.tuning.blocklistURLs);
    assert r.tuning == u.tuning.(doppelgangerURLs := r.tuning.doppelgangerURLs, blocklistURLs := r.tuning.blocklistURLs);
  }

  lemma ToldDecidesConfig(a: Instance, b: Instance, statsPort: int)
    requires ToldOf(a) == ToldOf(b)
    ensures ConfigOf(a, statsPort) == ConfigOf(b, statsPort)
  {
    var s, r := ToldOf(a), ToldOf(b);
    assert a.tuning == s.tuning == b.tuning && a.multiUser == s.multiUser == b.multiUser;
    assert a.ActiveClients() == s.clients == b.ActiveClients();
  }

  /** So between plain settings no change of the config leaves the fingerprint as it was. */
  lemma ConfigChangeShows(a: Instance, b: Instance, statsPort: int)
    requires Plain(a) && Plain(b)
    ensures a.Fingerprint() == b.Fingerprint() ==> ConfigOf(a, statsPort) == ConfigOf(b, statsPort)
  {
    FingerprintDecides(a, b);
    if ToldOf(a) == ToldOf(b) {
      ToldDecidesConfig(a, b, statsPort);
    }
  }

  // ---- and texts that can ----

  function WithAddresses(inst: Instance, ipv4: string, ipv6: string): Instance {
    inst.(tuning := inst.tuning.(publicIPv4 := ipv4, publicIPv6 := ipv6))
  }

  function WithUrls(inst: Instance, urls: seq<string>): Instance {
    inst.(tuning := inst.tuning.(doppelgangerURLs := urls))
  }

  /** A separator moved from one public address to the other makes another config with the same fingerprint. */
  lemma SeparatorHidesChange(inst: Instance, x: string, y: string, z: string, statsPort: int)
    ensures var a, b := WithAddresses(inst, x + ['|'] + y, z), WithAddresses(inst, x, y + ['|'] + z);
            a.Fingerprint() == b.Fingerprint() && ConfigOf(a, statsPort) != ConfigOf(b, statsPort)
  {
    PartsAround(inst, x + ['|'] + y, z);
    PartsAround(inst, x, y + ['|'] + z);
    MovedSeparator(x, y, z);
    SamePieces(inst.General(), [x + ['|'] + y, z], [x, y + ['|'] + z], inst.Others() + RenderedAll(inst.ActiveClients()));
    FingerprintsAgreeIff(WithAddresses(inst, x + ['|'] + y, z), WithAddresses(inst, x, y + ['|'] + z));
    AddressIsWritten(inst, x + ['|'] + y, z, x, y + ['|'] + z, statsPort);
  }

  lemma PartsAround(inst: Instance, ipv4: string, ipv6: string)
    ensures WithAddresses(inst, ipv4, ipv6).Parts()
            == inst.General() + ([ipv4, ipv6] + (inst.Others() + RenderedAll(inst.ActiveClients())))
  {
    var a := WithAddresses(inst, ipv4, ipv6);
    assert a.General() == inst.General() && a.Others() == inst.Others() && a.Addresses() == [ipv4, ipv6];
  }

  lemma AddressIsWritten(inst: Instance, p: string, q: string, p': string, q': string, statsPort: int)
    requires |p| != |p'|
    ensures ConfigOf(WithAddresses(inst, p, q), statsPort) != ConfigOf(WithAddresses(inst, p', q'), statsPort)
  {
    assert IfText(p) != IfText(p');
    assert ConfigOf(WithAddresses(inst, p, q), statsPort).publicIPv4 == IfText(p);
    assert ConfigOf(WithAddresses(inst, p', q'), statsPort).publicIPv4 == IfText(p');
  }

  lemma SamePieces(front: seq<string>, a: seq<string>, b: seq<string>, back: seq<string>)
    requires Pieces(a, '|') == Pieces(b, '|')
    ensures Pieces(front + (a + back), '|') == Pieces(front + (b + back), '|')
  {
    PiecesConcat(front, a + back, '|');
    PiecesConcat(front, b + back, '|');
    PiecesConcat(a, back, '|');
    PiecesConcat(b, back, '|');
  }

  lemma MovedSeparator(x: string, y: string, z: string)
    ensures Pieces([x + ['|'] + y, z], '|') == Pieces([x, y + ['|'] + z], '|')
  {
    SplitConcat(x, y, '|');
    SplitConcat(y, z, '|');
    PiecesConcat([x + ['|'] + y], [z], '|');
    PiecesConcat([x], [y + ['|'] + z], '|');
    PiecesOfOne(x + ['|'] + y, '|');
    PiecesOfOne(x, '|');
    PiecesOfOne(z, '|');
    PiecesOfOne(y + ['|'] + z, '|');
  }

  lemma JoinedListIsAllThatShows(inst: Instance, urls: seq<string>, others: seq<string>)
    requires Join(urls, ',') == Join(others, ',')
    ensures WithUrls(inst, urls).Fingerprint() == WithUrls(inst, others).Fingerprint()
  {
    var a, b := WithUrls(inst, urls), WithUrls(inst, others);
    assert a.General() == b.General() && a.Addresses() == b.Addresses() && a.Others() == b.Others();
  }

  lemma UrlsAreWritten(inst: Instance, urls: seq<string>, others: seq<string>, statsPort: int)
    requires urls != others
    ensures ConfigOf(WithUrls(inst, urls), statsPort) != ConfigOf(WithUrls(inst, others), statsPort)
  {
    var t, u := WithUrls(inst, urls).tuning, WithUrls(inst, others).tuning;
    SameScalarsSameSections(t, u);
    assert ConfigOf(WithUrls(inst, urls), statsPort).doppelganger == DoppelgangerOf(t);
    assert ConfigOf(WithUrls(inst, others), statsPort).doppelganger == DoppelgangerOf(u);
  }

  /** Two URLs written as one, with a comma between, have the fingerprint of the two; no other text needs to be odd. */
  lemma CommaHidesChange(inst: Instance, x: string, y: string, statsPort: int)
    ensures var a, b := WithUrls(inst, [x + [','] + y]), WithUrls(inst, [x, y]);
            a.Fingerprint() == b.Fingerprint() && ConfigOf(a, statsPort) != ConfigOf(b, statsPort)
  {
    assert [x, y][1..] == [y];
    JoinedListIsAllThatShows(inst, [x + [','] + y], [x, y]);
    assert |[x + [','] + y]| != |[x, y]|;
    UrlsAreWritten(inst, [x + [','] + y], [x, y], statsPort);
  }

  /** A list that holds one blank URL has the fingerprint of none; InstanceFromInbound makes no such list. */
  lemma BlankUrlHidesChange(inst: Instance, statsPort: int)
    ensures var a, b := WithUrls(inst, [""]), WithUrls(inst, []);
            a.Fingerprint() == b.Fingerprint() && ConfigOf(a, statsPort) != ConfigOf(b, statsPort)
  {
    JoinedListIsAllThatShows(inst, [""], []);
    UrlsAreWritten(inst, [""], [], statsPort);
  }

  /** An equals sign moved from a client's id to its secret does it too. */
  lemma EqualsSignHidesChange(inst: Instance, x: string, y: string, z: string, email: string, statsPort: int)
    returns (a: Instance, b: Instance)
    requires inst.multiUser
    ensures a == inst.(clients := [ClientSecret(x + ['='] + y, z, email)] + inst.clients)
    ensures b == inst.(clients := [ClientSecret(x, y + ['='] + z, email)] + inst.clients)
    ensures a.Fingerprint() == b.Fingerprint() && ConfigOf(a, statsPort) != ConfigOf(b, statsPort)
  {
    var c, d := ClientSecret(x + ['='] + y, z, email), ClientSecret(x, y + ['='] + z, email);
    a, b := inst.(clients := [c] + inst.clients), inst.(clients := [d] + inst.clients);
    assert c.Rendered() == d.Rendered();
    assert RenderedAll(a.clients) == RenderedAll(b.clients);
    assert a.Values() == b.Values();
    assert |c.id| != |d.id|;
    assert Keys(a.clients)[0].0 != Keys(b.clients)[0].0;
  }
}
