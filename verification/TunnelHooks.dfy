/**
 The PostUp and PostDown hooks a tunnel's config is generated with, and the tick that heals its TPROXY wiring between
 the two.
 */
module TunnelHooks {
  import opened Text
  import opened Portfwd
  import opened Kernel

  /** A tunnel flavour; each has a mark and a routing table of its own. */
  datatype Kind = Kind(defaultIface: string, fwmark: string, table: string, tproxyPort: nat)

  datatype Server = Server(interfaceName: string, ipv4Pool: string, externalInterface: string, ipv6ExternalInterface: string,
                           ipv6Enabled: bool, routeViaXray: bool, xrayTproxyPort: nat)

  datatype Client = Client(enable: bool, uuid: string, ipv4Address: string, ipv6Address: string, forwardedPorts: string)

  function IfaceName(k: Kind, s: Server): string {
    if s.interfaceName != "" then s.interfaceName else k.defaultIface
  }

  /** `detected` is the default interface of the machine. */
  function ExternalIface(s: Server, detected: string): string {
    if s.externalInterface != "" then s.externalInterface else detected
  }

  function Ipv6Iface(s: Server, detected: string): string {
    if s.ipv6ExternalInterface != "" then s.ipv6ExternalInterface else ExternalIface(s, detected)
  }

  function StripMask(addr: string): string {
    if addr == "" || addr[0] == '/' then "" else [addr[0]] + StripMask(addr[1..])
  }

  // ---- port forwarding ----

  datatype RuleSet = RuleSet(dnat: seq<Args>, forward: seq<Args>)

  function DportArg(p: PortSpec): string
    requires p.Valid()
  {
    if p.IsRange() then Itoa(p.start) + ":" + Itoa(p.end) else Itoa(p.start)
  }

  function DnatTarget(p: PortSpec, ip: string): string
    requires p.Valid()
  {
    if p.IsRange() then ip + ":" + Itoa(p.start) + "-" + Itoa(p.end) else ip + ":" + Itoa(p.start)
  }

  function RuleComment(uuid: string): string {
    if uuid == "" then "3ax-fwd" else "3ax-fwd-" + uuid
  }

  function NatRule(ext: string, ip: string, comment: string, p: PortSpec, proto: string): Args
    requires p.Valid()
  {
    ["-p", proto] + (if ext != "" then ["-i", ext] else [])
    + ["--dport", DportArg(p), "-m", "comment", "--comment", comment, "-j", "DNAT", "--to-destination", DnatTarget(p, ip)]
  }

  function ForwardRule(tun: string, ip: string, comment: string, p: PortSpec, proto: string): Args
    requires p.Valid()
  {
    ["-d", ip, "-p", proto, "-o", tun, "--dport", DportArg(p), "-m", "comment", "--comment", comment, "-j", "ACCEPT"]
  }

  function RulesOf(ext: string, tun: string, ip: string, comment: string, specs: seq<PortSpec>): RuleSet
    requires forall p :: p in specs ==> p.Valid()
  {
    if specs == [] then RuleSet([], [])
    else
      var n := |specs| - 1;
      var before, p := RulesOf(ext, tun, ip, comment, specs[..n]), specs[n];
      RuleSet(before.dnat + [NatRule(ext, ip, comment, p, "tcp")] + [NatRule(ext, ip, comment, p, "udp")],
              before.forward + [ForwardRule(tun, ip, comment, p, "tcp")] + [ForwardRule(tun, ip, comment, p, "udp")])
  }

  function ClientRules(ext: string, tun: string, clientIP: string, uuid: string, specs: seq<PortSpec>): RuleSet
    requires forall p :: p in specs ==> p.Valid()
  {
    if specs == [] || StripMask(clientIP) == "" then RuleSet([], [])
    else RulesOf(ext, tun, StripMask(clientIP), RuleComment(uuid), specs)
  }

  method Rules(ext: string, tun: string, clientIP: string, uuid: string, specs: seq<PortSpec>) returns (rs: RuleSet)
    requires forall p :: p in specs ==> p.Valid()
    ensures rs == ClientRules(ext, tun, clientIP, uuid, specs)
  {
    if |specs| == 0 {
      return RuleSet([], []);
    }
    var ip := StripMask(clientIP);
    if ip == "" {
      return RuleSet([], []);
    }
    var comment := RuleComment(uuid);
    rs := RuleSet([], []);
    for i := 0 to |specs|
      invariant rs == RulesOf(ext, tun, ip, comment, specs[..i])
    {
      assert specs[..i + 1][..i] == specs[..i];
      var p := specs[i];
      rs := RuleSet(rs.dnat + [NatRule(ext, ip, comment, p, "tcp")], rs.forward + [ForwardRule(tun, ip, comment, p, "tcp")]);
      rs := RuleSet(rs.dnat + [NatRule(ext, ip, comment, p, "udp")], rs.forward + [ForwardRule(tun, ip, comment, p, "udp")]);
    }
    assert specs[..|specs|] == specs;
  }

  const NAT_PREROUTING := ChainId(V4, "nat", "PREROUTING")
  const NAT_POSTROUTING := ChainId(V4, "nat", "POSTROUTING")

  function Filter(f: Family): ChainId { ChainId(f, "filter", "FORWARD") }

  function Mangle(f: Family): ChainId { ChainId(f, "mangle", "PREROUTING") }

  function PlaceAll(id: ChainId, rules: seq<Args>): seq<Placed> {
    seq(|rules|, i requires 0 <= i < |rules| => Placed(id, rules[i]))
  }

  /** All of a client's rules, in the order the hook lines list them. */
  function PlacedRules(rs: RuleSet): seq<Placed> {
    PlaceAll(NAT_PREROUTING, rs.dnat) + PlaceAll(Filter(V4), rs.forward)
  }

  // ---- TPROXY ----

  function EffectivePort(k: Kind, s: Server): nat {
    if s.xrayTproxyPort > 0 then s.xrayTproxyPort else k.tproxyPort
  }

  function OwnPolicy(k: Kind, f: Family): PolicyRule {
    PolicyRule(f, k.fwmark + "/" + k.fwmark, k.table)
  }

  function TproxyRule(k: Kind, s: Server, f: Family, proto: string): Placed {
    Placed(Mangle(f),
           ["-i", IfaceName(k, s), "-p", proto, "-j", "TPROXY", "--on-ip", if f == V4 then "127.0.0.1" else "::1",
            "--on-port", Itoa(EffectivePort(k, s)), "--tproxy-mark", k.fwmark + "/" + k.fwmark])
  }

  function TproxyRules(k: Kind, s: Server, f: Family): seq<Placed> {
    [TproxyRule(k, s, f, "tcp"), TproxyRule(k, s, f, "udp")]
  }

  /** The wiring of a tunnel that routes through Xray, family by family. */
  function Wirings(k: Kind, s: Server): seq<Wiring> {
    if !s.routeViaXray then []
    else [Wiring(OwnPolicy(k, V4), TproxyRules(k, s, V4))]
         + if s.ipv6Enabled then [Wiring(OwnPolicy(k, V6), TproxyRules(k, s, V6))] else []
  }

  // ---- the generated hooks ----

  function BaseRules(k: Kind, s: Server, detected: string): seq<Placed> {
    (if s.routeViaXray then []
     else [Placed(NAT_POSTROUTING, ["-s", s.ipv4Pool, "-o", ExternalIface(s, detected), "-j", "MASQUERADE"])])
    + [Placed(Filter(V4), ["-i", IfaceName(k, s), "-j", "ACCEPT"]), Placed(Filter(V4), ["-o", IfaceName(k, s), "-j", "ACCEPT"])]
  }

  function Ipv6Rules(k: Kind, s: Server, detected: string): seq<Placed> {
    if !s.ipv6Enabled then []
    else [Placed(Filter(V6), ["-i", IfaceName(k, s), "-j", "ACCEPT"]), Placed(Filter(V6), ["-o", IfaceName(k, s), "-j", "ACCEPT"]),
          Placed(Filter(V6), ["-i", Ipv6Iface(s, detected), "-o", IfaceName(k, s), "-j", "ACCEPT"])]
  }

  predicate Proxied(c: Client) { c.enable && c.ipv6Address != "" }

  /** The neighbour entries the hooks add and take away, one for each enabled client with an IPv6 address. */
  function Neighs(s: Server, detected: string, clients: seq<Client>): seq<(string, string)> {
    if !s.ipv6Enabled || clients == [] then []
    else
      var n := |clients| - 1;
      Neighs(s, detected, clients[..n])
      + if Proxied(clients[n]) then [(StripMask(clients[n].ipv6Address), Ipv6Iface(s, detected))] else []
  }

  function ReplaceNeighs(ns: seq<(string, string)>): seq<Command> {
    seq(|ns|, i requires 0 <= i < |ns| => ReplaceNeigh(ns[i].0, ns[i].1))
  }

  function DelNeighs(ns: seq<(string, string)>): seq<Command> {
    seq(|ns|, i requires 0 <= i < |ns| => DelNeigh(ns[i].0, ns[i].1))
  }

  function Forwards(k: Kind, s: Server, detected: string, clients: seq<Client>): seq<Placed> {
    if clients == [] then []
    else
      var n := |clients| - 1;
      var c := clients[n];
      Forwards(k, s, detected, clients[..n])
      + if c.enable && c.forwardedPorts != ""
        then PlacedRules(ClientRules(ExternalIface(s, detected), IfaceName(k, s), c.ipv4Address, c.uuid, Parsed(c.forwardedPorts)))
        else []
  }

  function PostUp(k: Kind, s: Server, detected: string, clients: seq<Client>): seq<Command> {
    Install(BaseRules(k, s, detected)) + Install(Ipv6Rules(k, s, detected))
    + (if s.ipv6Enabled
       then [Sysctl("net.ipv6.conf.all.forwarding"), Sysctl("net.ipv6.conf." + Ipv6Iface(s, detected) + ".proxy_ndp")] else [])
    + ReplaceNeighs(Neighs(s, detected, clients)) + [Sysctl("net.ipv4.ip_forward")]
    + Install(Forwards(k, s, detected, clients))
    + WireAll(Wirings(k, s))
  }

  function PostDown(k: Kind, s: Server, detected: string, clients: seq<Client>): seq<Command> {
    Uninstall(BaseRules(k, s, detected)) + Uninstall(Ipv6Rules(k, s, detected))
    + DelNeighs(Neighs(s, detected, clients))
    + Uninstall(Forwards(k, s, detected, clients))
    + UnwireAll(Wirings(k, s))
  }

  // The two loops over the clients, which both generators run.

  method CollectNeighs(s: Server, detected: string, clients: seq<Client>) returns (ns: seq<(string, string)>)
    ensures ns == Neighs(s, detected, clients)
  {
    ns := [];
    if !s.ipv6Enabled {
      return;
    }
    for i := 0 to |clients|
      invariant ns == Neighs(s, detected, clients[..i])
    {
      assert clients[..i + 1][..i] == clients[..i];
      if Proxied(clients[i]) {
        ns := ns + [(StripMask(clients[i].ipv6Address), Ipv6Iface(s, detected))];
      }
    }
    assert clients[..|clients|] == clients;
  }

  method CollectForwards(k: Kind, s: Server, detected: string, clients: seq<Client>) returns (rules: seq<Placed>)
    ensures rules == Forwards(k, s, detected, clients)
  {
    rules := [];
    for i := 0 to |clients|
      invariant rules == Forwards(k, s, detected, clients[..i])
    {
      assert clients[..i + 1][..i] == clients[..i];
      var c := clients[i];
      if !c.enable || c.forwardedPorts == "" {
        continue;
      }
      var specs := Parse(c.forwardedPorts);
      var own := Rules(ExternalIface(s, detected), IfaceName(k, s), c.ipv4Address, c.uuid, specs);
      rules := rules + PlacedRules(own);
    }
    assert clients[..|clients|] == clients;
  }

  method GenerateDefaultPostUp(k: Kind, s: Server, detected: string, clients: seq<Client>) returns (parts: seq<Command>)
    ensures parts == PostUp(k, s, detected, clients)
  {
    parts := Install(BaseRules(k, s, detected)) + Install(Ipv6Rules(k, s, detected));
    var ns := CollectNeighs(s, detected, clients);
    if s.ipv6Enabled {
      parts := parts + [Sysctl("net.ipv6.conf.all.forwarding"), Sysctl("net.ipv6.conf." + Ipv6Iface(s, detected) + ".proxy_ndp")];
    }
    var forwards := CollectForwards(k, s, detected, clients);
    parts := parts + ReplaceNeighs(ns) + [Sysctl("net.ipv4.ip_forward")] + Install(forwards);
    if s.routeViaXray {
      parts := parts + WireAll(Wirings(k, s));
    }
  }

  method GenerateDefaultPostDown(k: Kind, s: Server, detected: string, clients: seq<Client>) returns (parts: seq<Command>)
    ensures parts == PostDown(k, s, detected, clients)
  {
    var ns := CollectNeighs(s, detected, clients);
    var forwards := CollectForwards(k, s, detected, clients);
    parts := Uninstall(BaseRules(k, s, detected)) + Uninstall(Ipv6Rules(k, s, detected)) + DelNeighs(ns) + Uninstall(forwards);
    if s.routeViaXray {
      parts := parts + UnwireAll(Wirings(k, s));
    }
  }
}
