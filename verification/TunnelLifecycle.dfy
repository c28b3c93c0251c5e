/** What bringing a tunnel up, taking it down and healing it do to the kernel, over whole runs. */
module TunnelLifecycle {
  import opened Prelude
  import opened Kernel
  import opened TunnelHooks

  // ---- up, then down ----

  lemma {:induction false} NeighsUp(k: State, ns: seq<(string, string)>)
    ensures Run(k, ReplaceNeighs(ns)) == (k.(neighs := k.neighs + Elements(ns)), true)
    decreases |ns|
  {
    if ns == [] {
      assert k.neighs + Elements(ns) == k.neighs;
    } else {
      assert ReplaceNeighs(ns)[1..] == ReplaceNeighs(ns[1..]);
      var k' := Exec(k, ReplaceNeigh(ns[0].0, ns[0].1)).0;
      NeighsUp(k', ns[1..]);
      assert ns == [ns[0]] + ns[1..];
      assert k'.neighs + Elements(ns[1..]) == k.neighs + Elements(ns);
    }
  }

  lemma ConsNoDuplicates<T>(x: T, t: seq<T>)
    ensures NoDuplicates([x] + t) <==> x !in t && NoDuplicates(t)
  {
    var s := [x] + t;
    assert s[1..] == t;
    ElementsCount(s);
    ElementsCount(t);
    assert Elements(s) == {x} + Elements(t);
  }

  /** Deleting a list of entries succeeds exactly when each is there and none is listed twice. */
  lemma {:induction false} NeighsDown(k: State, ns: seq<(string, string)>)
    ensures var (n, ok) := Run(k, DelNeighs(ns));
      && n == k.(neighs := n.neighs)
      && (ok <==> NoDuplicates(ns) && Elements(ns) <= k.neighs)
    decreases |ns|
  {
    if ns != [] {
      var x, t := ns[0], ns[1..];
      assert DelNeighs(ns)[1..] == DelNeighs(t);
      assert ns == [x] + t && Elements(ns) == {x} + Elements(t);
      ConsNoDuplicates(x, t);
      var (k', ok) := Exec(k, DelNeigh(x.0, x.1));
      if ok {
        NeighsDown(k', t);
        assert x !in t ==> x !in Elements(t);
      } else {
        assert x in Elements(ns);
      }
    }
  }

  lemma OwnWirings(kind: Kind, s: Server)
    ensures OwnRoutes(Wirings(kind, s))
    ensures |Wirings(kind, s)| == (if !s.routeViaXray then 0 else if s.ipv6Enabled then 2 else 1)
    ensures s.routeViaXray ==> Wirings(kind, s)[0].policy == OwnPolicy(kind, V4)
    ensures s.routeViaXray && s.ipv6Enabled ==> Wirings(kind, s)[1].policy == OwnPolicy(kind, V6)
  {
  }

  /** The rules the hooks handle before the neighbour entries. */
  function HeadRules(kind: Kind, s: Server, detected: string): seq<Placed> {
    BaseRules(kind, s, detected) + Ipv6Rules(kind, s, detected)
  }

  /** The rules they handle after. */
  function TailRules(kind: Kind, s: Server, detected: string, clients: seq<Client>): seq<Placed> {
    Forwards(kind, s, detected, clients) + WiringRules(Wirings(kind, s))
  }

  /** What bringing a tunnel up leaves for taking it down. */
  ghost predicate IsUp(n: State, kind: Kind, s: Server, detected: string, clients: seq<Client>) {
    && Holds(n, HeadRules(kind, s, detected) + TailRules(kind, s, detected, clients))
    && Elements(Neighs(s, detected, clients)) <= n.neighs
    && forall w :: w in Wirings(kind, s) ==> w.Route() in n.routes
  }

  /** PostUp never fails: it adds its rules, its neighbour entries and one policy rule for each family it wires. */
  lemma PostUpEffect(k: State, kind: Kind, s: Server, detected: string, clients: seq<Client>)
    ensures var (n, ok) := Run(k, PostUp(kind, s, detected, clients));
      && ok && IsUp(n, kind, s, detected, clients)
      && (forall w :: w in Wirings(kind, s) ==> Policies(n)[w.policy] == 1)
      && (forall p :: Unowned(p, Wirings(kind, s)) ==> Policies(n)[p] == Policies(k)[p])
      && Gained(k, n, HeadRules(kind, s, detected) + TailRules(kind, s, detected, clients))
  {
    var base, six, ns := BaseRules(kind, s, detected), Ipv6Rules(kind, s, detected), Neighs(s, detected, clients);
    var fwd, ws := Forwards(kind, s, detected, clients), Wirings(kind, s);
    var sys := if s.ipv6Enabled
      then [Sysctl("net.ipv6.conf.all.forwarding"), Sysctl("net.ipv6.conf." + Ipv6Iface(s, detected) + ".proxy_ndp")] else [];
    OwnWirings(kind, s);
    UpEffect(k, base, six, sys, ns, [Sysctl("net.ipv4.ip_forward")], fwd, ws);
  }

  /** The shape of PostUp, whatever its parts are. */
  lemma UpEffect(k: State, base: seq<Placed>, six: seq<Placed>, sys: seq<Command>, ns: seq<(string, string)>,
                 ip4: seq<Command>, fwd: seq<Placed>, ws: seq<Wiring>)
    requires OwnRoutes(ws) && forall c :: c in sys + ip4 ==> c.Sysctl?
    ensures var (n, ok) := Run(k, Install(base) + Install(six) + sys + ReplaceNeighs(ns) + ip4 + Install(fwd) + WireAll(ws));
      && ok && Elements(ns) <= n.neighs
      && (forall w :: w in ws ==> w.Route() in n.routes && Policies(n)[w.policy] == 1)
      && (forall p :: Unowned(p, ws) ==> Policies(n)[p] == Policies(k)[p])
      && Gained(k, n, (base + six) + (fwd + WiringRules(ws))) && Holds(n, (base + six) + (fwd + WiringRules(ws)))
  {
    var k1 := Run(k, Install(base)).0;
    InstallAdds(k, base);
    RunConcat(k, Install(base), Install(six));
    var k2 := Run(k1, Install(six)).0;
    InstallAdds(k1, six);
    GainedTwice(k, k1, k2, base, six);
    RunConcat(k, Install(base) + Install(six), sys);
    Sysctls(k2, sys);
    RunConcat(k, Install(base) + Install(six) + sys, ReplaceNeighs(ns));
    NeighsUp(k2, ns);
    var k3 := k2.(neighs := k2.neighs + Elements(ns));
    RunConcat(k, Install(base) + Install(six) + sys + ReplaceNeighs(ns), ip4);
    Sysctls(k3, ip4);
    RunConcat(k, Install(base) + Install(six) + sys + ReplaceNeighs(ns) + ip4, Install(fwd));
    Unaffected(k2, k3, base + six);
    var k4 := Run(k3, Install(fwd)).0;
    InstallAdds(k3, fwd);
    RunConcat(k, Install(base) + Install(six) + sys + ReplaceNeighs(ns) + ip4 + Install(fwd), WireAll(ws));
    var n := Run(k4, WireAll(ws)).0;
    WireAllEffect(k4, ws);
    GainedTwice(k3, k4, n, fwd, WiringRules(ws));
    GainedTwice(k, k3, n, base + six, fwd + WiringRules(ws));
    var all := (base + six) + (fwd + WiringRules(ws));
    forall id ensures On(all, id) <= multiset(n.Rules(id)) {
      assert multiset(n.Rules(id)) == multiset(k.Rules(id)) + On(all, id);
    }
  }

  lemma {:induction false} Sysctls(k: State, cs: seq<Command>)
    requires forall c :: c in cs ==> c.Sysctl?
    ensures Run(k, cs) == (k, true)
    decreases |cs|
  {
    if cs != [] {
      assert cs[0] in cs;
      Sysctls(k, cs[1..]);
    }
  }

  /**
   PostDown where the tunnel is up: it runs to its end exactly when no two enabled clients share an IPv6 address. Then
   it takes its own rules and every copy of its policy rules; otherwise only the rules that stand before those entries.
   */
  lemma PostDownEffect(k: State, kind: Kind, s: Server, detected: string, clients: seq<Client>)
    requires IsUp(k, kind, s, detected, clients)
    ensures var (n, ok) := Run(k, PostDown(kind, s, detected, clients));
      && (ok <==> NoDuplicates(Neighs(s, detected, clients)))
      && (!ok ==> Lost(k, n, HeadRules(kind, s, detected)) && n.policies == k.policies)
      && (ok ==>
            && Lost(k, n, HeadRules(kind, s, detected) + TailRules(kind, s, detected, clients))
            && (forall w :: w in Wirings(kind, s) ==> Policies(n)[w.policy] == 0)
            && forall p :: Unowned(p, Wirings(kind, s)) ==> Policies(n)[p] == Policies(k)[p])
  {
    OwnWirings(kind, s);
    DownEffect(k, BaseRules(kind, s, detected), Ipv6Rules(kind, s, detected), Neighs(s, detected, clients),
               Forwards(kind, s, detected, clients), Wirings(kind, s));
  }

  /** The part of PostDown up to the neighbour entries. */
  lemma DownToNeighs(k: State, base: seq<Placed>, six: seq<Placed>, ns: seq<(string, string)>, tail: seq<Placed>)
    requires Holds(k, (base + six) + tail) && Elements(ns) <= k.neighs
    ensures var (n, ok) := Run(k, Uninstall(base) + Uninstall(six) + DelNeighs(ns));
      && (ok <==> NoDuplicates(ns)) && Lost(k, n, base + six) && Holds(n, tail)
      && n.policies == k.policies && n.routes == k.routes
  {
    assert (base + six) + tail == base + (six + tail);
    UninstallFirst(k, base, six + tail);
    RunConcat(k, Uninstall(base), Uninstall(six));
    var k1 := Run(k, Uninstall(base)).0;
    UninstallFirst(k1, six, tail);
    var k2 := Run(k1, Uninstall(six)).0;
    LostTwice(k, k1, k2, base, six);
    RunConcat(k, Uninstall(base) + Uninstall(six), DelNeighs(ns));
    NeighsDown(k2, ns);
    var k3 := Run(k2, DelNeighs(ns)).0;
    Unaffected(k2, k3, base + six);
    Unaffected(k2, k3, tail);
  }

  /** And from there. */
  lemma DownFromNeighs(k: State, fwd: seq<Placed>, ws: seq<Wiring>)
    requires OwnRoutes(ws) && Holds(k, fwd + WiringRules(ws)) && forall w :: w in ws ==> w.Route() in k.routes
    ensures var (n, ok) := Run(k, Uninstall(fwd) + UnwireAll(ws));
      && ok && Lost(k, n, fwd + WiringRules(ws))
      && (forall w :: w in ws ==> Policies(n)[w.policy] == 0)
      && forall p :: Unowned(p, ws) ==> Policies(n)[p] == Policies(k)[p]
  {
    RunConcat(k, Uninstall(fwd), UnwireAll(ws));
    UninstallFirst(k, fwd, WiringRules(ws));
    var k1 := Run(k, Uninstall(fwd)).0;
    UnwireAllEffect(k1, ws);
    LostTwice(k, k1, Run(k1, UnwireAll(ws)).0, fwd, WiringRules(ws));
  }

  lemma RunGrouped(k: State, a: seq<Command>, b: seq<Command>, c: seq<Command>)
    ensures Run(k, a + b + c) == if Run(k, a).1 then Run(Run(k, a).0, b + c) else Run(k, a)
  {
    assert a + b + c == a + (b + c);
    RunConcat(k, a, b + c);
  }

  /** The shape of PostDown, whatever its parts are. */
  lemma DownEffect(k: State, base: seq<Placed>, six: seq<Placed>, ns: seq<(string, string)>, fwd: seq<Placed>, ws: seq<Wiring>)
    requires OwnRoutes(ws) && Holds(k, (base + six) + (fwd + WiringRules(ws)))
    requires Elements(ns) <= k.neighs && forall w :: w in ws ==> w.Route() in k.routes
    ensures var (n, ok) := Run(k, Uninstall(base) + Uninstall(six) + DelNeighs(ns) + Uninstall(fwd) + UnwireAll(ws));
      && (ok <==> NoDuplicates(ns))
      && (!ok ==> Lost(k, n, base + six) && n.policies == k.policies)
      && (ok ==>
            && Lost(k, n, (base + six) + (fwd + WiringRules(ws)))
            && (forall w :: w in ws ==> Policies(n)[w.policy] == 0)
            && forall p :: Unowned(p, ws) ==> Policies(n)[p] == Policies(k)[p])
  {
    var head, rest := Uninstall(base) + Uninstall(six) + DelNeighs(ns), Uninstall(fwd) + UnwireAll(ws);
    RunGrouped(k, head, Uninstall(fwd), UnwireAll(ws));
    DownToNeighs(k, base, six, ns, fwd + WiringRules(ws));
    var k1 := Run(k, head).0;
    if NoDuplicates(ns) {
      DownFromNeighs(k1, fwd, ws);
      LostTwice(k, k1, Run(k1, rest).0, base + six, fwd + WiringRules(ws));
    }
  }

  /** Every chain holds the same rules, each as often. */
  ghost predicate SameRules(a: State, b: State) {
    forall id :: multiset(a.Rules(id)) == multiset(b.Rules(id))
  }

  lemma GainAndLossCancel(k: State, up: State, n: State, rules: seq<Placed>)
    requires Gained(k, up, rules) && Lost(up, n, rules)
    ensures SameRules(k, n)
  {
    forall id ensures multiset(k.Rules(id)) == multiset(n.Rules(id)) {
      assert multiset(n.Rules(id)) == multiset(up.Rules(id)) - On(rules, id);
      assert multiset(up.Rules(id)) == multiset(k.Rules(id)) + On(rules, id);
    }
  }

  lemma PartialLossLeavesTheRest(k: State, up: State, n: State, head: seq<Placed>, tail: seq<Placed>)
    requires Gained(k, up, head + tail) && Lost(up, n, head)
    ensures Gained(k, n, tail)
  {
    forall id ensures multiset(n.Rules(id)) == multiset(k.Rules(id)) + On(tail, id) {
      OnConcat(head, tail, id);
      assert multiset(n.Rules(id)) == multiset(up.Rules(id)) - On(head, id);
      assert multiset(up.Rules(id)) == multiset(k.Rules(id)) + On(head + tail, id);
    }
  }

  lemma GainsAreSeen(k: State, n: State, tail: seq<Placed>)
    requires Gained(k, n, tail)
    ensures SameRules(k, n) <==> tail == []
  {
    if tail == [] {
      assert forall id :: On(tail, id) == multiset{};
    } else {
      var id := tail[0].id;
      assert tail[0].args in On(tail, id);
      assert multiset(n.Rules(id)) == multiset(k.Rules(id)) + On(tail, id);
      assert multiset(n.Rules(id))[tail[0].args] > multiset(k.Rules(id))[tail[0].args];
    }
  }

  /**
   Up, then down, from any kernel state and with any clients. Every chain is back to the rules it had exactly when no
   two enabled clients share an IPv6 address or nothing stands behind those addresses in PostDown. A tunnel that routes
   through Xray is rid of its own policy rules exactly when the first holds; it touches no other in any case.
   */
  lemma UpThenDownRestores(k: State, kind: Kind, s: Server, detected: string, clients: seq<Client>)
    ensures var n := Run(Run(k, PostUp(kind, s, detected, clients)).0, PostDown(kind, s, detected, clients)).0;
      && (SameRules(k, n) <==> NoDuplicates(Neighs(s, detected, clients)) || TailRules(kind, s, detected, clients) == [])
      && (s.routeViaXray ==> (OwnPolicy(kind, V4) !in n.policies <==> NoDuplicates(Neighs(s, detected, clients))))
      && (s.routeViaXray && s.ipv6Enabled ==>
            (OwnPolicy(kind, V6) !in n.policies <==> NoDuplicates(Neighs(s, detected, clients))))
      && forall p :: Unowned(p, Wirings(kind, s)) ==> Policies(n)[p] == Policies(k)[p]
  {
    PostUpEffect(k, kind, s, detected, clients);
    var up := Run(k, PostUp(kind, s, detected, clients)).0;
    PostDownEffect(up, kind, s, detected, clients);
    var n := Run(up, PostDown(kind, s, detected, clients)).0;
    var head, tail := HeadRules(kind, s, detected), TailRules(kind, s, detected, clients);
    if NoDuplicates(Neighs(s, detected, clients)) {
      GainAndLossCancel(k, up, n, head + tail);
    } else {
      PartialLossLeavesTheRest(k, up, n, head, tail);
      GainsAreSeen(k, n, tail);
    }
    OwnWirings(kind, s);
    var ws := Wirings(kind, s);
    if s.routeViaXray {
      assert ws[0] in ws && (OwnPolicy(kind, V4) in n.policies <==> Policies(n)[ws[0].policy] > 0);
      if s.ipv6Enabled {
        assert ws[1] in ws && (OwnPolicy(kind, V6) in n.policies <==> Policies(n)[ws[1].policy] > 0);
      }
    }
  }

  // ---- healing ----

  /** Whether `ip rule show` has a line that mentions the mark and ends with the table: the mark is matched as a prefix. */
  predicate Shown(policies: seq<PolicyRule>, f: Family, fwmark: string, table: string) {
    exists p :: p in policies && p.family == f && fwmark <= p.mark && p.table == table
  }

  /** The commands of one healing tick; each occurs once. */
  datatype Query =
    | ShowRules(family: Family)
    | AddRule(family: Family)
    | AddRoute(family: Family)
    | CheckRule(rule: Placed)
    | AddMangle(rule: Placed)

  /** Whether each command goes through, or fails for a reason of the kernel's own. */
  type Answers = Query -> bool

  datatype Repair = RepairedPolicy(family: Family) | RepairedRule(rule: Placed)

  datatype Tick = Tick(kernel: State, repaired: seq<Repair>)

  function HealPolicy(t: Tick, kind: Kind, f: Family, env: Answers): Tick {
    if !env(ShowRules(f)) || Shown(t.kernel.policies, f, kind.fwmark, kind.table) || !env(AddRule(f)) then t
    else
      Tick(t.kernel.(policies := t.kernel.policies + [OwnPolicy(kind, f)],
                     routes := if env(AddRoute(f)) then t.kernel.routes + {(f, kind.table)} else t.kernel.routes),
           t.repaired + [RepairedPolicy(f)])
  }

  function HealRule(t: Tick, r: Placed, env: Answers): Tick {
    if (env(CheckRule(r)) && r.args in t.kernel.Rules(r.id)) || !env(AddMangle(r)) then t
    else Tick(Exec(t.kernel, Append(r)).0, t.repaired + [RepairedRule(r)])
  }

  function HealPolicies(k: State, kind: Kind, fs: seq<Family>, env: Answers): Tick {
    if fs == [] then Tick(k, []) else HealPolicy(HealPolicies(k, kind, fs[..|fs| - 1], env), kind, fs[|fs| - 1], env)
  }

  function HealRules(t: Tick, rules: seq<Placed>, env: Answers): Tick {
    if rules == [] then t else HealRule(HealRules(t, rules[..|rules| - 1], env), rules[|rules| - 1], env)
  }

  function HealFamilies(s: Server): seq<Family> { if s.ipv6Enabled then [V4, V6] else [V4] }

  /** tcp and udp in turn, IPv4 before IPv6 within each. */
  function MangleChecks(kind: Kind, s: Server): seq<Placed> {
    if s.ipv6Enabled
    then [TproxyRule(kind, s, V4, "tcp"), TproxyRule(kind, s, V6, "tcp"), TproxyRule(kind, s, V4, "udp"), TproxyRule(kind, s, V6, "udp")]
    else [TproxyRule(kind, s, V4, "tcp"), TproxyRule(kind, s, V4, "udp")]
  }

  function Heal(k: State, kind: Kind, s: Server, env: Answers): Tick {
    if !s.routeViaXray then Tick(k, [])
    else HealRules(HealPolicies(k, kind, HealFamilies(s), env), MangleChecks(kind, s), env)
  }

  /** A machine whose kernel the tick changes command by command. */
  class Machine {
    var kernel: State

    method EnsureTproxyRouting(kind: Kind, s: Server, env: Answers) returns (repaired: seq<Repair>)
      modifies this
      ensures Tick(kernel, repaired) == Heal(old(kernel), kind, s, env)
    {
      repaired := [];
      if !s.routeViaXray {
        return;
      }
      var fs := HealFamilies(s);
      for i := 0 to |fs|
        invariant Tick(kernel, repaired) == HealPolicies(old(kernel), kind, fs[..i], env)
      {
        assert fs[..i + 1][..i] == fs[..i];
        var f := fs[i];
        if !env(ShowRules(f)) || Shown(kernel.policies, f, kind.fwmark, kind.table) {
          continue;
        }
        if !env(AddRule(f)) {
          continue;
        }
        kernel := kernel.(policies := kernel.policies + [OwnPolicy(kind, f)],
                          routes := if env(AddRoute(f)) then kernel.routes + {(f, kind.table)} else kernel.routes);
        repaired := repaired + [RepairedPolicy(f)];
      }
      assert fs[..|fs|] == fs;
      ghost var middle := Tick(kernel, repaired);
      var rules := MangleChecks(kind, s);
      for i := 0 to |rules|
        invariant Tick(kernel, repaired) == HealRules(middle, rules[..i], env)
      {
        assert rules[..i + 1][..i] == rules[..i];
        var r := rules[i];
        if env(CheckRule(r)) && r.args in kernel.Rules(r.id) {
          continue;
        }
        if !env(AddMangle(r)) {
          continue;
        }
        kernel := Exec(kernel, Append(r)).0;
        repaired := repaired + [RepairedRule(r)];
      }
      assert rules[..|rules|] == rules;
    }
  }

  /** All of a tunnel's wiring is in place. */
  ghost predicate Healthy(k: State, kind: Kind, s: Server) {
    s.routeViaXray ==>
      && (forall f :: f in HealFamilies(s) ==> Shown(k.policies, f, kind.fwmark, kind.table))
      && forall r :: r in MangleChecks(kind, s) ==> r.args in k.Rules(r.id)
  }

  lemma {:induction false} NothingToHeal(k: State, kind: Kind, fs: seq<Family>, rules: seq<Placed>, env: Answers)
    requires forall f :: f in fs ==> Shown(k.policies, f, kind.fwmark, kind.table)
    requires forall r :: r in rules ==> r.args in k.Rules(r.id) && env(CheckRule(r))
    ensures HealPolicies(k, kind, fs, env) == Tick(k, [])
    ensures HealRules(Tick(k, []), rules, env) == Tick(k, [])
    decreases |fs| + |rules|
  {
    if fs != [] {
      NothingToHeal(k, kind, fs[..|fs| - 1], rules, env);
      assert fs[|fs| - 1] in fs;
    } else if rules != [] {
      NothingToHeal(k, kind, fs, rules[..|rules| - 1], env);
      assert rules[|rules| - 1] in rules;
    }
  }

  /** As long as -C tells the truth, a tick over complete wiring repairs nothing, whatever else fails. */
  lemma HealthyNeedsNoRepair(k: State, kind: Kind, s: Server, env: Answers)
    requires Healthy(k, kind, s) && forall r :: env(CheckRule(r))
    ensures Heal(k, kind, s, env) == Tick(k, [])
  {
    if s.routeViaXray {
      NothingToHeal(k, kind, HealFamilies(s), MangleChecks(kind, s), env);
    }
  }

  lemma OwnIsShown(k: State, kind: Kind, f: Family)
    requires OwnPolicy(kind, f) in k.policies
    ensures Shown(k.policies, f, kind.fwmark, kind.table)
  {
    assert kind.fwmark <= OwnPolicy(kind, f).mark;
  }

  /** From any kernel state: right after PostUp the tick finds nothing to repair. */
  lemma NothingToHealAfterUp(k: State, kind: Kind, s: Server, detected: string, clients: seq<Client>, env: Answers)
    requires forall r :: env(CheckRule(r))
    ensures var n := Run(k, PostUp(kind, s, detected, clients)).0;
      Heal(n, kind, s, env) == Tick(n, [])
  {
    PostUpEffect(k, kind, s, detected, clients);
    var n := Run(k, PostUp(kind, s, detected, clients)).0;
    if s.routeViaXray {
      var ws := Wirings(kind, s);
      OwnWirings(kind, s);
      forall f | f in HealFamilies(s) ensures Shown(n.policies, f, kind.fwmark, kind.table) {
        var w := if f == V4 then ws[0] else ws[1];
        assert w in ws && Policies(n)[w.policy] == 1;
        OwnIsShown(n, kind, f);
      }
      forall r | r in MangleChecks(kind, s) ensures r.args in n.Rules(r.id) {
        MangleIsWired(kind, s, r);
        var all := HeadRules(kind, s, detected) + TailRules(kind, s, detected, clients);
        OnConcat(HeadRules(kind, s, detected), TailRules(kind, s, detected, clients), r.id);
        OnConcat(Forwards(kind, s, detected, clients), WiringRules(ws), r.id);
        assert r.args in On(all, r.id) && On(all, r.id) <= multiset(n.Rules(r.id));
        assert r.args in multiset(n.Rules(r.id));
      }
    }
    HealthyNeedsNoRepair(n, kind, s, env);
  }

  lemma {:induction false} PlacedIsOn(rules: seq<Placed>, r: Placed)
    requires r in rules
    ensures r.args in On(rules, r.id)
  {
    if rules[0] != r { PlacedIsOn(rules[1..], r); }
  }

  lemma MangleIsWired(kind: Kind, s: Server, r: Placed)
    requires s.routeViaXray && r in MangleChecks(kind, s)
    ensures r.args in On(WiringRules(Wirings(kind, s)), r.id)
  {
    var ws := Wirings(kind, s);
    var all := WiringRules(ws);
    assert all == ws[0].rules + WiringRules(ws[1..]);
    if s.ipv6Enabled {
      assert ws[1..][0] == ws[1];
      assert WiringRules(ws[1..]) == ws[1].rules + WiringRules(ws[1..][1..]);
    }
    assert r in all;
    PlacedIsOn(all, r);
  }

  /** A rule of the own mark and table is what a look for it finds, and nothing else passes for it. */
  ghost predicate OnlyOwnShown(k: State, kind: Kind, f: Family) {
    Shown(k.policies, f, kind.fwmark, kind.table) ==> OwnPolicy(kind, f) in k.policies
  }

  lemma {:induction false} HealedPolicies(k: State, kind: Kind, fs: seq<Family>, env: Answers, f: Family)
    requires f in fs && NoDuplicates(fs) && forall q :: env(q)
    ensures var n := HealPolicies(k, kind, fs, env).kernel;
      && (OwnPolicy(kind, f) in n.policies <==> OnlyOwnShown(k, kind, f))
      && Shown(n.policies, f, kind.fwmark, kind.table)
  {
    var init, last := fs[..|fs| - 1], fs[|fs| - 1];
    var t := HealPolicies(k, kind, init, env);
    if f == last {
      assert f !in init;
      OtherFamilies(k, kind, init, env, f);
      if OwnPolicy(kind, f) in k.policies { OwnIsShown(k, kind, f); }
      OwnIsShown(t.kernel.(policies := t.kernel.policies + [OwnPolicy(kind, f)]), kind, f);
    } else {
      assert f in init;
      HealedPolicies(k, kind, init, env, f);
      assert forall p :: p in t.kernel.policies ==> p in HealPolicy(t, kind, last, env).kernel.policies;
    }
  }

  lemma {:induction false} OtherFamilies(k: State, kind: Kind, fs: seq<Family>, env: Answers, f: Family)
    requires f !in fs
    ensures var n := HealPolicies(k, kind, fs, env).kernel;
      && (OwnPolicy(kind, f) in n.policies <==> OwnPolicy(kind, f) in k.policies)
      && Shown(n.policies, f, kind.fwmark, kind.table) == Shown(k.policies, f, kind.fwmark, kind.table)
  {
    if fs != [] {
      var last := fs[|fs| - 1];
      OtherFamilies(k, kind, fs[..|fs| - 1], env, f);
      assert last in fs;
      var t := HealPolicies(k, kind, fs[..|fs| - 1], env);
      assert forall p :: p in t.kernel.policies + [OwnPolicy(kind, last)] && p.family == f ==> p in t.kernel.policies;
    }
  }

  lemma {:induction false} HealedRules(t: Tick, rules: seq<Placed>, env: Answers)
    requires forall q :: env(q)
    ensures var n := HealRules(t, rules, env).kernel;
      && n.policies == t.kernel.policies
      && (forall r :: r in rules ==> r.args in n.Rules(r.id))
      && forall id, x :: x in t.kernel.Rules(id) ==> x in n.Rules(id)
  {
    if rules != [] {
      var init, last := rules[..|rules| - 1], rules[|rules| - 1];
      HealedRules(t, init, env);
      assert forall r :: r in rules ==> r in init || r == last;
    }
  }

  /**
   A tick that can run its commands leaves all wiring in place as far as it can see, so a second one repairs nothing.
   The own policy rule is there afterwards exactly when nothing else passed for it before: a rule of another mark that
   the own mark is a prefix of, looked up in the same table, does.
   */
  lemma HealRestores(k: State, kind: Kind, s: Server, env: Answers, f: Family)
    requires s.routeViaXray && f in HealFamilies(s) && forall q :: env(q)
    ensures var n := Heal(k, kind, s, env).kernel;
      && Healthy(n, kind, s) && Heal(n, kind, s, env) == Tick(n, [])
      && (OwnPolicy(kind, f) in n.policies <==> OnlyOwnShown(k, kind, f))
  {
    var fs, rules := HealFamilies(s), MangleChecks(kind, s);
    var t := HealPolicies(k, kind, fs, env);
    HealedRules(t, rules, env);
    forall g | g in fs ensures Shown(t.kernel.policies, g, kind.fwmark, kind.table) {
      HealedPolicies(k, kind, fs, env, g);
    }
    HealedPolicies(k, kind, fs, env, f);
    HealthyNeedsNoRepair(Heal(k, kind, s, env).kernel, kind, s, env);
  }

  // ---- whole runs ----

  datatype Event =
    | Up(kind: Kind, server: Server, detected: string, clients: seq<Client>, stop: nat)   // cut off after `stop` commands
    | Down(kind: Kind, server: Server, detected: string, clients: seq<Client>, stop: nat)
    | HealTick(kind: Kind, server: Server, env: Answers)
    | Foreign(kernel: State)                                                              // someone else removes things

  /** What others do between the events adds no policy rule. */
  ghost predicate Possible(k: State, e: Event) {
    e.Foreign? ==> Policies(e.kernel) <= Policies(k)
  }

  function Cut(cs: seq<Command>, stop: nat): seq<Command> {
    if stop < |cs| then cs[..stop] else cs
  }

  function After(k: State, e: Event): State {
    match e
    case Up(kind, s, detected, clients, stop) => Run(k, Cut(PostUp(kind, s, detected, clients), stop)).0
    case Down(kind, s, detected, clients, stop) => Run(k, Cut(PostDown(kind, s, detected, clients), stop)).0
    case HealTick(kind, s, env) => Heal(k, kind, s, env).kernel
    case Foreign(n) => n
  }

  ghost predicate PossibleRun(k: State, events: seq<Event>)
    decreases |events|
  {
    events == [] || (Possible(k, events[0]) && PossibleRun(After(k, events[0]), events[1..]))
  }

  function AfterAll(k: State, events: seq<Event>): State
    decreases |events|
  {
    if events == [] then k else AfterAll(After(k, events[0]), events[1..])
  }

  /** A program that adds a policy rule only right after draining it. */
  ghost predicate Tidy(cs: seq<Command>) {
    forall i :: 0 <= i < |cs| && cs[i].AddPolicy? ==> i > 0 && cs[i - 1] == DrainPolicy(cs[i].policy)
  }

  lemma TidyConcat(a: seq<Command>, b: seq<Command>)
    requires Tidy(a) && Tidy(b)
    ensures Tidy(a + b)
  {
    forall i | 0 <= i < |a + b| && (a + b)[i].AddPolicy? ensures i > 0 && (a + b)[i - 1] == DrainPolicy((a + b)[i].policy) {
      if i >= |a| { assert b[i - |a|].AddPolicy?; }
    }
  }

  lemma {:induction false} TidyWireAll(ws: seq<Wiring>)
    ensures Tidy(WireAll(ws)) && Tidy(UnwireAll(ws))
  {
    if ws != [] {
      TidyWireAll(ws[1..]);
      assert Tidy(Wire(ws[0])) by {
        assert forall i :: 3 <= i < |Wire(ws[0])| ==> Wire(ws[0])[i] == Install(ws[0].rules)[i - 3];
      }
      assert Tidy(Unwire(ws[0]));
      TidyConcat(Wire(ws[0]), WireAll(ws[1..]));
      TidyConcat(Unwire(ws[0]), UnwireAll(ws[1..]));
    }
  }

  lemma UpIsTidy(kind: Kind, s: Server, detected: string, clients: seq<Client>)
    ensures Tidy(PostUp(kind, s, detected, clients))
  {
    var up, wire := PostUp(kind, s, detected, clients), WireAll(Wirings(kind, s));
    var rest := up[..|up| - |wire|];
    assert up == rest + wire;
    assert forall c :: c in rest ==> !c.AddPolicy?;
    TidyWireAll(Wirings(kind, s));
    TidyConcat(rest, wire);
  }

  lemma DownIsTidy(kind: Kind, s: Server, detected: string, clients: seq<Client>)
    ensures Tidy(PostDown(kind, s, detected, clients))
  {
    var down, unwire := PostDown(kind, s, detected, clients), UnwireAll(Wirings(kind, s));
    var rest := down[..|down| - |unwire|];
    assert down == rest + unwire;
    assert forall c :: c in rest ==> !c.AddPolicy?;
    TidyWireAll(Wirings(kind, s));
    TidyConcat(rest, unwire);
  }

  lemma {:induction false} TidyKeepsOne(k: State, cs: seq<Command>, p: PolicyRule)
    requires Tidy(cs) && Policies(k)[p] <= 1
    ensures Policies(Run(k, cs).0)[p] <= 1
    decreases |cs|
  {
    if cs != [] {
      var (k', ok) := Exec(k, cs[0]);
      if |cs| > 1 && cs[1].AddPolicy? {
        assert cs[0] == DrainPolicy(cs[1].policy) && cs[1..][0] == cs[1];
        var k'' := Exec(k', cs[1]).0;
        assert Run(k, cs) == Run(k'', cs[2..]) by { assert cs[1..][1..] == cs[2..]; }
        assert Tidy(cs[2..]) by {
          forall i | 0 <= i < |cs[2..]| && cs[2..][i].AddPolicy? ensures i > 0 && cs[2..][i - 1] == DrainPolicy(cs[2..][i].policy) {
            assert cs[i + 2].AddPolicy?;
          }
        }
        TidyKeepsOne(k'', cs[2..], p);
      } else if ok {
        assert Tidy(cs[1..]) by {
          forall i | 0 <= i < |cs[1..]| && cs[1..][i].AddPolicy? ensures i > 0 && cs[1..][i - 1] == DrainPolicy(cs[1..][i].policy) {
            assert cs[i + 1].AddPolicy?;
          }
        }
        TidyKeepsOne(k', cs[1..], p);
      }
    }
  }

  lemma {:induction false} HealPoliciesKeepOne(k: State, kind: Kind, fs: seq<Family>, env: Answers, own: Kind, f: Family)
    requires Policies(k)[OwnPolicy(own, f)] <= 1
    ensures Policies(HealPolicies(k, kind, fs, env).kernel)[OwnPolicy(own, f)] <= 1
  {
    if fs != [] {
      HealPoliciesKeepOne(k, kind, fs[..|fs| - 1], env, own, f);
      var t, last := HealPolicies(k, kind, fs[..|fs| - 1], env), fs[|fs| - 1];
      if OwnPolicy(kind, last) == OwnPolicy(own, f) && OwnPolicy(own, f) in t.kernel.policies {
        OwnIsShown(t.kernel, kind, last);
      }
    }
  }

  lemma {:induction false} HealRulesKeepPolicies(t: Tick, rules: seq<Placed>, env: Answers)
    ensures HealRules(t, rules, env).kernel.policies == t.kernel.policies
  {
    if rules != [] { HealRulesKeepPolicies(t, rules[..|rules| - 1], env); }
  }

  lemma EventKeepsOne(k: State, e: Event, own: Kind, f: Family)
    requires Possible(k, e) && Policies(k)[OwnPolicy(own, f)] <= 1
    ensures Policies(After(k, e))[OwnPolicy(own, f)] <= 1
  {
    match e
    case Up(kind, s, detected, clients, stop) =>
      UpIsTidy(kind, s, detected, clients);
      TidyKeepsOne(k, Cut(PostUp(kind, s, detected, clients), stop), OwnPolicy(own, f));
    case Down(kind, s, detected, clients, stop) =>
      DownIsTidy(kind, s, detected, clients);
      TidyKeepsOne(k, Cut(PostDown(kind, s, detected, clients), stop), OwnPolicy(own, f));
    case HealTick(kind, s, env) =>
      if s.routeViaXray {
        HealPoliciesKeepOne(k, kind, HealFamilies(s), env, own, f);
        HealRulesKeepPolicies(HealPolicies(k, kind, HealFamilies(s), env), MangleChecks(kind, s), env);
      }
    case Foreign(n) =>
      assert Policies(n) <= Policies(k);
  }

  /**
   Across every run of ups and downs of any tunnels, each cut off anywhere, healing ticks and foreign removals: a
   tunnel flavour never has more than one copy of its policy rule per family.
   */
  lemma {:induction false} AtMostOnePolicyRule(k: State, events: seq<Event>, own: Kind, f: Family)
    requires PossibleRun(k, events) && Policies(k)[OwnPolicy(own, f)] <= 1
    ensures Policies(AfterAll(k, events))[OwnPolicy(own, f)] <= 1
    decreases |events|
  {
    if events != [] {
      EventKeepsOne(k, events[0], own, f);
      AtMostOnePolicyRule(After(k, events[0]), events[1..], own, f);
    }
  }
}
