/** The kernel state that tunnel hooks change, and the commands they change it with. */
module Kernel {
  datatype Family = V4 | V6

  /** A rule's arguments after the chain name. */
  type Args = seq<string>

  datatype ChainId = ChainId(family: Family, table: string, chain: string)

  /** A rule and the chain it belongs to. */
  datatype Placed = Placed(id: ChainId, args: Args)

  /** `ip rule` shows a mark and its mask as one word. */
  datatype PolicyRule = PolicyRule(family: Family, mark: string, table: string)

  datatype Command =
    | Append(rule: Placed)
    | Delete(rule: Placed)
    | DrainPolicy(policy: PolicyRule)           // while ip rule del …; do :; done
    | AddPolicy(policy: PolicyRule)
    | ReplaceLocalRoute(family: Family, table: string)
    | DelLocalRoute(family: Family, table: string)
    | ReplaceNeigh(addr: string, dev: string)
    | DelNeigh(addr: string, dev: string)
    | Sysctl(key: string)

  datatype State = State(chains: map<ChainId, seq<Args>>, policies: seq<PolicyRule>,
                         routes: set<(Family, string)>, neighs: set<(string, string)>)
  {
    function Rules(id: ChainId): seq<Args> { if id in chains then chains[id] else [] }
  }

  function RemoveFirst<T(==)>(s: seq<T>, x: T): seq<T> {
    if s == [] then [] else if s[0] == x then s[1..] else [s[0]] + RemoveFirst(s[1..], x)
  }

  function RemoveAll<T(==)>(s: seq<T>, x: T): (r: seq<T>)
    ensures multiset(r) == multiset(s)[x := 0]
  {
    if s == [] then []
    else
      assert s == [s[0]] + s[1..];
      if s[0] == x then RemoveAll(s[1..], x) else [s[0]] + RemoveAll(s[1..], x)
  }

  /** One command: the state it leaves and whether it succeeded. */
  function Exec(k: State, c: Command): (State, bool) {
    match c
    case Append(r) => (k.(chains := k.chains[r.id := k.Rules(r.id) + [r.args]]), true)
    case Delete(r) =>
      if r.args in k.Rules(r.id) then (k.(chains := k.chains[r.id := RemoveFirst(k.Rules(r.id), r.args)]), true) else (k, false)
    case DrainPolicy(p) => (k.(policies := RemoveAll(k.policies, p)), true)
    case AddPolicy(p) => (k.(policies := k.policies + [p]), true)
    case ReplaceLocalRoute(f, t) => (k.(routes := k.routes + {(f, t)}), true)
    case DelLocalRoute(f, t) => if (f, t) in k.routes then (k.(routes := k.routes - {(f, t)}), true) else (k, false)
    case ReplaceNeigh(a, d) => (k.(neighs := k.neighs + {(a, d)}), true)
    case DelNeigh(a, d) => if (a, d) in k.neighs then (k.(neighs := k.neighs - {(a, d)}), true) else (k, false)
    case Sysctl(_) => (k, true)
  }

  /** A hook runs under `set -e`: the first command that fails ends it. */
  function Run(k: State, cs: seq<Command>): (State, bool)
    decreases |cs|
  {
    if cs == [] then (k, true)
    else
      var (k', ok) := Exec(k, cs[0]);
      if ok then Run(k', cs[1..]) else (k', false)
  }

  lemma {:induction false} RunConcat(k: State, a: seq<Command>, b: seq<Command>)
    ensures Run(k, a + b) == if Run(k, a).1 then Run(Run(k, a).0, b) else Run(k, a)
    decreases |a|
  {
    if a == [] {
      assert a + b == b;
    } else {
      assert (a + b)[1..] == a[1..] + b;
      RunConcat(Exec(k, a[0]).0, a[1..], b);
    }
  }

  function Install(rules: seq<Placed>): seq<Command> {
    seq(|rules|, i requires 0 <= i < |rules| => Append(rules[i]))
  }

  function Uninstall(rules: seq<Placed>): seq<Command> {
    seq(|rules|, i requires 0 <= i < |rules| => Delete(rules[i]))
  }

  /** The rules of the list that belong to one chain. */
  function On(rules: seq<Placed>, id: ChainId): multiset<Args> {
    if rules == [] then multiset{}
    else (if rules[0].id == id then multiset{rules[0].args} else multiset{}) + On(rules[1..], id)
  }

  lemma {:induction false} OnConcat(a: seq<Placed>, b: seq<Placed>, id: ChainId)
    ensures On(a + b, id) == On(a, id) + On(b, id)
  {
    if a == [] {
      assert a + b == b;
    } else {
      assert (a + b)[1..] == a[1..] + b;
      OnConcat(a[1..], b, id);
    }
  }

  lemma {:induction false} RemoveFirstCounts<T>(s: seq<T>, x: T)
    requires x in s
    ensures multiset(RemoveFirst(s, x)) == multiset(s) - multiset{x}
  {
    assert s == [s[0]] + s[1..];
    if s[0] != x { RemoveFirstCounts(s[1..], x); }
  }

  /** Two states that differ in their chains only. */
  predicate SameButChains(a: State, b: State) {
    a.policies == b.policies && a.routes == b.routes && a.neighs == b.neighs
  }

  lemma {:induction false} InstallAdds(k: State, rules: seq<Placed>)
    ensures var (n, ok) := Run(k, Install(rules));
      ok && SameButChains(k, n) && forall id :: multiset(n.Rules(id)) == multiset(k.Rules(id)) + On(rules, id)
    decreases |rules|
  {
    if rules != [] {
      var k' := Exec(k, Append(rules[0])).0;
      assert Install(rules)[1..] == Install(rules[1..]);
      InstallAdds(k', rules[1..]);
    }
  }

  ghost predicate Holds(k: State, rules: seq<Placed>) {
    forall id :: On(rules, id) <= multiset(k.Rules(id))
  }

  /** `n` has the rules of `k` and these as well. */
  ghost predicate Gained(k: State, n: State, rules: seq<Placed>) {
    forall id :: multiset(n.Rules(id)) == multiset(k.Rules(id)) + On(rules, id)
  }

  ghost predicate Lost(k: State, n: State, rules: seq<Placed>) {
    forall id :: multiset(n.Rules(id)) == multiset(k.Rules(id)) - On(rules, id)
  }

  lemma GainedTwice(k: State, m: State, n: State, a: seq<Placed>, b: seq<Placed>)
    requires Gained(k, m, a) && Gained(m, n, b)
    ensures Gained(k, n, a + b)
  {
    forall id ensures multiset(n.Rules(id)) == multiset(k.Rules(id)) + On(a + b, id) {
      OnConcat(a, b, id);
      assert multiset(n.Rules(id)) == multiset(m.Rules(id)) + On(b, id);
    }
  }

  lemma LostTwice(k: State, m: State, n: State, a: seq<Placed>, b: seq<Placed>)
    requires Lost(k, m, a) && Lost(m, n, b)
    ensures Lost(k, n, a + b)
  {
    forall id ensures multiset(n.Rules(id)) == multiset(k.Rules(id)) - On(a + b, id) {
      OnConcat(a, b, id);
      assert multiset(n.Rules(id)) == multiset(m.Rules(id)) - On(b, id);
    }
  }

  lemma RunCons(k: State, c: Command, cs: seq<Command>)
    ensures Run(k, [c] + cs) == if Exec(k, c).1 then Run(Exec(k, c).0, cs) else Exec(k, c)
  {
    assert ([c] + cs)[1..] == cs;
  }

  /** What a state holds of two groups of rules, with and after the loss of the first. */
  lemma HoldsParts(k: State, n: State, a: seq<Placed>, b: seq<Placed>)
    requires Holds(k, a + b)
    ensures Holds(k, a)
    ensures Lost(k, n, a) ==> Holds(n, b)
  {
    forall id ensures On(a, id) <= multiset(k.Rules(id)) {
      OnConcat(a, b, id);
      assert On(a + b, id) <= multiset(k.Rules(id));
    }
    if Lost(k, n, a) {
      forall id ensures On(b, id) <= multiset(n.Rules(id)) {
        OnConcat(a, b, id);
        assert On(a + b, id) <= multiset(k.Rules(id));
        assert multiset(n.Rules(id)) == multiset(k.Rules(id)) - On(a, id);
      }
    }
  }

  lemma OnOne(r: Placed, id: ChainId)
    ensures On([r], id) == if r.id == id then multiset{r.args} else multiset{}
  {
    assert [r][1..] == [];
  }

  lemma DeleteOne(k: State, r: Placed)
    requires Holds(k, [r])
    ensures var (n, ok) := Exec(k, Delete(r)); ok && SameButChains(k, n) && Lost(k, n, [r])
  {
    OnOne(r, r.id);
    assert On([r], r.id) <= multiset(k.Rules(r.id));
    assert r.args in multiset(k.Rules(r.id));
    RemoveFirstCounts(k.Rules(r.id), r.args);
    var n := Exec(k, Delete(r)).0;
    forall id ensures multiset(n.Rules(id)) == multiset(k.Rules(id)) - On([r], id) {
      OnOne(r, id);
    }
  }

  lemma UninstallCons(r: Placed, rest: seq<Placed>)
    ensures Uninstall([r] + rest) == [Delete(r)] + Uninstall(rest)
  {
  }

  lemma {:induction false} UninstallRemoves(k: State, rules: seq<Placed>)
    requires Holds(k, rules)
    ensures var (n, ok) := Run(k, Uninstall(rules)); ok && SameButChains(k, n) && Lost(k, n, rules)
    decreases |rules|
  {
    if rules != [] {
      var r, rest := rules[0], rules[1..];
      assert rules == [r] + rest;
      var k' := Exec(k, Delete(r)).0;
      HoldsParts(k, k', [r], rest);
      DeleteOne(k, r);
      UninstallRemoves(k', rest);
      UninstallCons(r, rest);
      RunCons(k, Delete(r), Uninstall(rest));
      LostTwice(k, k', Run(k', Uninstall(rest)).0, [r], rest);
    }
  }

  // ---- policy routing with the rules that feed it ----

  /** A policy rule, and the rules that mark and redirect what it routes. */
  datatype Wiring = Wiring(policy: PolicyRule, rules: seq<Placed>)
  {
    function Route(): (Family, string) { (policy.family, policy.table) }
  }

  function Wire(w: Wiring): seq<Command> {
    [DrainPolicy(w.policy), AddPolicy(w.policy), ReplaceLocalRoute(w.policy.family, w.policy.table)] + Install(w.rules)
  }

  function Unwire(w: Wiring): seq<Command> {
    Uninstall(w.rules) + [DelLocalRoute(w.policy.family, w.policy.table), DrainPolicy(w.policy)]
  }

  function WireAll(ws: seq<Wiring>): seq<Command> {
    if ws == [] then [] else Wire(ws[0]) + WireAll(ws[1..])
  }

  function UnwireAll(ws: seq<Wiring>): seq<Command> {
    if ws == [] then [] else Unwire(ws[0]) + UnwireAll(ws[1..])
  }

  function WiringRules(ws: seq<Wiring>): seq<Placed> {
    if ws == [] then [] else ws[0].rules + WiringRules(ws[1..])
  }

  /** How often each policy rule is installed. */
  function Policies(k: State): multiset<PolicyRule> { multiset(k.policies) }

  ghost predicate OwnRoutes(ws: seq<Wiring>) {
    forall i, j :: 0 <= i < j < |ws| ==> ws[i].Route() != ws[j].Route()
  }

  lemma RunTwo(k: State, k1: State, k2: State, a: Command, b: Command)
    requires Exec(k, a) == (k1, true) && Exec(k1, b) == (k2, true)
    ensures Run(k, [a, b]) == (k2, true)
  {
    assert [a, b] == [a] + [b] && [b] == [b] + [];
    RunCons(k, a, [b]);
    RunCons(k1, b, []);
  }

  lemma RunThree(k: State, k1: State, k2: State, k3: State, a: Command, b: Command, c: Command)
    requires Exec(k, a) == (k1, true) && Exec(k1, b) == (k2, true) && Exec(k2, c) == (k3, true)
    ensures Run(k, [a, b, c]) == (k3, true)
  {
    assert [a, b, c] == [a] + [b, c];
    RunCons(k, a, [b, c]);
    RunTwo(k1, k2, k3, b, c);
  }

  function OnePolicy(k: State, p: PolicyRule): State {
    k.(policies := RemoveAll(k.policies, p) + [p])
  }

  function Routed(k: State, p: PolicyRule): State {
    k.(routes := k.routes + {(p.family, p.table)})
  }

  lemma RoutingUp(k: State, p: PolicyRule)
    ensures Run(k, [DrainPolicy(p), AddPolicy(p), ReplaceLocalRoute(p.family, p.table)]) == (Routed(OnePolicy(k, p), p), true)
  {
    var k1 := Exec(k, DrainPolicy(p)).0;
    RunThree(k, k1, OnePolicy(k, p), Routed(OnePolicy(k, p), p),
             DrainPolicy(p), AddPolicy(p), ReplaceLocalRoute(p.family, p.table));
  }

  lemma RoutingDown(k: State, p: PolicyRule)
    requires (p.family, p.table) in k.routes
    ensures Run(k, [DelLocalRoute(p.family, p.table), DrainPolicy(p)]) ==
            (k.(policies := RemoveAll(k.policies, p), routes := k.routes - {(p.family, p.table)}), true)
  {
    var k1 := k.(routes := k.routes - {(p.family, p.table)});
    RunTwo(k, k1, k1.(policies := RemoveAll(k.policies, p)), DelLocalRoute(p.family, p.table), DrainPolicy(p));
  }

  lemma WireOne(k: State, w: Wiring)
    ensures var (n, ok) := Run(k, Wire(w));
      && ok && n.neighs == k.neighs && n.routes == k.routes + {w.Route()}
      && Policies(n) == Policies(k)[w.policy := 1] && Gained(k, n, w.rules)
  {
    var p := w.policy;
    RunConcat(k, [DrainPolicy(p), AddPolicy(p), ReplaceLocalRoute(p.family, p.table)], Install(w.rules));
    RoutingUp(k, p);
    InstallAdds(Routed(OnePolicy(k, p), p), w.rules);
  }

  lemma UnwireOne(k: State, w: Wiring)
    requires Holds(k, w.rules) && w.Route() in k.routes
    ensures var (n, ok) := Run(k, Unwire(w));
      && ok && n.neighs == k.neighs && n.routes == k.routes - {w.Route()}
      && Policies(n) == Policies(k)[w.policy := 0] && Lost(k, n, w.rules)
  {
    var p := w.policy;
    RunConcat(k, Uninstall(w.rules), [DelLocalRoute(p.family, p.table), DrainPolicy(p)]);
    UninstallRemoves(k, w.rules);
    RoutingDown(Run(k, Uninstall(w.rules)).0, p);
  }

  ghost predicate Unowned(p: PolicyRule, ws: seq<Wiring>) {
    forall w :: w in ws ==> w.policy != p
  }

  lemma {:induction false} WireAllEffect(k: State, ws: seq<Wiring>)
    requires OwnRoutes(ws)
    ensures var (n, ok) := Run(k, WireAll(ws));
      && ok && n.neighs == k.neighs && k.routes <= n.routes
      && (forall w :: w in ws ==> w.Route() in n.routes && Policies(n)[w.policy] == 1)
      && (forall p :: Unowned(p, ws) ==> Policies(n)[p] == Policies(k)[p])
      && Gained(k, n, WiringRules(ws))
    decreases |ws|
  {
    if ws != [] {
      var w, rest := ws[0], ws[1..];
      assert ws == [w] + rest;
      RunConcat(k, Wire(w), WireAll(rest));
      WireOne(k, w);
      var k' := Run(k, Wire(w)).0;
      WireAllEffect(k', rest);
      var n := Run(k', WireAll(rest)).0;
      RoutesApart(w, rest);
      forall id ensures multiset(n.Rules(id)) == multiset(k.Rules(id)) + On(WiringRules(ws), id) {
        OnConcat(w.rules, WiringRules(rest), id);
        assert multiset(n.Rules(id)) == multiset(k'.Rules(id)) + On(WiringRules(rest), id);
      }
      forall p | Unowned(p, ws) ensures Policies(n)[p] == Policies(k)[p] {
        assert w in ws && Unowned(p, rest);
      }
    }
  }

  lemma RoutesApart(w: Wiring, rest: seq<Wiring>)
    requires OwnRoutes([w] + rest)
    ensures OwnRoutes(rest) && Unowned(w.policy, rest) && forall v :: v in rest ==> v.Route() != w.Route()
  {
    var ws := [w] + rest;
    assert ws[1..] == rest;
    forall v | v in rest ensures v.Route() != w.Route() {
      var i :| 0 <= i < |rest| && rest[i] == v;
      assert ws[0].Route() != ws[i + 1].Route();
    }
  }

  lemma {:induction false} UnwireAllEffect(k: State, ws: seq<Wiring>)
    requires OwnRoutes(ws) && Holds(k, WiringRules(ws)) && forall w :: w in ws ==> w.Route() in k.routes
    ensures var (n, ok) := Run(k, UnwireAll(ws));
      && ok
      && (forall w :: w in ws ==> Policies(n)[w.policy] == 0)
      && (forall p :: Unowned(p, ws) ==> Policies(n)[p] == Policies(k)[p])
      && Lost(k, n, WiringRules(ws))
    decreases |ws|
  {
    if ws != [] {
      var w, rest := ws[0], ws[1..];
      assert ws == [w] + rest;
      RoutesApart(w, rest);
      var k' := Run(k, Unwire(w)).0;
      HoldsParts(k, k', w.rules, WiringRules(rest));
      RunConcat(k, Unwire(w), UnwireAll(rest));
      UnwireOne(k, w);
      UnwireAllEffect(k', rest);
      LostTwice(k, k', Run(k', UnwireAll(rest)).0, w.rules, WiringRules(rest));
      assert forall p :: Unowned(p, ws) ==> p != w.policy && Unowned(p, rest);
    }
  }

  /** Taking out the first of two groups of rules leaves the second. */
  lemma UninstallFirst(k: State, a: seq<Placed>, b: seq<Placed>)
    requires Holds(k, a + b)
    ensures var (n, ok) := Run(k, Uninstall(a)); ok && SameButChains(k, n) && Lost(k, n, a) && Holds(n, b)
  {
    HoldsParts(k, Run(k, Uninstall(a)).0, a, b);
    UninstallRemoves(k, a);
  }

  lemma Unaffected(k: State, n: State, rules: seq<Placed>)
    requires k.chains == n.chains
    ensures Holds(k, rules) == Holds(n, rules)
    ensures forall m :: Lost(k, m, rules) == Lost(n, m, rules) && Gained(k, m, rules) == Gained(n, m, rules)
    ensures forall m :: Lost(m, k, rules) == Lost(m, n, rules) && Gained(m, k, rules) == Gained(m, n, rules)
  {
    assert forall id :: k.Rules(id) == n.Rules(id);
  }
}
