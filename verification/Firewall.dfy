/**
 The panel's own netfilter chain: the port lists it is compiled from, the commands that build, hook and remove it, and
 what a packet meets in INPUT at every moment of that.
 */
module Firewall {
  import opened Prelude

  // ---- port lists ----

  datatype PortRange = PortRange(from: int, to: int)
  {
    predicate IsValid() { 0 < from < 65536 && 0 < to < 65536 && from <= to }
    predicate Contains(n: int) { from <= n <= to }
  }

  predicate Less(a: PortRange, b: PortRange) {
    a.from < b.from || (a.from == b.from && a.to < b.to)
  }

  ghost predicate Sorted(ps: seq<PortRange>) {
    forall i, j :: 0 <= i < j < |ps| ==> Less(ps[i], ps[j])
  }

  /** What `merge` promises of its result; `MergeIsUnique` says only one list has it. */
  ghost predicate IsMerge(lists: seq<seq<PortRange>>, out: seq<PortRange>) {
    Sorted(out) && forall p :: p in out <==> p.IsValid() && exists l :: l in lists && p in l
  }

  lemma {:induction false} SortedIsUnique(a: seq<PortRange>, b: seq<PortRange>)
    requires Sorted(a) && Sorted(b) && Elements(a) == Elements(b)
    ensures a == b
  {
    assert a != [] ==> a[0] in Elements(a);
    assert b != [] ==> b[0] in Elements(b);
    if a != [] && b != [] {
      var i :| 0 <= i < |b| && b[i] == a[0];
      var j :| 0 <= j < |a| && a[j] == b[0];
      assert a[0] == b[0];
      assert a == [a[0]] + a[1..] && b == [b[0]] + b[1..];
      assert Elements(a[1..]) == Elements(a) - {a[0]};
      assert Elements(b[1..]) == Elements(b) - {b[0]};
      SortedIsUnique(a[1..], b[1..]);
    }
  }

  lemma MergeIsUnique(lists: seq<seq<PortRange>>, a: seq<PortRange>, b: seq<PortRange>)
    requires IsMerge(lists, a) && IsMerge(lists, b)
    ensures a == b
  {
    assert Elements(a) == Elements(b) by {
      forall p ensures p in Elements(a) <==> p in Elements(b) {
        assert p in a <==> p in b;
      }
    }
    SortedIsUnique(a, b);
  }

  function Insert(p: PortRange, sorted: seq<PortRange>): seq<PortRange> {
    if sorted == [] || Less(p, sorted[0]) then [p] + sorted else [sorted[0]] + Insert(p, sorted[1..])
  }

  lemma {:induction false} InsertSorts(p: PortRange, sorted: seq<PortRange>)
    requires Sorted(sorted) && p !in sorted
    ensures Sorted(Insert(p, sorted)) && Elements(Insert(p, sorted)) == Elements(sorted) + {p}
  {
    if sorted == [] || Less(p, sorted[0]) {
    } else {
      InsertSorts(p, sorted[1..]);
      var t := Insert(p, sorted[1..]);
      assert sorted == [sorted[0]] + sorted[1..];
      forall j | 0 <= j < |t| ensures Less(sorted[0], t[j]) {
        assert t[j] in Elements(t);
        if t[j] != p {
          var i :| 0 <= i < |sorted[1..]| && sorted[1..][i] == t[j];
          assert sorted[i + 1] == t[j];
        }
      }
    }
  }

  /** Sorting a list without repetitions. */
  method Sort(ps: seq<PortRange>) returns (sorted: seq<PortRange>)
    requires NoDuplicates(ps)
    ensures Sorted(sorted) && Elements(sorted) == Elements(ps)
  {
    sorted := [];
    for i := 0 to |ps|
      invariant Sorted(sorted) && Elements(sorted) == Elements(ps[..i])
    {
      assert ps[i] !in ps[..i];
      assert ps[i] !in Elements(ps[..i]) && ps[i] !in Elements(sorted);
      InsertSorts(ps[i], sorted);
      sorted := Insert(ps[i], sorted);
      assert ps[..i + 1] == ps[..i] + [ps[i]];
    }
    assert ps[..|ps|] == ps;
  }

  /** What the double loop of `Merge` has taken in. */
  ghost predicate Gathered(out: seq<PortRange>, lists: seq<seq<PortRange>>, partial: seq<PortRange>) {
    NoDuplicates(out) && forall p :: p in out <==> p.IsValid() && ((exists l :: l in lists && p in l) || p in partial)
  }

  lemma GatherList(out: seq<PortRange>, lists: seq<seq<PortRange>>, i: nat)
    requires i < |lists| && Gathered(out, lists[..i], lists[i])
    ensures Gathered(out, lists[..i + 1], [])
  {
    assert lists[..i + 1] == lists[..i] + [lists[i]];
    forall p ensures ((exists l :: l in lists[..i] && p in l) || p in lists[i]) == (exists l :: l in lists[..i + 1] && p in l) {
      if p in lists[i] {
        assert lists[i] in lists[..i + 1];
      }
      if l :| l in lists[..i] && p in l {
        assert l in lists[..i + 1];
      }
    }
  }

  lemma GatherOne(out: seq<PortRange>, lists: seq<seq<PortRange>>, list: seq<PortRange>, j: nat)
    requires j < |list| && Gathered(out, lists, list[..j])
    ensures Gathered(if list[j].IsValid() && list[j] !in out then out + [list[j]] else out, lists, list[..j + 1])
  {
    assert list[..j + 1] == list[..j] + [list[j]];
  }

  method Merge(lists: seq<seq<PortRange>>) returns (out: seq<PortRange>)
    ensures IsMerge(lists, out)
  {
    var seen: set<PortRange> := {};
    var all: seq<PortRange> := [];
    for i := 0 to |lists|
      invariant seen == Elements(all) && Gathered(all, lists[..i], [])
    {
      var list := lists[i];
      for j := 0 to |list|
        invariant seen == Elements(all) && Gathered(all, lists[..i], list[..j])
      {
        GatherOne(all, lists[..i], list, j);
        if !list[j].IsValid() || list[j] in seen {
          continue;
        }
        seen := seen + {list[j]};
        all := all + [list[j]];
      }
      assert list[..|list|] == list;
      GatherList(all, lists, i);
    }
    assert lists[..|lists|] == lists;
    out := Sort(all);
    forall p ensures p in out <==> p in all {
      assert p in out <==> p in Elements(out);
    }
  }

  // ---- packets, rules and verdicts ----

  datatype Protocol = Tcp | Udp | Icmp | Icmp6 | OtherProtocol(number: int)

  /** `tracked`: conntrack calls it RELATED or ESTABLISHED. */
  datatype Packet = Packet(iface: string, tracked: bool, protocol: Protocol, dport: int)

  datatype Match =
    | OnInterface(name: string)
    | Tracked
    | OfProtocol(protocol: Protocol)
    | ToPort(protocol: Protocol, ports: PortRange)
    | Anything

  datatype Target = Return | Drop | Accept

  datatype Rule = Rule(match_: Match, target: Target)

  /** An interface name in a rule; a trailing '+' stands for any continuation. */
  predicate InterfaceMatches(name: string, iface: string) {
    if name != "" && name[|name| - 1] == '+' then name[..|name| - 1] <= iface else name == iface
  }

  predicate Matches(m: Match, p: Packet) {
    match m
    case OnInterface(name) => InterfaceMatches(name, p.iface)
    case Tracked => p.tracked
    case OfProtocol(protocol) => p.protocol == protocol
    case ToPort(protocol, ports) => p.protocol == protocol && ports.Contains(p.dport)
    case Anything => true
  }

  function ChainVerdict(rules: seq<Rule>, p: Packet): Target {
    if rules == [] then Return
    else if Matches(rules[0].match_, p) then rules[0].target
    else ChainVerdict(rules[1..], p)
  }

  /** INPUT holds our jumps and rules of others. */
  datatype InputRule = Jump | Foreign(id: int)

  /** One family's table, as far as it concerns us. `chain` is None while our chain does not exist. */
  datatype Table = Table(chain: Option<seq<Rule>>, input: seq<InputRule>)

  predicate Drops(chain: Option<seq<Rule>>, p: Packet) {
    chain.Some? && ChainVerdict(chain.value, p).Drop?
  }

  /** What others' rules decide on a packet, if anything, and INPUT's policy. */
  datatype Others = Others(decide: (int, Packet) -> Option<bool>, policy: bool)

  /** Whether INPUT accepts a packet. */
  predicate Accepts(chain: Option<seq<Rule>>, input: seq<InputRule>, others: Others, p: Packet) {
    if input == [] then others.policy
    else
      match input[0]
      case Jump =>
        (match if chain.None? then Return else ChainVerdict(chain.value, p)
         case Drop => false
         case Accept => true
         case Return => Accepts(chain, input[1..], others, p))
      case Foreign(id) =>
        match others.decide(id, p)
        case Some(accept) => accept
        case None => Accepts(chain, input[1..], others, p)
  }

  /** INPUT without our jumps. */
  function ForeignRules(input: seq<InputRule>): seq<InputRule> {
    if input == [] then []
    else if input[0].Jump? then ForeignRules(input[1..])
    else [input[0]] + ForeignRules(input[1..])
  }

  function Jumps(input: seq<InputRule>): nat {
    if input == [] then 0 else (if input[0].Jump? then 1 else 0) + Jumps(input[1..])
  }

  predicate NeverAccepts(chain: Option<seq<Rule>>) {
    chain.Some? ==> forall r :: r in chain.value ==> r.target != Accept
  }

  lemma {:induction false} NeverAcceptsVerdict(rules: seq<Rule>, p: Packet)
    requires NeverAccepts(Some(rules))
    ensures ChainVerdict(rules, p) != Accept
  {
    if rules != [] {
      NeverAcceptsVerdict(rules[1..], p);
    }
  }

  /** Wherever and however often we are hooked: a packet is refused, or meets the verdict INPUT gives without us. */
  lemma {:induction false} CanCloseNeverOpen(t: Table, others: Others, p: Packet)
    requires NeverAccepts(t.chain)
    ensures Accepts(t.chain, t.input, others, p) ==> Accepts(None, ForeignRules(t.input), others, p)
    ensures !Drops(t.chain, p) ==> Accepts(t.chain, t.input, others, p) == Accepts(None, ForeignRules(t.input), others, p)
    ensures Drops(t.chain, p) && t.input != [] && t.input[0] == Jump ==> !Accepts(t.chain, t.input, others, p)
    decreases |t.input|
  {
    if t.chain.Some? {
      NeverAcceptsVerdict(t.chain.value, p);
    }
    if t.input != [] {
      CanCloseNeverOpen(Table(t.chain, t.input[1..]), others, p);
    }
  }

  // ---- the chain's rules ----

  const LOOPBACK := "lo"

  function IcmpOf(v6: bool): Protocol { if v6 then Icmp6 else Icmp }

  function DhcpPort(v6: bool): int { if v6 then 546 else 68 }

  function InterfaceRules(ifaces: seq<string>): seq<Rule> {
    seq(|ifaces|, i requires 0 <= i < |ifaces| => Rule(OnInterface(ifaces[i]), Return))
  }

  function PortRules(protocol: Protocol, ports: seq<PortRange>): seq<Rule> {
    seq(|ports|, i requires 0 <= i < |ports| => Rule(ToPort(protocol, ports[i]), Return))
  }

  const FINAL_DROP := Rule(Anything, Drop)

  function AlwaysOut(v6: bool): seq<Rule> {
    [Rule(Tracked, Return), Rule(OfProtocol(IcmpOf(v6)), Return),
     Rule(ToPort(Udp, PortRange(DhcpPort(v6), DhcpPort(v6))), Return)]
  }

  function LettingThrough(v6: bool, tcp: seq<PortRange>, udp: seq<PortRange>, ifaces: seq<string>): seq<Rule> {
    InterfaceRules([LOOPBACK] + ifaces) + AlwaysOut(v6) + PortRules(Tcp, tcp) + PortRules(Udp, udp)
  }

  function RulesOf(v6: bool, tcp: seq<PortRange>, udp: seq<PortRange>, ifaces: seq<string>): seq<Rule> {
    LettingThrough(v6, tcp, udp, ifaces) + [FINAL_DROP]
  }

  method Rules(v6: bool, tcp: seq<PortRange>, udp: seq<PortRange>, ifaces: seq<string>) returns (rules: seq<Rule>)
    ensures rules == RulesOf(v6, tcp, udp, ifaces)
  {
    rules := [];
    var unjudged := [LOOPBACK] + ifaces;
    for i := 0 to |unjudged|
      invariant rules == InterfaceRules(unjudged[..i])
    {
      rules := rules + [Rule(OnInterface(unjudged[i]), Return)];
    }
    assert unjudged[..|unjudged|] == unjudged;
    rules := rules + [Rule(Tracked, Return)];
    if v6 {
      rules := rules + [Rule(OfProtocol(Icmp6), Return), Rule(ToPort(Udp, PortRange(546, 546)), Return)];
    } else {
      rules := rules + [Rule(OfProtocol(Icmp), Return), Rule(ToPort(Udp, PortRange(68, 68)), Return)];
    }
    ghost var head := rules;
    for i := 0 to |tcp|
      invariant rules == head + PortRules(Tcp, tcp[..i])
    {
      rules := rules + [Rule(ToPort(Tcp, tcp[i]), Return)];
    }
    assert tcp[..|tcp|] == tcp;
    head := rules;
    for i := 0 to |udp|
      invariant rules == head + PortRules(Udp, udp[..i])
    {
      rules := rules + [Rule(ToPort(Udp, udp[i]), Return)];
    }
    assert udp[..|udp|] == udp;
    rules := rules + [FINAL_DROP];
  }

  ghost predicate SomeMatches(rules: seq<Rule>, p: Packet) {
    exists r :: r in rules && Matches(r.match_, p)
  }

  ghost predicate OnlyReturns(rules: seq<Rule>) {
    forall r :: r in rules ==> r.target == Return
  }

  /** A list of RETURN rules never drops, and followed by the final DROP it drops what none of them matches. */
  lemma {:induction false} ReturnsThenDrop(rules: seq<Rule>, p: Packet)
    requires OnlyReturns(rules)
    ensures ChainVerdict(rules, p) == Return
    ensures ChainVerdict(rules + [FINAL_DROP], p).Drop? <==> !SomeMatches(rules, p)
  {
    if rules != [] {
      assert rules == [rules[0]] + rules[1..];
      ReturnsThenDrop(rules[1..], p);
      assert (rules + [FINAL_DROP])[1..] == rules[1..] + [FINAL_DROP];
    }
  }

  /** The traffic that is never judged. */
  ghost predicate Exempt(v6: bool, ifaces: seq<string>, p: Packet) {
    || p.iface == LOOPBACK
    || (exists name :: name in ifaces && InterfaceMatches(name, p.iface))
    || p.tracked
    || p.protocol == IcmpOf(v6)
    || (p.protocol == Udp && p.dport == DhcpPort(v6))
  }

  ghost predicate Listed(ports: seq<PortRange>, n: int) {
    exists r :: r in ports && r.IsValid() && r.Contains(n)
  }

  lemma MatchesConcat(a: seq<Rule>, b: seq<Rule>, p: Packet)
    ensures SomeMatches(a + b, p) <==> SomeMatches(a, p) || SomeMatches(b, p)
  {
    assert forall r :: r in a + b <==> r in a || r in b;
  }

  lemma InterfacesMatched(ifaces: seq<string>, p: Packet)
    ensures SomeMatches(InterfaceRules([LOOPBACK] + ifaces), p)
            <==> p.iface == LOOPBACK || exists name :: name in ifaces && InterfaceMatches(name, p.iface)
  {
    var names := [LOOPBACK] + ifaces;
    var rules := InterfaceRules(names);
    assert InterfaceMatches(LOOPBACK, p.iface) <==> p.iface == LOOPBACK;
    if r :| r in rules && Matches(r.match_, p) {
      var k :| 0 <= k < |rules| && rules[k] == r;
      assert names[k] in names && InterfaceMatches(names[k], p.iface);
      assert names[k] == LOOPBACK || names[k] in ifaces;
    }
    if name :| name in names && InterfaceMatches(name, p.iface) {
      var i :| 0 <= i < |names| && names[i] == name;
      assert rules[i] in rules && Matches(rules[i].match_, p);
    }
    assert forall n :: n in names <==> n == LOOPBACK || n in ifaces;
  }

  lemma PortsMatched(protocol: Protocol, ports: seq<PortRange>, p: Packet)
    ensures SomeMatches(PortRules(protocol, ports), p)
            <==> p.protocol == protocol && exists r :: r in ports && r.Contains(p.dport)
  {
    var rules := PortRules(protocol, ports);
    if r :| r in rules && Matches(r.match_, p) {
      var k :| 0 <= k < |rules| && rules[k] == r;
      assert ports[k] in ports && ports[k].Contains(p.dport);
    }
    if p.protocol == protocol {
      if r :| r in ports && r.Contains(p.dport) {
        var i :| 0 <= i < |ports| && ports[i] == r;
        assert rules[i] in rules && Matches(rules[i].match_, p);
      }
    }
  }

  lemma AlwaysOutMatched(v6: bool, p: Packet)
    ensures SomeMatches(AlwaysOut(v6), p)
            <==> p.tracked || p.protocol == IcmpOf(v6) || (p.protocol == Udp && p.dport == DhcpPort(v6))
  {
    var rules := AlwaysOut(v6);
    assert rules[0] in rules && rules[1] in rules && rules[2] in rules;
    assert forall r :: r in rules ==> r == rules[0] || r == rules[1] || r == rules[2];
  }

  lemma ExemptIsMatched(v6: bool, tcp: seq<PortRange>, udp: seq<PortRange>, ifaces: seq<string>, p: Packet)
    ensures SomeMatches(LettingThrough(v6, tcp, udp, ifaces), p)
            <==> || Exempt(v6, ifaces, p)
                 || (p.protocol == Tcp && exists r :: r in tcp && r.Contains(p.dport))
                 || (p.protocol == Udp && exists r :: r in udp && r.Contains(p.dport))
  {
    var names, always := InterfaceRules([LOOPBACK] + ifaces), AlwaysOut(v6);
    MatchesConcat(names + always + PortRules(Tcp, tcp), PortRules(Udp, udp), p);
    MatchesConcat(names + always, PortRules(Tcp, tcp), p);
    MatchesConcat(names, always, p);
    InterfacesMatched(ifaces, p);
    AlwaysOutMatched(v6, p);
    PortsMatched(Tcp, tcp, p);
    PortsMatched(Udp, udp, p);
  }

  function SinglePorts(ns: seq<int>): seq<PortRange> {
    seq(|ns|, i requires 0 <= i < |ns| => PortRange(ns[i], ns[i]))
  }

  datatype Settings = Settings(tcp: seq<PortRange>, udp: seq<PortRange>, ifaces: seq<string>)

  /** The rules ApplyFirewall builds, given where sshd listens. */
  ghost predicate AreRulesFor(rules: seq<Rule>, v6: bool, fw: Settings, ssh: seq<int>) {
    exists tcp, udp :: IsMerge([fw.tcp, SinglePorts(ssh)], tcp) && IsMerge([fw.udp], udp)
                       && rules == RulesOf(v6, tcp, udp, fw.ifaces)
  }

  /** The finished chain drops exactly what is neither exempt nor for an allowed port nor for sshd. */
  lemma FinishedDropsExactly(rules: seq<Rule>, v6: bool, fw: Settings, ssh: seq<int>, p: Packet)
    requires AreRulesFor(rules, v6, fw, ssh)
    ensures Drops(Some(rules), p) <==>
            && !Exempt(v6, fw.ifaces, p)
            && !(p.protocol == Tcp && (Listed(fw.tcp, p.dport) || (p.dport in ssh && 0 < p.dport < 65536)))
            && !(p.protocol == Udp && Listed(fw.udp, p.dport))
  {
    var tcp, udp :| IsMerge([fw.tcp, SinglePorts(ssh)], tcp) && IsMerge([fw.udp], udp)
                    && rules == RulesOf(v6, tcp, udp, fw.ifaces);
    ReturnsThenDrop(LettingThrough(v6, tcp, udp, fw.ifaces), p);
    ExemptIsMatched(v6, tcp, udp, fw.ifaces, p);
    MergedPorts([fw.udp], udp, p.dport);
    MergedPorts([fw.tcp, SinglePorts(ssh)], tcp, p.dport);
    SshPorts(ssh, p.dport);
    assert fw.udp in [fw.udp];
    assert fw.tcp in [fw.tcp, SinglePorts(ssh)] && SinglePorts(ssh) in [fw.tcp, SinglePorts(ssh)];
  }

  lemma MergedPorts(lists: seq<seq<PortRange>>, out: seq<PortRange>, n: int)
    requires IsMerge(lists, out)
    ensures (exists r :: r in out && r.Contains(n)) <==> exists l :: l in lists && Listed(l, n)
  {
    if l :| l in lists && Listed(l, n) {
      var r :| r in l && r.IsValid() && r.Contains(n);
      assert r in out;
    }
    if r :| r in out && r.Contains(n) {
      var l :| l in lists && r in l;
      assert Listed(l, n);
    }
  }

  lemma SshPorts(ssh: seq<int>, n: int)
    ensures Listed(SinglePorts(ssh), n) <==> n in ssh && 0 < n < 65536
  {
    if n in ssh && 0 < n < 65536 {
      var i :| 0 <= i < |ssh| && ssh[i] == n;
      assert SinglePorts(ssh)[i] == PortRange(n, n);
      assert PortRange(n, n) in SinglePorts(ssh) && PortRange(n, n).IsValid() && PortRange(n, n).Contains(n);
    }
  }

  // ---- the commands ----

  datatype Command =
    | NewChain              // -N THREEAX-IN
    | Flush                 // -F THREEAX-IN
    | DeleteChain           // -X THREEAX-IN
    | Append(rule: Rule)    // -A THREEAX-IN ...
    | CheckJump             // -C INPUT -j THREEAX-IN
    | InsertJump            // -I INPUT 1 -j THREEAX-IN
    | DeleteJump            // -D INPUT -j THREEAX-IN

  function WithoutFirstJump(input: seq<InputRule>): seq<InputRule> {
    if input == [] then [] else if input[0].Jump? then input[1..] else [input[0]] + WithoutFirstJump(input[1..])
  }

  /** What a command makes of a table; None when it is refused. */
  function Execute(t: Table, c: Command): Option<Table> {
    match c
    case NewChain => if t.chain.Some? then None else Some(t.(chain := Some([])))
    case Flush => if t.chain.None? then None else Some(t.(chain := Some([])))
    case DeleteChain => if t.chain != Some([]) || Jump in t.input then None else Some(t.(chain := None))
    case Append(rule) => if t.chain.None? then None else Some(t.(chain := Some(t.chain.value + [rule])))
    case CheckJump => if Jump in t.input then Some(t) else None
    case InsertJump => if t.chain.None? then None else Some(t.(input := [Jump] + t.input))
    case DeleteJump => if Jump in t.input then Some(t.(input := WithoutFirstJump(t.input))) else None
  }

  /** The kernel keeps a chain for as long as a rule jumps to it. */
  predicate WellFormed(t: Table) {
    Jump in t.input ==> t.chain.Some?
  }

  function Rebuilt(t: Table, rules: seq<Rule>): Table {
    Table(Some(rules), if Jump in t.input then t.input else [Jump] + t.input)
  }

  /** The chain is complete and hooked. A check for the hook that fails for a reason of its own adds a second one. */
  ghost predicate Finished(s: Table, was: Table, rules: seq<Rule>) {
    s.chain == Some(rules) && ((Jump in was.input && s.input == was.input) || s.input == [Jump] + was.input)
  }

  /** Where a rebuild can be seen, or can break off: as it was, filling the chain, or finished. */
  ghost predicate InProgress(s: Table, was: Table, rules: seq<Rule>) {
    || s == was
    || (s.input == was.input && s.chain.Some? && s.chain.value <= rules)
    || Finished(s, was, rules)
  }

  /** One command, refused by the table or for a reason of its own. */
  function RunCommand(t: Table, c: Command, broken: bool): (Table, bool) {
    match Execute(t, c)
    case Some(n) => if broken then (t, false) else (n, true)
    case None => (t, false)
  }

  /** The rules appended from the n-th command on. */
  function Filled(t: Table, rules: seq<Rule>, fault: nat -> bool, n: nat): (Table, Option<RebuildError>)
    decreases |rules|
  {
    if rules == [] then (t, None)
    else
      var (next, ok) := RunCommand(t, Append(rules[0]), fault(n));
      if ok then Filled(next, rules[1..], fault, n + 1) else (t, Some(CannotAppend(rules[0])))
  }

  function HookedUp(t: Table, fault: nat -> bool, n: nat): (Table, Option<RebuildError>) {
    if RunCommand(t, CheckJump, fault(n)).1 then (t, None)
    else
      var (next, ok) := RunCommand(t, InsertJump, fault(n + 1));
      (next, if ok then None else Some(CannotHook))
  }

  function Cleared(t: Table, fault: nat -> bool, n: nat): (Table, bool) {
    RunCommand(RunCommand(t, NewChain, fault(n)).0, Flush, fault(n + 1))
  }

  /** A whole rebuild whose first command is the n-th. */
  function RebuildOf(t: Table, rules: seq<Rule>, fault: nat -> bool, n: nat): (Table, Option<RebuildError>) {
    var (cleared, ok) := Cleared(t, fault, n);
    if !ok then (cleared, Some(CannotClear))
    else
      var (filled, err) := Filled(cleared, rules, fault, n + 2);
      if err.Some? then (filled, err) else HookedUp(filled, fault, n + 2 + |rules|)
  }

  datatype RebuildError = CannotClear | CannotAppend(rule: Rule) | CannotHook | NoFamilyUsable

  const JUMP_COPIES := 10

  /** INPUT after n deletions of our jump. */
  function Unhooked(input: seq<InputRule>, n: nat): seq<InputRule>
    decreases |input|
  {
    if input == [] || n == 0 then input
    else if input[0].Jump? then Unhooked(input[1..], n - 1)
    else [input[0]] + Unhooked(input[1..], n)
  }

  function Removed(t: Table): Table {
    var input := Unhooked(t.input, JUMP_COPIES);
    Table(if t.chain.None? || Jump !in input then None else Some([]), input)
  }

  class Family {
    const v6: bool
    const usable: bool
    /** Whether command number n is refused for a reason of its own, such as the xtables lock. */
    const fault: nat -> bool
    var table: Table
    var commands: nat
    /** The table after each command. */
    ghost var history: seq<Table>

    constructor (v6: bool, usable: bool, fault: nat -> bool, table: Table)
      ensures this.v6 == v6 && this.usable == usable && this.fault == fault && this.table == table
      ensures commands == 0 && history == []
    {
      this.v6, this.usable, this.fault, this.table := v6, usable, fault, table;
      commands, history := 0, [];
    }

    ghost predicate Reliable() {
      forall n :: !fault(n)
    }

    method Run(c: Command) returns (ok: bool)
      modifies this
      ensures ok == (!fault(old(commands)) && Execute(old(table), c).Some?)
      ensures table == if ok then Execute(old(table), c).value else old(table)
      ensures (table, ok) == RunCommand(old(table), c, fault(old(commands)))
      ensures history == old(history) + [table] && commands == old(commands) + 1
    {
      var done := Execute(table, c);
      ok := !fault(commands) && done.Some?;
      if ok {
        table := done.value;
      }
      commands := commands + 1;
      history := history + [table];
    }

    /** The rules appended one by one to the cleared chain. */
    method Fill(rules: seq<Rule>, ghost was: Table) returns (err: Option<RebuildError>)
      requires table == Table(Some([]), was.input)
      modifies this
      ensures old(history) <= history
      ensures forall i :: |old(history)| <= i < |history| ==> InProgress(history[i], was, rules)
      ensures InProgress(table, was, rules) && table.input == was.input && table.chain.Some?
      ensures (table, err) == Filled(old(table), rules, fault, old(commands))
      ensures err.None? ==> table.chain == Some(rules) && commands == old(commands) + |rules|
      ensures Reliable() ==> err.None?
    {
      assert rules[0..] == rules;
      for i := 0 to |rules|
        invariant table == Table(Some(rules[..i]), was.input) && commands == old(commands) + i
        invariant Filled(old(table), rules, fault, old(commands)) == Filled(table, rules[i..], fault, commands)
        invariant old(history) <= history
        invariant forall k :: |old(history)| <= k < |history| ==> InProgress(history[k], was, rules)
      {
        var ok := Run(Append(rules[i]));
        if !ok {
          return Some(CannotAppend(rules[i]));
        }
        assert rules[..i] + [rules[i]] == rules[..i + 1] && rules[i..][1..] == rules[i + 1..];
      }
      assert rules[..|rules|] == rules;
      return None;
    }

    /** The chain created if it is not there, and emptied. */
    method Clear(ghost rules: seq<Rule>) returns (ok: bool)
      requires WellFormed(table)
      modifies this
      ensures WellFormed(table) && old(history) <= history && commands == old(commands) + 2
      ensures forall i :: |old(history)| <= i < |history| ==> InProgress(history[i], old(table), rules)
      ensures InProgress(table, old(table), rules)
      ensures (table, ok) == Cleared(old(table), fault, old(commands))
      ensures ok ==> table == Table(Some([]), old(table).input)
      ensures Reliable() ==> ok
    {
      var created := Run(NewChain);
      ok := Run(Flush);
    }

    /** The jump from INPUT inserted unless the check finds one. */
    method Hook(ghost rules: seq<Rule>, ghost was: Table) returns (err: Option<RebuildError>)
      requires table == Table(Some(rules), was.input)
      modifies this
      ensures WellFormed(table) && old(history) <= history
      ensures forall i :: |old(history)| <= i < |history| ==> InProgress(history[i], was, rules)
      ensures InProgress(table, was, rules)
      ensures (table, err) == HookedUp(old(table), fault, old(commands))
      ensures err.None? ==> Finished(table, was, rules)
      ensures Reliable() ==> err.None? && table == Rebuilt(was, rules)
    {
      var ok := Run(CheckJump);
      if ok {
        return None;
      }
      ok := Run(InsertJump);
      return if ok then None else Some(CannotHook);
    }

    method Rebuild(tcp: seq<PortRange>, udp: seq<PortRange>, ifaces: seq<string>) returns (err: Option<RebuildError>)
      requires WellFormed(table)
      modifies this
      ensures WellFormed(table) && old(history) <= history
      ensures forall i :: |old(history)| <= i < |history| ==> InProgress(history[i], old(table), RulesOf(v6, tcp, udp, ifaces))
      ensures InProgress(table, old(table), RulesOf(v6, tcp, udp, ifaces))
      ensures (table, err) == RebuildOf(old(table), RulesOf(v6, tcp, udp, ifaces), fault, old(commands))
      ensures err.None? ==> Finished(table, old(table), RulesOf(v6, tcp, udp, ifaces))
      ensures Reliable() ==> err.None? && table == Rebuilt(old(table), RulesOf(v6, tcp, udp, ifaces))
    {
      ghost var was := table;
      ghost var wanted := RulesOf(v6, tcp, udp, ifaces);
      var ok := Clear(wanted);
      if !ok {
        return Some(CannotClear);
      }
      var rules := Rules(v6, tcp, udp, ifaces);
      err := Fill(rules, was);
      if err.Some? {
        return;
      }
      err := Hook(rules, was);
    }

    /** Our jumps deleted one by one, up to the limit or to the first that fails. */
    method Unhook()
      requires WellFormed(table)
      modifies this
      ensures WellFormed(table) && table.chain == old(table).chain && old(history) <= history
      ensures forall i :: |old(history)| <= i < |history| ==> ForeignRules(history[i].input) == ForeignRules(old(table).input)
      ensures ForeignRules(table.input) == ForeignRules(old(table).input)
      ensures Reliable() ==> table.input == Unhooked(old(table).input, JUMP_COPIES)
    {
      ghost var was := table;
      var i := 0;
      while i < JUMP_COPIES
        invariant 0 <= i <= JUMP_COPIES && WellFormed(table) && table.chain == was.chain
        invariant ForeignRules(table.input) == ForeignRules(was.input)
        invariant Unhooked(table.input, JUMP_COPIES - i) == Unhooked(was.input, JUMP_COPIES)
        invariant old(history) <= history
        invariant forall k :: |old(history)| <= k < |history| ==> ForeignRules(history[k].input) == ForeignRules(was.input)
      {
        JumpsLeft(table.input);
        UnhookOne(table.input, JUMP_COPIES - i);
        var ok := Run(DeleteJump);
        if !ok {
          return;
        }
        i := i + 1;
      }
      UnhookOne(table.input, 0);
    }

    method Remove()
      requires WellFormed(table)
      modifies this
      ensures WellFormed(table) && old(history) <= history
      ensures forall i :: |old(history)| <= i < |history| ==> ForeignRules(history[i].input) == ForeignRules(old(table).input)
      ensures ForeignRules(table.input) == ForeignRules(old(table).input)
      ensures Reliable() ==> table == Removed(old(table))
    {
      Unhook();
      var ok := Run(Flush);
      ok := Run(DeleteChain);
    }
  }

  lemma {:induction false} JumpsLeft(input: seq<InputRule>)
    ensures Jump in input <==> Jumps(input) > 0
    ensures Jumps(WithoutFirstJump(input)) == if Jump in input then Jumps(input) - 1 else 0
    ensures ForeignRules(WithoutFirstJump(input)) == ForeignRules(input)
    ensures Jump !in input ==> WithoutFirstJump(input) == input && ForeignRules(input) == input
  {
    if input != [] {
      assert input == [input[0]] + input[1..];
      JumpsLeft(input[1..]);
    }
  }

  lemma {:induction false} UnhookOne(input: seq<InputRule>, n: nat)
    ensures n > 0 ==> Unhooked(WithoutFirstJump(input), n - 1) == Unhooked(input, n)
    ensures Jump !in input ==> Unhooked(input, n) == input
    ensures Unhooked(input, 0) == input
  {
    if input != [] {
      assert input == [input[0]] + input[1..];
      UnhookOne(input[1..], n);
    }
  }

  lemma {:induction false} JumpsAfterUnhook(input: seq<InputRule>, n: nat)
    ensures Jumps(Unhooked(input, n)) == if Jumps(input) <= n then 0 else Jumps(input) - n
    ensures ForeignRules(Unhooked(input, n)) == ForeignRules(input)
    decreases |input|
  {
    if input != [] && n > 0 {
      JumpsAfterUnhook(input[1..], if input[0].Jump? then n - 1 else n);
    }
  }

  // ---- applying and removing on both families ----

  ghost predicate Closing(s: Table, was: Table, v6: bool, fw: Settings, ssh: seq<int>) {
    s == was || exists rules :: AreRulesFor(rules, v6, fw, ssh) && InProgress(s, was, rules)
  }

  ghost predicate Closed(s: Table, was: Table, v6: bool, fw: Settings, ssh: seq<int>, reliable: bool) {
    exists rules :: AreRulesFor(rules, v6, fw, ssh) && Finished(s, was, rules) && (reliable ==> s == Rebuilt(was, rules))
  }

  method RebuildOne(f: Family, tcp: seq<PortRange>, udp: seq<PortRange>, fw: Settings, ssh: seq<int>)
    returns (err: Option<RebuildError>)
    requires WellFormed(f.table) && IsMerge([fw.tcp, SinglePorts(ssh)], tcp) && IsMerge([fw.udp], udp)
    modifies f
    ensures WellFormed(f.table) && Closing(f.table, old(f.table), f.v6, fw, ssh)
    ensures err.None? ==> Closed(f.table, old(f.table), f.v6, fw, ssh, f.Reliable())
    ensures f.Reliable() ==> err.None?
  {
    assert AreRulesFor(RulesOf(f.v6, tcp, udp, fw.ifaces), f.v6, fw, ssh);
    err := f.Rebuild(tcp, udp, fw.ifaces);
  }

  method ApplyFirewall(families: seq<Family>, fw: Settings, ssh: seq<int>) returns (err: Option<RebuildError>)
    requires forall i :: 0 <= i < |families| ==> WellFormed(families[i].table)
    requires forall i, j :: 0 <= i < j < |families| ==> families[i] != families[j]
    modifies families
    ensures forall i :: 0 <= i < |families| ==> WellFormed(families[i].table)
    ensures forall i :: 0 <= i < |families| && !families[i].usable ==> families[i].table == old(families[i].table)
    ensures forall i :: 0 <= i < |families| ==> Closing(families[i].table, old(families[i].table), families[i].v6, fw, ssh)
    ensures err.None? ==> forall i :: 0 <= i < |families| && families[i].usable ==>
              Closed(families[i].table, old(families[i].table), families[i].v6, fw, ssh, families[i].Reliable())
    ensures (forall i :: 0 <= i < |families| ==> families[i].Reliable()) ==>
              (err.None? <==> exists i :: 0 <= i < |families| && families[i].usable)
    ensures (forall i :: 0 <= i < |families| ==> !families[i].usable) ==> err == Some(NoFamilyUsable)
  {
    var tcp := Merge([fw.tcp, SinglePorts(ssh)]);
    var udp := Merge([fw.udp]);
    var applied := 0;
    err := None;
    for k := 0 to |families|
      invariant forall i :: 0 <= i < |families| ==> WellFormed(families[i].table)
      invariant forall i :: k <= i < |families| ==> families[i].table == old(families[i].table)
      invariant forall i :: 0 <= i < |families| ==> Closing(families[i].table, old(families[i].table), families[i].v6, fw, ssh)
      invariant forall i :: 0 <= i < k && families[i].usable ==>
        Closed(families[i].table, old(families[i].table), families[i].v6, fw, ssh, families[i].Reliable())
      invariant forall i :: 0 <= i < k && !families[i].usable ==> families[i].table == old(families[i].table)
      invariant err.None? && 0 <= applied
      invariant applied == 0 <==> forall i :: 0 <= i < k ==> !families[i].usable
    {
      if !families[k].usable {
        continue;
      }
      err := RebuildOne(families[k], tcp, udp, fw, ssh);
      if err.Some? {
        return;
      }
      applied := applied + 1;
    }
    if applied == 0 {
      return Some(NoFamilyUsable);
    }
  }

  method RemoveFirewall(families: seq<Family>)
    requires forall i :: 0 <= i < |families| ==> WellFormed(families[i].table)
    requires forall i, j :: 0 <= i < j < |families| ==> families[i] != families[j]
    modifies families
    ensures forall i :: 0 <= i < |families| ==> ForeignRules(families[i].table.input) == ForeignRules(old(families[i].table).input)
    ensures forall i :: 0 <= i < |families| && families[i].usable && families[i].Reliable() ==>
              families[i].table == Removed(old(families[i].table))
    ensures forall i :: 0 <= i < |families| && !families[i].usable ==> families[i].table == old(families[i].table)
  {
    for k := 0 to |families|
      invariant forall i :: k <= i < |families| ==> families[i].table == old(families[i].table)
      invariant forall i :: 0 <= i < |families| ==> ForeignRules(families[i].table.input) == ForeignRules(old(families[i].table).input)
      invariant forall i :: 0 <= i < k && families[i].usable && families[i].Reliable() ==>
        families[i].table == Removed(old(families[i].table))
      invariant forall i :: 0 <= i < k && !families[i].usable ==> families[i].table == old(families[i].table)
    {
      if families[k].usable {
        families[k].Remove();
      }
    }
  }

  // ---- what that means for packets ----

  /**
   At every point of a rebuild, and wherever it fails: our chain drops what it dropped before, or nothing, or what the
   finished chain drops; others' rules stand untouched and in order; and INPUT accepts nothing it would not accept
   without us.
   */
  lemma RebuildIsSafeThroughout(s: Table, was: Table, rules: seq<Rule>, v6: bool, fw: Settings, ssh: seq<int>, others: Others)
    requires InProgress(s, was, rules) && AreRulesFor(rules, v6, fw, ssh) && NeverAccepts(was.chain)
    ensures || (forall p :: Drops(s.chain, p) == Drops(was.chain, p))
            || (forall p :: !Drops(s.chain, p))
            || (forall p :: Drops(s.chain, p) == Drops(Some(rules), p))
    ensures ForeignRules(s.input) == ForeignRules(was.input)
    ensures forall p :: Accepts(s.chain, s.input, others, p) ==> Accepts(None, ForeignRules(was.input), others, p)
  {
    var tcp, udp :| IsMerge([fw.tcp, SinglePorts(ssh)], tcp) && IsMerge([fw.udp], udp)
                    && rules == RulesOf(v6, tcp, udp, fw.ifaces);
    var body := LettingThrough(v6, tcp, udp, fw.ifaces);
    assert OnlyReturns(body);
    if s.chain.Some? && s.chain.value <= rules && s.chain.value != rules {
      var k := |s.chain.value|;
      assert s.chain.value == body[..k];
      forall p ensures !Drops(s.chain, p) {
        ReturnsThenDrop(body[..k], p);
      }
    }
    assert NeverAccepts(s.chain) by {
      assert forall r :: r in rules ==> r in body || r == FINAL_DROP;
    }
    forall p ensures Accepts(s.chain, s.input, others, p) ==> Accepts(None, ForeignRules(was.input), others, p) {
      CanCloseNeverOpen(s, others, p);
    }
  }

  /** What others' rules above our first jump decide. */
  function DecidedAhead(input: seq<InputRule>, others: Others, p: Packet): Option<bool> {
    if input == [] || input[0].Jump? then None
    else match others.decide(input[0].id, p) case Some(accept) => Some(accept) case None => DecidedAhead(input[1..], others, p)
  }

  /** A packet our hooked chain drops gets through exactly when a rule above the jump accepts it first. */
  lemma {:induction false} DroppedUnlessDecidedAhead(t: Table, others: Others, p: Packet)
    requires Drops(t.chain, p) && Jump in t.input
    ensures Accepts(t.chain, t.input, others, p) <==> DecidedAhead(t.input, others, p) == Some(true)
    decreases |t.input|
  {
    if t.input[0].Foreign? && others.decide(t.input[0].id, p).None? {
      assert t.input == [t.input[0]] + t.input[1..];
      DroppedUnlessDecidedAhead(Table(t.chain, t.input[1..]), others, p);
    }
  }

  /**
   The finished table leaves what the chain does not drop to INPUT as it was, and refuses what it drops unless a rule
   above the first jump decides before it. An inserted jump stands first; one that was there already stays where it was.
   */
  lemma FinishedVerdict(s: Table, was: Table, rules: seq<Rule>, v6: bool, fw: Settings, ssh: seq<int>, others: Others, p: Packet)
    requires AreRulesFor(rules, v6, fw, ssh) && Finished(s, was, rules)
    ensures Accepts(s.chain, s.input, others, p) <==>
            if Drops(Some(rules), p) then DecidedAhead(s.input, others, p) == Some(true)
            else Accepts(None, ForeignRules(was.input), others, p)
    ensures s.input[0] == Jump ==> DecidedAhead(s.input, others, p) == None
  {
    var tcp, udp :| IsMerge([fw.tcp, SinglePorts(ssh)], tcp) && IsMerge([fw.udp], udp)
                    && rules == RulesOf(v6, tcp, udp, fw.ifaces);
    assert NeverAccepts(Some(rules)) by {
      assert forall r :: r in rules ==> r in LettingThrough(v6, tcp, udp, fw.ifaces) || r == FINAL_DROP;
    }
    CanCloseNeverOpen(s, others, p);
    if Drops(Some(rules), p) {
      assert Jump in s.input;
      DroppedUnlessDecidedAhead(s, others, p);
    }
  }

  /** A jump below a rule that accepts is found and left there, and what the chain would drop stays open. */
  lemma JumpBelowLeavesOpen(rules: seq<Rule>, others: Others, p: Packet)
    requires Drops(Some(rules), p) && others.decide(1, p) == Some(true)
    ensures var was := Table(Some([]), [Foreign(1), Jump]);
      && WellFormed(was) && Rebuilt(was, rules).input == was.input
      && Accepts(Rebuilt(was, rules).chain, Rebuilt(was, rules).input, others, p)
  {
    var was := Table(Some([]), [Foreign(1), Jump]);
    assert was.input[1] == Jump;
    DroppedUnlessDecidedAhead(Rebuilt(was, rules), others, p);
  }

  // ---- what one failing command leaves ----

  /** Appending goes through up to the one that fails. */
  lemma {:induction false} FilledUntil(before: seq<Rule>, input: seq<InputRule>, rules: seq<Rule>, fault: nat -> bool, n: nat, k: nat)
    requires k <= |rules| && forall i :: n <= i < n + k ==> !fault(i)
    requires k < |rules| ==> fault(n + k)
    ensures Filled(Table(Some(before), input), rules, fault, n)
            == (Table(Some(before + rules[..k]), input), if k < |rules| then Some(CannotAppend(rules[k])) else None)
    decreases k
  {
    if k == 0 {
      assert before + rules[..0] == before;
    } else {
      FilledUntil(before + [rules[0]], input, rules[1..], fault, n + 1, k - 1);
      assert before + [rules[0]] + rules[1..][..k - 1] == before + rules[..k];
      assert k < |rules| ==> rules[1..][k - 1] == rules[k];
    }
  }

  /** When only the check for the jump fails, a hooked table gets a second jump, and the rebuild reports no error. */
  lemma FailedCheckAddsJump(t: Table, rules: seq<Rule>, fault: nat -> bool, n: nat)
    requires WellFormed(t) && Jump in t.input && forall i: nat :: fault(i) <==> i == n + 2 + |rules|
    ensures RebuildOf(t, rules, fault, n) == (Table(Some(rules), [Jump] + t.input), None)
    ensures Jumps([Jump] + t.input) == Jumps(t.input) + 1
  {
    FilledUntil([], t.input, rules, fault, n + 2, |rules|);
    assert [] + rules[..|rules|] == rules;
  }

  /** Short of the final DROP the chain holds RETURN rules only, which drop nothing. */
  lemma UnfinishedDropsNothing(rules: seq<Rule>, k: nat, v6: bool, fw: Settings, ssh: seq<int>, p: Packet)
    requires AreRulesFor(rules, v6, fw, ssh) && k < |rules|
    ensures !Drops(Some(rules[..k]), p)
  {
    var tcp, udp :| IsMerge([fw.tcp, SinglePorts(ssh)], tcp) && IsMerge([fw.udp], udp)
                    && rules == RulesOf(v6, tcp, udp, fw.ifaces);
    var body := LettingThrough(v6, tcp, udp, fw.ifaces);
    assert rules[..k] == body[..k] && OnlyReturns(body[..k]);
    ReturnsThenDrop(body[..k], p);
  }

  lemma BrokenOffAt(t: Table, rules: seq<Rule>, fault: nat -> bool, n: nat, k: nat)
    requires WellFormed(t) && Jump in t.input && k < |rules| && forall i: nat :: fault(i) <==> i == n + 2 + k
    ensures RebuildOf(t, rules, fault, n) == (Table(Some(rules[..k]), t.input), Some(CannotAppend(rules[k])))
  {
    FilledUntil([], t.input, rules, fault, n + 2, k);
    assert [] + rules[..k] == rules[..k];
    assert Cleared(t, fault, n) == (Table(Some([]), t.input), true);
  }

  /** When an append fails, the table stays hooked, with the rules appended so far, and the chain drops nothing. */
  lemma FailedAppendLeavesReturns(t: Table, rules: seq<Rule>, fault: nat -> bool, n: nat, k: nat,
                                  v6: bool, fw: Settings, ssh: seq<int>, p: Packet)
    requires WellFormed(t) && Jump in t.input && k < |rules| && forall i: nat :: fault(i) <==> i == n + 2 + k
    requires AreRulesFor(rules, v6, fw, ssh)
    ensures RebuildOf(t, rules, fault, n) == (Table(Some(rules[..k]), t.input), Some(CannotAppend(rules[k])))
    ensures !Drops(Some(rules[..k]), p)
  {
    BrokenOffAt(t, rules, fault, n, k);
    UnfinishedDropsNothing(rules, k, v6, fw, ssh, p);
  }

  lemma RulesAreUnique(a: seq<Rule>, b: seq<Rule>, v6: bool, fw: Settings, ssh: seq<int>)
    requires AreRulesFor(a, v6, fw, ssh) && AreRulesFor(b, v6, fw, ssh)
    ensures a == b
  {
    var tcp, udp :| IsMerge([fw.tcp, SinglePorts(ssh)], tcp) && IsMerge([fw.udp], udp) && a == RulesOf(v6, tcp, udp, fw.ifaces);
    var tcp', udp' :| IsMerge([fw.tcp, SinglePorts(ssh)], tcp') && IsMerge([fw.udp], udp') && b == RulesOf(v6, tcp', udp', fw.ifaces);
    MergeIsUnique([fw.tcp, SinglePorts(ssh)], tcp, tcp');
    MergeIsUnique([fw.udp], udp, udp');
  }

  /** Applying the same settings again changes nothing; a run of settings ends as the last one alone would. */
  lemma ApplyTwiceIsOnce(t: Table, first: seq<Rule>, second: seq<Rule>)
    ensures Rebuilt(Rebuilt(t, first), second) == Rebuilt(t, second)
    ensures ForeignRules(Rebuilt(t, first).input) == ForeignRules(t.input)
  {
    if Jump !in t.input {
      assert ([Jump] + t.input)[0] == Jump;
    }
  }

  /**
   Removal leaves none of our jumps and no chain exactly when there were at most ten copies; others' rules it leaves as
   they are whatever it finds.
   */
  lemma RemoveIsCompleteUpToTen(t: Table)
    requires WellFormed(t)
    ensures Removed(t) == Table(None, ForeignRules(t.input)) <==> Jumps(t.input) <= JUMP_COPIES
    ensures Jumps(Removed(t).input) == if Jumps(t.input) <= JUMP_COPIES then 0 else Jumps(t.input) - JUMP_COPIES
    ensures forall p :: !Drops(Removed(t).chain, p)
  {
    JumpsLeft(t.input);
    JumpsAfterUnhook(t.input, JUMP_COPIES);
    var input := Unhooked(t.input, JUMP_COPIES);
    JumpsLeft(input);
  }

  /** On a table without our chain, removing after applying gives the table back. */
  lemma RemoveUndoesApply(t: Table, rules: seq<Rule>)
    requires WellFormed(t) && t.chain == None
    ensures Removed(Rebuilt(t, rules)) == t
  {
    JumpsLeft(t.input);
    RemoveIsCompleteUpToTen(Rebuilt(t, rules));
    assert Jumps([Jump] + t.input) == 1;
  }
}
