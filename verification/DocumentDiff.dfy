/** What makes one chain document differ from another in a way a hop acts on. */
module DocumentDiff {
  import opened Prelude
  import opened ChainDocument

  predicate DistinctPorts(ports: seq<Port>) {
    forall i, j :: 0 <= i < j < |ports| ==> ports[i].port != ports[j].port
  }

  function PortNumbers(ports: seq<Port>): set<int> {
    set p | p in ports :: p.port
  }

  /** The last entry for each port number. */
  function PortIndex(ports: seq<Port>): map<int, Port> {
    if ports == [] then map[]
    else
      var n := |ports| - 1;
      PortIndex(ports[..n])[ports[n].port := ports[n]]
  }

  lemma {:induction false} PortIndexHolds(ports: seq<Port>)
    ensures forall n :: n in PortIndex(ports) ==> PortIndex(ports)[n] in ports && PortIndex(ports)[n].port == n
    ensures forall p :: p in ports ==> p.port in PortIndex(ports)
    ensures DistinctPorts(ports) ==> forall p :: p in ports ==> PortIndex(ports)[p.port] == p
  {
    if ports != [] {
      var n := |ports| - 1;
      assert ports == ports[..n] + [ports[n]];
      PortIndexHolds(ports[..n]);
    }
  }

  predicate Same(a: seq<Port>, b: seq<Port>) {
    |a| == |b| && forall p :: p in b ==> p.port in PortIndex(a) && PortIndex(a)[p.port] == p
  }

  method SamePorts(a: seq<Port>, b: seq<Port>) returns (same: bool)
    ensures same == Same(a, b)
  {
    if |a| != |b| {
      return false;
    }
    var index: map<int, Port> := map[];
    for i := 0 to |a|
      invariant index == PortIndex(a[..i])
    {
      assert a[..i + 1][..i] == a[..i];
      index := index[a[i].port := a[i]];
    }
    assert a[..|a|] == a;
    for i := 0 to |b|
      invariant forall j :: 0 <= j < i ==> b[j].port in index && index[b[j].port] == b[j]
    {
      if b[i].port !in index || index[b[i].port] != b[i] {
        assert b[i] in b;
        return false;
      }
    }
    return true;
  }

  /** How many listed ports carry a number outside `known`. */
  function CountOutside(ports: seq<Port>, known: set<int>): nat {
    if ports == [] then 0
    else
      var k := |ports| - 1;
      CountOutside(ports[..k], known) + (if ports[k].port in known then 0 else 1)
  }

  lemma {:induction false} NoneOutside(ports: seq<Port>, known: set<int>)
    ensures CountOutside(ports, known) == 0 <==> PortNumbers(ports) <= known
  {
    if ports != [] {
      var k := |ports| - 1;
      assert ports == ports[..k] + [ports[k]];
      assert PortNumbers(ports) == PortNumbers(ports[..k]) + {ports[k].port};
      NoneOutside(ports[..k], known);
    }
  }

  function PreviousPorts(previous: Option<Document>): seq<Port> {
    if previous.Some? then previous.value.ports else []
  }

  lemma PrefixStep(ports: seq<Port>, i: nat, known: set<int>)
    requires i < |ports|
    ensures PortNumbers(ports[..i + 1]) == PortNumbers(ports[..i]) + {ports[i].port}
    ensures CountOutside(ports[..i + 1], known) ==
            CountOutside(ports[..i], known) + (if ports[i].port in known then 0 else 1)
  {
    assert ports[..i + 1] == ports[..i] + [ports[i]];
    assert ports[..i + 1][..i] == ports[..i];
  }

  method NumbersOf(ports: seq<Port>) returns (numbers: set<int>)
    ensures numbers == PortNumbers(ports)
  {
    numbers := {};
    for i := 0 to |ports|
      invariant numbers == PortNumbers(ports[..i])
    {
      PrefixStep(ports, i, {});
      numbers := numbers + {ports[i].port};
    }
    assert ports[..|ports|] == ports;
  }

  method PortDiff(previous: Option<Document>, next: Document) returns (added: nat, removed: nat)
    ensures added == CountOutside(next.ports, PortNumbers(PreviousPorts(previous)))
    ensures removed == |PortNumbers(PreviousPorts(previous)) - PortNumbers(next.ports)|
  {
    var before := NumbersOf(PreviousPorts(previous));
    var after: set<int> := {};
    added := 0;
    for i := 0 to |next.ports|
      invariant after == PortNumbers(next.ports[..i])
      invariant added == CountOutside(next.ports[..i], before)
    {
      PrefixStep(next.ports, i, before);
      after := after + {next.ports[i].port};
      if next.ports[i].port !in before {
        added := added + 1;
      }
    }
    assert next.ports[..|next.ports|] == next.ports;
    removed := CountMissing(before, after);
  }

  lemma MissingOneMore(before: set<int>, rest: set<int>, after: set<int>, n: int)
    requires rest <= before && n in rest
    ensures |(before - (rest - {n})) - after| == |(before - rest) - after| + if n in after then 0 else 1
  {
    assert (before - (rest - {n})) - after == ((before - rest) - after) + (if n in after then {} else {n});
  }

  method CountMissing(before: set<int>, after: set<int>) returns (missing: nat)
    ensures missing == |before - after|
  {
    missing := 0;
    var rest := before;
    while rest != {}
      invariant rest <= before
      invariant missing == |(before - rest) - after|
    {
      ghost var some := SomeMember(rest);
      var n :| n in rest;
      MissingOneMore(before, rest, after, n);
      if n !in after {
        missing := missing + 1;
      }
      rest := rest - {n};
    }
    assert before - rest == before;
  }

  function HashIndex(hops: seq<Hop>): (m: map<string, SecretHash>)
    ensures forall n :: n in m <==> exists h :: h in hops && h.name == n
  {
    if hops == [] then map[]
    else
      var k := |hops| - 1;
      assert hops == hops[..k] + [hops[k]];
      HashIndex(hops[..k])[hops[k].name := hops[k].secretHash]
  }

  predicate SecretsDifferSpec(previous: Option<Document>, next: Document) {
    if previous.None? then |next.hops| > 0
    else
      || |previous.value.hops| != |next.hops|
      || exists h :: h in next.hops &&
           (h.name !in HashIndex(previous.value.hops) || HashIndex(previous.value.hops)[h.name] != h.secretHash)
  }

  method SecretsDiffer(previous: Option<Document>, next: Document) returns (differ: bool)
    ensures differ == SecretsDifferSpec(previous, next)
  {
    if previous.None? {
      return |next.hops| > 0;
    }
    var earlier := previous.value.hops;
    if |earlier| != |next.hops| {
      return true;
    }
    var before: map<string, SecretHash> := map[];
    for i := 0 to |earlier|
      invariant before == HashIndex(earlier[..i])
    {
      assert earlier[..i + 1][..i] == earlier[..i];
      before := before[earlier[i].name := earlier[i].secretHash];
    }
    assert earlier[..|earlier|] == earlier;
    for i := 0 to |next.hops|
      invariant forall j :: 0 <= j < i ==>
        next.hops[j].name in before && before[next.hops[j].name] == next.hops[j].secretHash
    {
      var h := next.hops[i];
      if h.name !in before || before[h.name] != h.secretHash {
        assert h in next.hops;
        return true;
      }
    }
    return false;
  }

  predicate Differs(a: Document, b: Document) {
    !Same(a.ports, b.ports) || a.nextHop != b.nextHop || a.self != b.self
    || a.activeEdge != b.activeEdge || SecretsDifferSpec(Some(a), b)
  }

  /** Whether a received document replaces the held one: a re-sent identical revision does not. */
  predicate Replaces(previous: Option<Document>, doc: Document) {
    !(previous.Some? && previous.value.revision == doc.revision && !Differs(previous.value, doc))
  }

  // ---- samePorts is set equality, by pigeonhole ----

  lemma DistinctPortsCount(ports: seq<Port>)
    ensures DistinctPorts(ports) <==> |PortNumbers(ports)| == |ports|
    ensures |PortNumbers(ports)| <= |ports|
  {
    var numbers := seq(|ports|, i requires 0 <= i < |ports| => ports[i].port);
    ElementsCount(numbers);
    assert Elements(numbers) == PortNumbers(ports) by {
      forall n | n in PortNumbers(ports) ensures n in Elements(numbers) {
        var p :| p in ports && p.port == n;
        var i :| 0 <= i < |ports| && ports[i] == p;
        assert numbers[i] == n;
      }
    }
    assert NoDuplicates(numbers) <==> DistinctPorts(ports) by {
      assert forall i :: 0 <= i < |ports| ==> numbers[i] == ports[i].port;
    }
  }

  /** On duplicate-free lists the one-sided loop of samePorts decides equality of the two lists as sets. */
  lemma SamePortsIsSetEquality(a: seq<Port>, b: seq<Port>)
    requires DistinctPorts(a) && DistinctPorts(b)
    ensures Same(a, b) <==> Elements(a) == Elements(b)
  {
    PortIndexHolds(a);
    ElementsCount(a);
    ElementsCount(b);
    if Same(a, b) {
      assert Elements(b) <= Elements(a);
      SubsetOfSameSize(Elements(b), Elements(a));
    }
    if Elements(a) == Elements(b) {
      forall p | p in b ensures p.port in PortIndex(a) && PortIndex(a)[p.port] == p {
        assert p in Elements(b);
      }
    }
  }

  /** Distinctness is what makes it so: with a port listed twice, samePorts accepts lists with different members. */
  lemma SamePortsNeedsDistinct() returns (a: seq<Port>, b: seq<Port>)
    ensures Same(a, b) && Elements(a) != Elements(b) && PortNumbers(a) == PortNumbers(b)
  {
    var tcp, udp := Port(80, NETWORK_TCP, "", ""), Port(80, NETWORK_UDP, "", "");
    a, b := [tcp, udp], [udp, udp];
    assert a[..1] == [tcp] && [tcp][..0] == [];
    assert PortIndex(a)[80] == udp;
    assert tcp in Elements(a) && tcp !in Elements(b) by { assert tcp.network[0] != udp.network[0]; }
    assert a[0].port in PortNumbers(a) && b[0].port in PortNumbers(b);
  }
}
