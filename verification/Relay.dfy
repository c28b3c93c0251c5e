/** The dokodemo-door relay and the reconciliation of it with the applied chain document. */
module Relay {
  import opened Prelude
  import opened ChainDocument
  import opened DocumentDiff

  datatype Inbound = Inbound(port: int, network: string, host: string)

  datatype RelayError =
    | OutOfRange(port: int)
    | UnknownNetwork(port: int)
    | DeclaredTwice(port: int)
    | NoPorts
    | StartFailed

  predicate KnownNetwork(network: string) {
    network == NETWORK_TCP || network == NETWORK_UDP || network == NETWORK_TCP_UDP
  }

  predicate Listenable(p: Port) {
    1 <= p.port <= 65535 && KnownNetwork(p.network)
  }

  /** The port lists a relay config can be built from. */
  predicate Relayable(ports: seq<Port>) {
    ports != [] && DistinctPorts(ports) && forall p :: p in ports ==> Listenable(p)
  }

  function InboundFor(p: Port, host: string): Inbound {
    Inbound(p.port, p.network, host)
  }

  function InboundsFor(ports: seq<Port>, host: string): seq<Inbound> {
    seq(|ports|, i requires 0 <= i < |ports| => InboundFor(ports[i], host))
  }

  function ListenPorts(ports: seq<Port>): (r: seq<int>)
    ensures Elements(r) == PortNumbers(ports)
  {
    var r := seq(|ports|, i requires 0 <= i < |ports| => ports[i].port);
    assert forall n :: n in PortNumbers(ports) ==> n in r by {
      forall n | n in PortNumbers(ports) ensures n in r {
        var i :| 0 <= i < |ports| && ports[i].port == n;
        assert r[i] == n;
      }
    }
    r
  }

  /** The part of a list the loop has accepted so far. */
  ghost predicate Accepted(ports: seq<Port>) {
    DistinctPorts(ports) && forall p :: p in ports ==> Listenable(p)
  }

  lemma AcceptedStep(ports: seq<Port>, i: nat, host: string)
    requires i < |ports| && Accepted(ports[..i])
    ensures Listenable(ports[i]) && ports[i].port !in PortNumbers(ports[..i]) <==> Accepted(ports[..i + 1])
    ensures Accepted(ports) ==> Accepted(ports[..i + 1])
    ensures PortNumbers(ports[..i + 1]) == PortNumbers(ports[..i]) + {ports[i].port}
    ensures InboundsFor(ports[..i + 1], host) == InboundsFor(ports[..i], host) + [InboundFor(ports[i], host)]
  {
    var shorter, longer := ports[..i], ports[..i + 1];
    assert longer == shorter + [ports[i]];
    assert forall j :: 0 <= j < i ==> shorter[j] == longer[j];
    assert PortNumbers(longer) == PortNumbers(shorter) + {ports[i].port};
  }

  /** The error names what is wrong with the list. */
  ghost predicate Explains(ports: seq<Port>, e: RelayError) {
    match e
    case OutOfRange(n) => !(1 <= n <= 65535) && n in PortNumbers(ports)
    case UnknownNetwork(n) => exists p :: p in ports && p.port == n && !KnownNetwork(p.network)
    case DeclaredTwice(n) => exists i, j :: 0 <= i < j < |ports| && ports[i].port == n == ports[j].port
    case NoPorts => ports == []
    case StartFailed => false
  }

  lemma ListedBefore(ports: seq<Port>, i: nat, n: int)
    requires i < |ports| && n in PortNumbers(ports[..i]) && ports[i].port == n
    ensures Explains(ports, DeclaredTwice(n))
  {
    var p :| p in ports[..i] && p.port == n;
    var k :| 0 <= k < |ports[..i]| && ports[..i][k] == p;
    assert ports[k] == p;
  }

  method BuildRelayConfig(ports: seq<Port>, host: string) returns (r: Result<seq<Inbound>, RelayError>)
    ensures r.Ok? <==> Relayable(ports)
    ensures r.Ok? ==> r.value == InboundsFor(ports, host)
    ensures r.Err? ==> Explains(ports, r.error)
  {
    var inbounds: seq<Inbound> := [];
    var seen: map<int, Port> := map[];
    for i := 0 to |ports|
      invariant inbounds == InboundsFor(ports[..i], host)
      invariant seen.Keys == PortNumbers(ports[..i])
      invariant Accepted(ports[..i])
    {
      var port := ports[i];
      AcceptedStep(ports, i, host);
      assert port in ports;
      if port.port < 1 || port.port > 65535 {
        return Err(OutOfRange(port.port));
      }
      if !KnownNetwork(port.network) {
        return Err(UnknownNetwork(port.port));
      }
      if port.port in seen {
        ListedBefore(ports, i, port.port);
        return Err(DeclaredTwice(port.port));
      }
      seen := seen[port.port := port];
      inbounds := inbounds + [InboundFor(port, host)];
    }
    assert ports[..|ports|] == ports;
    if |inbounds| == 0 {
      return Err(NoPorts);
    }
    return Ok(inbounds);
  }

  /** What a relay shows from outside: the config its process runs, and what it reports. */
  datatype RelayState = RelayState(running: Option<seq<Inbound>>, ports: seq<int>, host: string, starts: nat)

  function ApplyRelay(r: RelayState, ports: seq<Port>, host: string, startOk: bool): RelayState {
    if !Relayable(ports) then r
    else if !startOk then r.(running := None, ports := [])
    else RelayState(Some(InboundsFor(ports, host)), ListenPorts(ports), host, r.starts + 1)
  }

  class RelayProcess {
    var proc: Option<seq<Inbound>>
    var ports: seq<int>
    var host: string
    ghost var starts: nat

    ghost function State(): RelayState
      reads this
    {
      RelayState(proc, ports, host, starts)
    }

    constructor ()
      ensures State() == RelayState(None, [], "", 0)
    {
      proc, ports, host, starts := None, [], "", 0;
    }

    /** `startOk` is whether the new xray process comes up. */
    method Apply(wanted: seq<Port>, nextHopHost: string, startOk: bool) returns (err: Option<RelayError>)
      modifies this
      ensures State() == ApplyRelay(old(State()), wanted, nextHopHost, startOk)
      ensures err.None? <==> Relayable(wanted) && startOk
    {
      var built := BuildRelayConfig(wanted, nextHopHost);
      if built.Err? {
        return Some(built.error);
      }
      if proc.Some? {
        proc := None;
      }
      if !startOk {
        ports := [];
        return Some(StartFailed);
      }
      proc := Some(built.value);
      ports := ListenPorts(wanted);
      host := nextHopHost;
      starts := starts + 1;
      return None;
    }

    method Stop()
      modifies this
      ensures State() == old(State()).(running := None, ports := if old(proc).Some? then [] else old(ports))
    {
      if proc.Some? {
        proc, ports := None, [];
      }
    }
  }

  // ---- a hop that applies documents ----

  /** A running hop: the document in memory, the cached file, the relay, and how its last relay call ended. */
  datatype HopState = HopState(doc: Option<Document>, file: Option<Document>, relay: RelayState, lastCallOk: bool)

  predicate NeedsRelay(previous: Option<Document>, doc: Document) {
    || previous.None?
    || CountOutside(doc.ports, PortNumbers(PreviousPorts(previous))) != 0
    || |PortNumbers(PreviousPorts(previous)) - PortNumbers(doc.ports)| != 0
    || previous.value.nextHop.host != doc.nextHop.host
    || !Same(previous.value.ports, doc.ports)
  }

  /** What the environment answers: whether the cache file could be written and whether a relay start succeeds. */
  datatype Outcome = Outcome(saved: bool, startOk: bool)

  datatype Event =
    | Boot(startOk: bool)                       // the process starts over from the cached file
    | Receive(doc: Document, outcome: Outcome)  // a poll brought a document

  function CallRelay(h: HopState, doc: Document, startOk: bool): HopState {
    h.(relay := ApplyRelay(h.relay, doc.ports, doc.nextHop.host, startOk),
       lastCallOk := Relayable(doc.ports) && startOk)
  }

  function ReceiveDocument(h: HopState, doc: Document, outcome: Outcome): HopState {
    if !Replaces(h.doc, doc) then h
    else
      var kept := h.(doc := Some(doc), file := if outcome.saved then Some(doc) else h.file);
      if NeedsRelay(h.doc, doc) then CallRelay(kept, doc, outcome.startOk) else kept
  }

  function BootFrom(h: HopState, startOk: bool): HopState {
    var booted := HopState(h.file, h.file, RelayState(None, [], "", h.relay.starts), true);
    if h.file.None? then booted else CallRelay(booted, h.file.value, startOk)
  }

  function Handle(h: HopState, e: Event): HopState {
    match e
    case Boot(startOk) => BootFrom(h, startOk)
    case Receive(doc, outcome) => ReceiveDocument(h, doc, outcome)
  }

  function HandleAll(h: HopState, events: seq<Event>): HopState {
    if events == [] then h
    else Handle(HandleAll(h, events[..|events| - 1]), events[|events| - 1])
  }

  const COLD := HopState(None, None, RelayState(None, [], "", 0), true)

  /** The relay runs exactly what the document asks for: its listeners as a set, all towards its next hop. */
  ghost predicate RelayMatches(h: HopState) {
    h.doc.Some? ==>
      && Relayable(h.doc.value.ports)
      && h.relay.running.Some?
      && Elements(h.relay.running.value) == Elements(InboundsFor(h.doc.value.ports, h.doc.value.nextHop.host))
      && Elements(h.relay.ports) == PortNumbers(h.doc.value.ports)
      && h.relay.host == h.doc.value.nextHop.host
  }

  lemma NumbersUnchanged(a: seq<Port>, b: seq<Port>)
    requires CountOutside(b, PortNumbers(a)) == 0 && |PortNumbers(a) - PortNumbers(b)| == 0
    ensures PortNumbers(a) == PortNumbers(b)
  {
    NoneOutside(b, PortNumbers(a));
    SubsetOfSameSize({}, PortNumbers(a) - PortNumbers(b));
    assert forall n :: n in PortNumbers(a) ==> n in PortNumbers(b) || n in PortNumbers(a) - PortNumbers(b);
  }

  /** With no relay call due, a port list that could be relayed stays one, and one that could not stays one. */
  lemma QuietStepKeepsRelayable(a: Document, b: Document)
    requires !NeedsRelay(Some(a), b)
    ensures Relayable(a.ports) <==> Relayable(b.ports)
    ensures Relayable(a.ports) ==> Elements(a.ports) == Elements(b.ports)
    ensures PortNumbers(a.ports) == PortNumbers(b.ports) && a.nextHop.host == b.nextHop.host
  {
    NumbersUnchanged(a.ports, b.ports);
    DistinctPortsCount(a.ports);
    DistinctPortsCount(b.ports);
    if DistinctPorts(a.ports) {
      SamePortsIsSetEquality(a.ports, b.ports);
      assert forall p :: p in a.ports <==> p in Elements(a.ports);
      assert forall p :: p in b.ports <==> p in Elements(b.ports);
    }
  }

  lemma InboundSetFollowsPortSet(a: seq<Port>, b: seq<Port>, host: string)
    requires Elements(a) == Elements(b)
    ensures Elements(InboundsFor(a, host)) == Elements(InboundsFor(b, host))
  {
    InboundSetSubset(a, b, host);
    InboundSetSubset(b, a, host);
  }

  lemma InboundSetSubset(a: seq<Port>, b: seq<Port>, host: string)
    requires Elements(a) <= Elements(b)
    ensures Elements(InboundsFor(a, host)) <= Elements(InboundsFor(b, host))
  {
    forall x | x in InboundsFor(a, host) ensures x in InboundsFor(b, host) {
      var i :| 0 <= i < |a| && InboundsFor(a, host)[i] == x;
      assert a[i] in Elements(a) && a[i] in b;
      var j :| 0 <= j < |b| && b[j] == a[i];
      assert InboundsFor(b, host)[j] == x;
    }
  }

  lemma CallMatchesIffOk(h: HopState, doc: Document, startOk: bool)
    requires h.doc == Some(doc)
    ensures RelayMatches(CallRelay(h, doc, startOk)) <==> CallRelay(h, doc, startOk).lastCallOk
  {
  }

  lemma StepMatchesIffOk(h: HopState, e: Event)
    requires h.doc.Some? ==> (RelayMatches(h) <==> h.lastCallOk)
    ensures var n := Handle(h, e); n.doc.Some? ==> (RelayMatches(n) <==> n.lastCallOk)
  {
    match e
    case Boot(startOk) =>
      if h.file.Some? {
        CallMatchesIffOk(HopState(h.file, h.file, RelayState(None, [], "", h.relay.starts), true), h.file.value, startOk);
      }
    case Receive(doc, outcome) =>
      if Replaces(h.doc, doc) {
        var kept := h.(doc := Some(doc), file := if outcome.saved then Some(doc) else h.file);
        if NeedsRelay(h.doc, doc) {
          CallMatchesIffOk(kept, doc, outcome.startOk);
        } else {
          QuietStepKeepsRelayable(h.doc.value, doc);
          if Relayable(doc.ports) {
            InboundSetFollowsPortSet(h.doc.value.ports, doc.ports, doc.nextHop.host);
          }
        }
      }
  }

  /**
   Over every run of restarts and documents, saves and starts failing at will: the relay runs what the current
   document asks for exactly when its last call succeeded.
   */
  lemma {:induction false} RelayMatchesIffLastCallOk(events: seq<Event>)
    ensures var h := HandleAll(COLD, events); h.doc.Some? ==> (RelayMatches(h) <==> h.lastCallOk)
  {
    if events != [] {
      RelayMatchesIffLastCallOk(events[..|events| - 1]);
      StepMatchesIffOk(HandleAll(COLD, events[..|events| - 1]), events[|events| - 1]);
    }
  }

  /** Every relay call of the run succeeded. */
  ghost predicate NoRelayFailure(events: seq<Event>) {
    forall k :: 0 <= k <= |events| ==> HandleAll(COLD, events[..k]).lastCallOk
  }

  /**
   Along a run in which no relay call failed, the relay always matches the current document, and a received document
   starts the relay anew exactly when it changes the set of ports or the next hop's host.
   */
  lemma RelayFollowsDocument(events: seq<Event>, k: nat)
    requires k <= |events| && NoRelayFailure(events)
    ensures RelayMatches(HandleAll(COLD, events[..k]))
    ensures k < |events| && events[k].Receive? && HandleAll(COLD, events[..k]).doc.Some? ==>
              var h, n := HandleAll(COLD, events[..k]), HandleAll(COLD, events[..k + 1]);
              n.relay.starts == h.relay.starts +
                (if Elements(n.doc.value.ports) != Elements(h.doc.value.ports)
                    || n.doc.value.nextHop.host != h.doc.value.nextHop.host then 1 else 0)
  {
    RelayMatchesIffLastCallOk(events[..k]);
    if k < |events| && events[k].Receive? {
      var h, doc := HandleAll(COLD, events[..k]), events[k].doc;
      assert events[..k + 1][..k] == events[..k];
      RelayMatchesIffLastCallOk(events[..k + 1]);
      if h.doc.Some? && Replaces(h.doc, doc) {
        assert HandleAll(COLD, events[..k + 1]).lastCallOk;
        if NeedsRelay(h.doc, doc) {
          StartMeansChange(h.doc.value, doc);
        } else {
          QuietStepKeepsRelayable(h.doc.value, doc);
        }
      }
    }
  }

  lemma StartMeansChange(a: Document, b: Document)
    requires NeedsRelay(Some(a), b) && Relayable(a.ports) && Relayable(b.ports)
    ensures Elements(a.ports) != Elements(b.ports) || a.nextHop.host != b.nextHop.host
  {
    NoneOutside(b.ports, PortNumbers(a.ports));
    SamePortsIsSetEquality(a.ports, b.ports);
    assert Elements(a.ports) == Elements(b.ports) ==> PortNumbers(a.ports) == PortNumbers(b.ports) by {
      assert forall p :: p in a.ports <==> p in Elements(a.ports);
      assert forall p :: p in b.ports <==> p in Elements(b.ports);
    }
  }

  /**
   A relay that failed to start is not tried again by later revisions that carry the same ports and host: it stays
   down until one of them changes or the box restarts.
   */
  lemma FailedStartIsNotRetried(h: HopState, doc: Document, outcome: Outcome)
    requires h.doc.Some? && !h.lastCallOk
    requires Relayable(h.doc.value.ports) && Relayable(doc.ports)
    requires Elements(doc.ports) == Elements(h.doc.value.ports) && doc.nextHop.host == h.doc.value.nextHop.host
    ensures ReceiveDocument(h, doc, outcome).relay == h.relay && !ReceiveDocument(h, doc, outcome).lastCallOk
  {
    if NeedsRelay(h.doc, doc) {
      StartMeansChange(h.doc.value, doc);
    }
  }
}
