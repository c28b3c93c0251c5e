/**
 How a hop cuts its own document down to what one outer neighbour may know, and what that cut
 guarantees however many boxes it passes through.
 */
module Truncation {
  import opened Prelude
  import opened ChainDocument

  /** The first listed hop, other than this one, whose secret hash the presented secret has. */
  function FindSecret(hops: seq<Hop>, selfName: string, secret: string): (r: Option<Hop>)
    ensures r.Some? ==> r.value in hops && r.value.name != selfName && r.value.secretHash == Sha256(secret)
    ensures r.None? ==> forall h :: h in hops ==> h.name == selfName || h.secretHash != Sha256(secret)
  {
    if hops == [] then None
    else if hops[0].name != selfName && hops[0].secretHash == Sha256(secret) then Some(hops[0])
    else FindSecret(hops[1..], selfName, secret)
  }

  function OuterNeighbour(doc: Option<Document>, secret: string): Option<Hop> {
    if doc.None? || secret == "" then None
    else FindSecret(doc.value.hops, doc.value.self.name, secret)
  }

  /** The suffix of the list that starts at the first hop of that name; empty when there is none. */
  function OutwardFrom(hops: seq<Hop>, name: string): seq<Hop> {
    if hops == [] then []
    else if hops[0].name == name then hops
    else OutwardFrom(hops[1..], name)
  }

  function SelfHost(doc: Document, cfg: Config): string {
    if cfg.domain != "" then cfg.domain else doc.self.host
  }

  function HandedNextHop(doc: Document, cfg: Config): NextHop {
    if doc.self.Draining() then doc.nextHop
    else NextHop(SelfHost(doc, cfg), cfg.subPort, cfg.Scheme(),
                 doc.nextHop.subPath, doc.nextHop.jsonPath, doc.nextHop.tunPath)
  }

  function Truncate(doc: Document, hop: Hop, cfg: Config): Document {
    var self := Self(hop.name, hop.role, hop.host, hop.state, "", "");
    if hop.role == ROLE_EDGE then
      Document(DOCUMENT_VERSION, doc.revision, doc.generatedAt, self, HandedNextHop(doc, cfg),
               if doc.activeEdge == hop.name then hop.name else "", [hop], doc.ports)
    else
      Document(DOCUMENT_VERSION, doc.revision, doc.generatedAt, self, HandedNextHop(doc, cfg),
               doc.activeEdge, OutwardFrom(doc.hops, hop.name), doc.ports)
  }

  lemma {:induction false} OutwardFromAt(hops: seq<Hop>, k: nat)
    requires UniqueNames(hops) && k < |hops|
    ensures OutwardFrom(hops, hops[k].name) == hops[k..]
  {
    if k > 0 {
      assert hops[0].name != hops[k].name;
      assert hops[1..][k - 1] == hops[k];
      OutwardFromAt(hops[1..], k - 1);
    }
  }

  lemma SuffixOfSuffix(hops: seq<Hop>, k: nat, j: nat)
    requires UniqueNames(hops) && k + j < |hops|
    ensures hops[k..][j] == hops[k + j]
    ensures OutwardFrom(hops[k..], hops[k + j].name) == OutwardFrom(hops, hops[k + j].name) == hops[k + j..]
  {
    OutwardFromAt(hops[k..], j);
    OutwardFromAt(hops, k + j);
    assert hops[k..][j..] == hops[k + j..];
  }

  /** Everything a document says except the one address it hands inward. */
  function WithoutNextHop(doc: Document): Document {
    doc.(nextHop := NextHop("", 0, "", "", "", ""))
  }

  /** The shape of every document in circulation: unique names, and the reader's own entry in front. */
  ghost predicate WellFormed(doc: Document) {
    UniqueNames(doc.hops) && |doc.hops| > 0 && doc.hops[0].name == doc.self.name
  }

  // ---- one cut ----

  /** A truncated document belongs to the hop it was cut for, starts with it and names nobody inward of it. */
  lemma TruncationConfines(doc: Document, hop: Hop, cfg: Config, k: nat)
    requires UniqueNames(doc.hops) && k < |doc.hops| && doc.hops[k] == hop
    ensures var d := Truncate(doc, hop, cfg);
            && WellFormed(d) && d.self.name == hop.name && d.hops[0] == hop
            && (forall h :: h in d.hops ==> h in doc.hops[k..])
            && (forall j :: 0 <= j < k ==> forall h :: h in d.hops ==> h.name != doc.hops[j].name)
            && (hop.role == ROLE_EDGE ==> d.hops == [hop] && (d.activeEdge != "" ==> d.activeEdge == hop.name == doc.activeEdge))
  {
    OutwardFromAt(doc.hops, k);
    var d := Truncate(doc, hop, cfg);
    assert d.hops[0] == doc.hops[k..][0];
    forall j, h | 0 <= j < k && h in d.hops ensures h.name != doc.hops[j].name {
      assert h in doc.hops[k..];
      var i :| 0 <= i < |doc.hops[k..]| && doc.hops[k..][i] == h;
      assert doc.hops[k + i] == h;
    }
  }

  /**
   Confinement as non-interference: two boxes that agree from `hop` outward, on the ports, the revision and
   the address they hand out, give `hop` the same document, whatever stands inward of it. An edge depends on
   less still: of the active edge it only learns whether it is the active one, and of the list nothing.
   */
  lemma TruncationNonInterference(a: Document, b: Document, hop: Hop, ca: Config, cb: Config, i: nat, j: nat)
    requires a.revision == b.revision && a.generatedAt == b.generatedAt && a.ports == b.ports
    requires HandedNextHop(a, ca) == HandedNextHop(b, cb)
    requires UniqueNames(a.hops) && i < |a.hops| && a.hops[i] == hop
    requires UniqueNames(b.hops) && j < |b.hops| && b.hops[j] == hop
    requires if hop.role == ROLE_EDGE then (a.activeEdge == hop.name <==> b.activeEdge == hop.name)
             else a.activeEdge == b.activeEdge && a.hops[i..] == b.hops[j..]
    ensures Truncate(a, hop, ca) == Truncate(b, hop, cb)
  {
    OutwardFromAt(a.hops, i);
    OutwardFromAt(b.hops, j);
  }

  // ---- any number of cuts ----

  /** One leg of a document's way outward: the box with config `cfg` serves `hop`. */
  datatype Leg = Leg(cfg: Config, hop: Hop)

  /** Each box on the way lists the hop it serves, and that hop is not itself. */
  ghost predicate Served(doc: Document, legs: seq<Leg>)
    decreases |legs|
  {
    legs == [] ||
    (legs[0].hop in doc.hops && legs[0].hop.name != doc.self.name &&
     Served(Truncate(doc, legs[0].hop, legs[0].cfg), legs[1..]))
  }

  function TruncateVia(doc: Document, legs: seq<Leg>): Document
    decreases |legs|
  {
    if legs == [] then doc else TruncateVia(Truncate(doc, legs[0].hop, legs[0].cfg), legs[1..])
  }

  /** Two cuts in a row are the second one alone, the handed address apart. */
  lemma TruncateTwice(doc: Document, first: Hop, second: Hop, c1: Config, c2: Config)
    requires UniqueNames(doc.hops) && first in doc.hops
    requires second in Truncate(doc, first, c1).hops && second.name != first.name
    ensures second in doc.hops
    ensures WithoutNextHop(Truncate(Truncate(doc, first, c1), second, c2)) == WithoutNextHop(Truncate(doc, second, c1))
  {
    var i :| 0 <= i < |doc.hops| && doc.hops[i] == first;
    OutwardFromAt(doc.hops, i);
    var j :| 0 <= j < |doc.hops[i..]| && doc.hops[i..][j] == second;
    SuffixOfSuffix(doc.hops, i, j);
  }

  lemma WithoutNextHopCongruence(a: Document, b: Document, hop: Hop, cfg: Config)
    requires WithoutNextHop(a) == WithoutNextHop(b)
    ensures WithoutNextHop(Truncate(a, hop, cfg)) == WithoutNextHop(Truncate(b, hop, cfg))
  {
    assert a.hops == WithoutNextHop(a).hops && b.hops == WithoutNextHop(b).hops;
    assert a.activeEdge == WithoutNextHop(a).activeEdge && b.activeEdge == WithoutNextHop(b).activeEdge;
    assert a.ports == WithoutNextHop(a).ports && b.ports == WithoutNextHop(b).ports;
    assert a.revision == WithoutNextHop(a).revision && b.revision == WithoutNextHop(b).revision;
    assert a.generatedAt == WithoutNextHop(a).generatedAt && b.generatedAt == WithoutNextHop(b).generatedAt;
  }

  lemma {:induction false} ServedViaCongruence(a: Document, b: Document, legs: seq<Leg>)
    requires WithoutNextHop(a) == WithoutNextHop(b)
    ensures Served(a, legs) == Served(b, legs)
    ensures WithoutNextHop(TruncateVia(a, legs)) == WithoutNextHop(TruncateVia(b, legs))
    decreases |legs|
  {
    assert a.hops == WithoutNextHop(a).hops && b.hops == WithoutNextHop(b).hops;
    assert a.self == WithoutNextHop(a).self && b.self == WithoutNextHop(b).self;
    if legs != [] {
      WithoutNextHopCongruence(a, b, legs[0].hop, legs[0].cfg);
      ServedViaCongruence(Truncate(a, legs[0].hop, legs[0].cfg), Truncate(b, legs[0].hop, legs[0].cfg), legs[1..]);
    }
  }

  /** Whatever boxes a document passes through on its way to a hop, that hop reads what one cut would have given it. */
  lemma {:induction false} TruncationIsPathIndependent(doc: Document, legs: seq<Leg>)
    requires WellFormed(doc) && legs != [] && Served(doc, legs)
    ensures var last := legs[|legs| - 1];
            && last.hop in doc.hops
            && WithoutNextHop(TruncateVia(doc, legs)) == WithoutNextHop(Truncate(doc, last.hop, last.cfg))
    decreases |legs|
  {
    var first := legs[0];
    if |legs| > 1 {
      var second, rest := legs[1], legs[2..];
      assert legs[1..] == [second] + rest && ([second] + rest)[1..] == rest;
      var d1 := Truncate(doc, first.hop, first.cfg);
      var k :| 0 <= k < |doc.hops| && doc.hops[k] == first.hop;
      TruncationConfines(doc, first.hop, first.cfg, k);
      TruncateTwice(doc, first.hop, second.hop, first.cfg, second.cfg);
      var viaBoth, viaOne := Truncate(d1, second.hop, second.cfg), Truncate(doc, second.hop, second.cfg);
      assert WithoutNextHop(viaOne) == WithoutNextHop(Truncate(doc, second.hop, second.cfg));
      ServedViaCongruence(viaBoth, viaOne, rest);
      TruncationIsPathIndependent(doc, [second] + rest);
    }
  }

  /** The i-th box on the way, itself served by the one before it, is reached at this host. */
  predicate ReachedAt(legs: seq<Leg>, i: nat, host: string)
    requires 0 < i < |legs|
  {
    host == legs[i].cfg.domain || host == legs[i - 1].hop.host
  }

  /** The address of the box the way starts at, or of one on the way. */
  ghost predicate OnTheWay(doc: Document, legs: seq<Leg>, host: string) {
    legs != [] && (host == SelfHost(doc, legs[0].cfg) || exists i: nat :: 0 < i < |legs| && ReachedAt(legs, i, host))
  }

  /**
   The panel's paths, which every hop needs to build links, survive any way outward. The one address handed inward is
   that of a box on the way, or the one the way began with.
   */
  lemma {:induction false} PanelPathsSurvive(doc: Document, legs: seq<Leg>)
    ensures var out := TruncateVia(doc, legs).nextHop;
      && out.subPath == doc.nextHop.subPath && out.jsonPath == doc.nextHop.jsonPath && out.tunPath == doc.nextHop.tunPath
      && (out.host == doc.nextHop.host || OnTheWay(doc, legs, out.host))
    decreases |legs|
  {
    if legs != [] {
      var next := Truncate(doc, legs[0].hop, legs[0].cfg);
      PanelPathsSurvive(next, legs[1..]);
      var host := TruncateVia(next, legs[1..]).nextHop.host;
      if OnTheWay(next, legs[1..], host) {
        OneLegEarlier(doc, legs, host);
      }
    }
  }

  lemma OneLegEarlier(doc: Document, legs: seq<Leg>, host: string)
    requires |legs| > 1 && OnTheWay(Truncate(doc, legs[0].hop, legs[0].cfg), legs[1..], host)
    ensures OnTheWay(doc, legs, host)
  {
    var next, rest := Truncate(doc, legs[0].hop, legs[0].cfg), legs[1..];
    if host == SelfHost(next, rest[0].cfg) {
      assert ReachedAt(legs, 1, host);
    } else {
      var i: nat :| 0 < i < |rest| && ReachedAt(rest, i, host);
      assert ReachedAt(legs, i + 1, host);
    }
  }
}
