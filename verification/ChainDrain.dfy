/**
 Where the relays of a chain lead. A box relays to the host its document names; a draining box hands its neighbours its
 own next hop, so the live path runs past it.
 */
module ChainDrain {
  import opened Prelude
  import opened Truncation
  import opened ChainWave

  /** Where the box or the panel is reached, as revision r has it. */
  function AddressAt(c: Chain, history: seq<Content>, r: int, t: Source): Option<string>
    requires ValidChain(c) && 1 <= r <= |history|
  {
    match t
    case Panel => Some(history[r - 1].panel.host)
    case Inner(p) =>
      if p < |c.source| && DocumentAt(c, history, p, r).Some?
      then Some(SelfHost(DocumentAt(c, history, p, r).value, c.cfg[p]))
      else None
  }

  predicate DrainingAt(c: Chain, history: seq<Content>, r: int, t: Source)
    requires ValidChain(c) && 1 <= r <= |history|
  {
    t.Inner? && t.box < |c.source| && DocumentAt(c, history, t.box, r).Some?
    && DocumentAt(c, history, t.box, r).value.self.Draining()
  }

  /** The first on the way inward from box b that is not on its way out. */
  function LiveNext(c: Chain, history: seq<Content>, r: int, b: nat): (t: Source)
    requires ValidChain(c) && 1 <= r <= |history| && b < |c.source|
    ensures Inward(c, t, b) && !DrainingAt(c, history, r, t)
    decreases b
  {
    if DrainingAt(c, history, r, c.source[b]) then LiveNext(c, history, r, c.source[b].box) else c.source[b]
  }

  /** `t` stands strictly inward of box b. */
  predicate Inward(c: Chain, t: Source, b: nat)
    requires ValidChain(c)
    decreases b
  {
    b < |c.source| && (t == c.source[b] || (c.source[b].Inner? && Inward(c, t, c.source[b].box)))
  }

  lemma {:induction false} InwardIsSmaller(c: Chain, t: Source, b: nat)
    requires ValidChain(c) && Inward(c, t, b)
    ensures t.Inner? ==> t.box < b
    decreases b
  {
    if t != c.source[b] {
      InwardIsSmaller(c, t, c.source[b].box);
    }
  }

  /** The host a document names is the address of the first live one inward, past any number of draining boxes. */
  lemma {:induction false} NextHopIsTheLiveOne(c: Chain, history: seq<Content>, r: int, b: nat)
    requires ValidChain(c) && 1 <= r <= |history| && b < |c.source| && DocumentAt(c, history, b, r).Some?
    ensures AddressAt(c, history, r, LiveNext(c, history, r, b)) == Some(DocumentAt(c, history, b, r).value.nextHop.host)
    decreases b
  {
    if c.source[b].Inner? && DrainingAt(c, history, r, c.source[b]) {
      NextHopIsTheLiveOne(c, history, r, c.source[b].box);
    }
  }

  // ---- following the relays ----

  /** `addr` tells the boxes and the panel apart, and holds at every revision some box of `w` has. */
  ghost predicate Addressed(c: Chain, w: World, addr: Source -> string)
    requires Sound(c, w)
  {
    && (forall s: Source, t: Source :: addr(s) == addr(t) ==> s == t)
    && forall b: nat, t: Source :: b < |w.boxes| && BoxSound(c, w, b) && w.boxes[b].doc.Some? ==>
         AddressAt(c, w.history, w.boxes[b].doc.value.revision, t) in {None, Some(addr(t))}
  }

  /** Box b's relay, when it follows b's document, connects to `t`. */
  ghost predicate RelaysTo(c: Chain, w: World, addr: Source -> string, b: nat, t: Source) {
    b < |w.boxes| && w.boxes[b].doc.Some? && w.boxes[b].doc.value.nextHop.host == addr(t)
  }

  ghost predicate Draining(w: World, t: Source) {
    t.Inner? && t.box < |w.boxes| && w.boxes[t.box].doc.Some? && w.boxes[t.box].doc.value.self.Draining()
  }

  ghost predicate IsRelayPath(c: Chain, w: World, addr: Source -> string, path: seq<Source>) {
    && |path| > 0
    && (|path| > 1 ==>
          && path[0].Inner? && RelaysTo(c, w, addr, path[0].box, path[1])
          && IsRelayPath(c, w, addr, path[1..]))
  }

  /**
   In every reachable world, mid-wave or not: a relay connects to exactly one place, it stands strictly inward, and at
   the relaying box's own revision it is not draining.
   */
  lemma RelayTarget(c: Chain, w: World, addr: Source -> string, b: nat, t: Source)
    requires Sound(c, w) && Addressed(c, w, addr) && b < |w.boxes| && w.boxes[b].doc.Some?
    ensures BoxSound(c, w, b)
    ensures RelaysTo(c, w, addr, b, t) <==> t == LiveNext(c, w.history, w.boxes[b].doc.value.revision, b)
    ensures RelaysTo(c, w, addr, b, t) ==>
      Inward(c, t, b) && !DrainingAt(c, w.history, w.boxes[b].doc.value.revision, t)
  {
    assert BoxSound(c, w, b);
    var doc := w.boxes[b].doc.value;
    NextHopIsTheLiveOne(c, w.history, doc.revision, b);
    var live := LiveNext(c, w.history, doc.revision, b);
    assert AddressAt(c, w.history, doc.revision, live) == Some(Unstamped(doc).nextHop.host);
    assert AddressAt(c, w.history, doc.revision, live) == Some(addr(live));
  }

  /** Every box holds a document of revision r. */
  ghost predicate Synced(w: World, r: int) {
    forall b :: 0 <= b < |w.boxes| ==> w.boxes[b].doc.Some? && w.boxes[b].doc.value.revision == r
  }

  /** When all boxes hold one revision, every relay path runs strictly inward and enters no draining box. */
  lemma {:induction false} RelayPathsGoInward(c: Chain, w: World, addr: Source -> string, r: int, path: seq<Source>, i: nat)
    requires Sound(c, w) && Addressed(c, w, addr) && Synced(w, r) && IsRelayPath(c, w, addr, path)
    requires i + 1 < |path|
    ensures path[i].Inner? && Inward(c, path[i + 1], path[i].box) && !Draining(w, path[i + 1])
    ensures path[i + 1].Inner? ==> path[i + 1].box < path[i].box
  {
    if i > 0 {
      RelayPathsGoInward(c, w, addr, r, path[1..], i - 1);
    } else {
      var b, t := path[0].box, path[1];
      RelayTarget(c, w, addr, b, t);
      InwardIsSmaller(c, t, b);
      if t.Inner? {
        assert BoxSound(c, w, b) && BoxSound(c, w, t.box);
        assert DocumentAt(c, w.history, t.box, r).value.self == w.boxes[t.box].doc.value.self;
      }
    }
  }

  /**
   In every reachable world in which every box has a document, mid-wave included, the relays lead from any box to the
   panel, in at most as many legs as there are boxes from it inward.
   */
  lemma {:induction false} RelaysReachThePanel(c: Chain, w: World, addr: Source -> string, b: nat) returns (path: seq<Source>)
    requires Sound(c, w) && Addressed(c, w, addr) && b < |w.boxes|
    requires forall a :: 0 <= a < |w.boxes| ==> w.boxes[a].doc.Some?
    ensures IsRelayPath(c, w, addr, path) && path[0] == Inner(b) && path[|path| - 1] == Panel && |path| <= b + 2
    decreases b
  {
    assert BoxSound(c, w, b);
    var t := LiveNext(c, w.history, w.boxes[b].doc.value.revision, b);
    RelayTarget(c, w, addr, b, t);
    InwardIsSmaller(c, t, b);
    if t.Panel? {
      path := [Inner(b), Panel];
    } else {
      var rest := RelaysReachThePanel(c, w, addr, t.box);
      path := [Inner(b)] + rest;
      assert path[1..] == rest;
    }
  }

  /** There is only one way: a relay path that has reached the panel is the one RelaysReachThePanel gives. */
  lemma {:induction false} RelayPathIsUnique(c: Chain, w: World, addr: Source -> string, p: seq<Source>, q: seq<Source>)
    requires Sound(c, w) && Addressed(c, w, addr)
    requires forall a :: 0 <= a < |w.boxes| ==> w.boxes[a].doc.Some?
    requires IsRelayPath(c, w, addr, p) && IsRelayPath(c, w, addr, q) && p[0] == q[0]
    requires q[|q| - 1] == Panel
    ensures p <= q
    decreases |p|
  {
    if |p| > 1 {
      assert RelaysTo(c, w, addr, p[0].box, p[1]);
      assert |q| > 1;
      assert RelaysTo(c, w, addr, q[0].box, q[1]);
      RelayTarget(c, w, addr, p[0].box, p[1]);
      RelayTarget(c, w, addr, p[0].box, q[1]);
      RelayPathIsUnique(c, w, addr, p[1..], q[1..]);
      assert p == [p[0]] + p[1..] && q == [q[0]] + q[1..];
    }
  }
}
