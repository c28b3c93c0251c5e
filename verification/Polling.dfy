/**
 The running box's own objects: what it knows about itself, its cached file, its poller and the handler that answers
 its outer neighbours. Each method is tied to the value-level steps the other modules reason about.
 Times are in milliseconds.
 */
module Polling {
  import opened Prelude
  import opened ChainDocument
  import opened Truncation
  import opened DocumentDiff
  import opened Relay
  import opened Acks
  import opened Text
  import ChainWave

  // ---- what the status endpoint shows about polling ----

  datatype Health = Health(lastPoll: int, lastOk: int, lastPollOK: bool, stale: bool)
  {
    predicate Reachable() { !stale && lastPollOK }
  }

  const UNPOLLED := Health(0, 0, false, false)

  function Marked(h: Health, now: int, ok: bool): Health {
    if ok then Health(now, now, true, false) else h.(lastPoll := now, lastPollOK := false)
  }

  function Polled(h: Health, now: int, ok: bool, staleAfter: int): Health {
    var m := Marked(h, now, ok);
    if !ok && m.lastOk != 0 && now - m.lastOk >= staleAfter then m.(stale := true) else m
  }

  datatype PastPoll = PastPoll(at: int, ok: bool)

  function HealthAfter(polls: seq<PastPoll>, staleAfter: int): Health {
    if polls == [] then UNPOLLED
    else Polled(HealthAfter(polls[..|polls| - 1], staleAfter), polls[|polls| - 1].at, polls[|polls| - 1].ok, staleAfter)
  }

  /** Poll i is the last that succeeded, and poll j failed `staleAfter` or more past it. */
  ghost predicate AgedAt(polls: seq<PastPoll>, i: int, j: int, staleAfter: int) {
    && 0 <= i < j < |polls| && polls[i].ok && polls[i].at != 0
    && (forall k :: i < k < |polls| ==> !polls[k].ok)
    && polls[j].at - polls[i].at >= staleAfter
  }

  /**
   For every history and any clock: the hop reads as reachable exactly when its latest poll succeeded, and as stale
   exactly when a later poll failed long enough after the last success.
   */
  lemma {:induction false} HealthIsHonest(polls: seq<PastPoll>, staleAfter: int)
    ensures var h := HealthAfter(polls, staleAfter);
      && (h.Reachable() <==> polls != [] && polls[|polls| - 1].ok)
      && (h.stale <==> exists i, j :: AgedAt(polls, i, j, staleAfter))
      && (h.lastOk != 0 ==> exists i :: 0 <= i < |polls| && polls[i] == PastPoll(h.lastOk, true)
                                     && forall k :: i < k < |polls| ==> !polls[k].ok)
      && (h.lastOk == 0 ==> forall i :: 0 <= i < |polls| && polls[i].ok ==>
                              polls[i].at == 0 || exists k :: i < k < |polls| && polls[k].ok)
      && (h.stale ==> !h.lastPollOK)
  {
    if polls != [] {
      var n := |polls| - 1;
      var init, last := polls[..n], polls[n];
      HealthIsHonest(init, staleAfter);
      var h, m := HealthAfter(init, staleAfter), HealthAfter(polls, staleAfter);
      assert forall k :: 0 <= k < n ==> init[k] == polls[k];
      if last.ok {
        assert polls[n] == PastPoll(last.at, true);
      } else {
        FailureAges(init, polls, h, m, staleAfter);
      }
    }
  }

  lemma FailureAges(init: seq<PastPoll>, polls: seq<PastPoll>, h: Health, m: Health, staleAfter: int)
    requires |polls| > 0 && init == polls[..|polls| - 1] && !polls[|polls| - 1].ok
    requires m == Polled(h, polls[|polls| - 1].at, false, staleAfter)
    requires h.stale <==> exists i, j :: AgedAt(init, i, j, staleAfter)
    requires h.lastOk != 0 ==> exists i :: 0 <= i < |polls| - 1 && polls[i] == PastPoll(h.lastOk, true)
                                     && forall k :: i < k < |polls| - 1 ==> !polls[k].ok
    requires h.lastOk == 0 ==> forall i :: 0 <= i < |polls| - 1 && polls[i].ok ==>
                              polls[i].at == 0 || exists k :: i < k < |polls| - 1 && polls[k].ok
    ensures m.stale <==> exists i, j :: AgedAt(polls, i, j, staleAfter)
  {
    var n := |polls| - 1;
    if m.stale {
      if h.stale {
        var i, j :| AgedAt(init, i, j, staleAfter);
        assert AgedAt(polls, i, j, staleAfter);
      } else {
        var i :| 0 <= i < n && polls[i] == PastPoll(h.lastOk, true) && forall k :: i < k < n ==> !polls[k].ok;
        assert AgedAt(polls, i, n, staleAfter);
      }
    }
    if i, j :| AgedAt(polls, i, j, staleAfter) {
      if j < n {
        assert AgedAt(init, i, j, staleAfter);
      } else {
        assert h.lastOk != 0;
        var i' :| 0 <= i' < n && polls[i'] == PastPoll(h.lastOk, true) && forall k :: i' < k < n ==> !polls[k].ok;
        assert i == i';
      }
    }
  }

  // ---- the state object ----

  ghost predicate Keyed(m: AckMap) {
    forall n :: n in m ==> m[n].name == n
  }

  lemma {:induction false} RecordKeepsKeyed(m: AckMap, acks: seq<Ack>)
    requires Keyed(m)
    ensures Keyed(RecordAll(m, acks))
  {
    if acks != [] {
      RecordKeepsKeyed(m, acks[..|acks| - 1]);
    }
  }

  class State {
    var doc: Option<Document>
    var lastPoll: int
    var lastOk: int
    var lastPollOK: bool
    var stale: bool
    var outer: AckMap

    ghost predicate Valid()
      reads this
    {
      Keyed(outer)
    }

    function HealthShown(): Health
      reads this
    {
      Health(lastPoll, lastOk, lastPollOK, stale)
    }

    constructor ()
      ensures Valid() && doc == None && HealthShown() == UNPOLLED && outer == map[]
    {
      doc, lastPoll, lastOk, lastPollOK, stale, outer := None, 0, 0, false, false, map[];
    }

    method SetDocument(d: Document)
      modifies `doc
      ensures doc == Some(d)
    {
      doc := Some(d);
    }

    function Revision(): int
      reads this
    {
      ChainWave.Revision(doc)
    }

    method MarkPoll(now: int, ok: bool)
      modifies `lastPoll, `lastPollOK, `lastOk, `stale
      ensures HealthShown() == Marked(old(HealthShown()), now, ok)
    {
      lastPoll := now;
      lastPollOK := ok;
      if ok {
        lastOk := now;
        stale := false;
      }
    }

    method SetStale(s: bool)
      modifies `stale
      ensures stale == s
    {
      stale := s;
    }

    method RecordOuter(acks: seq<Ack>)
      requires Valid()
      modifies `outer
      ensures Valid() && outer == RecordAll(old(outer), acks)
    {
      for i := 0 to |acks|
        invariant outer == RecordAll(old(outer), acks[..i])
      {
        assert acks[..i + 1][..i] == acks[..i];
        if acks[i].name == "" {
          continue;
        }
        if acks[i].name in outer && outer[acks[i].name].lastSeen >= acks[i].lastSeen {
          continue;
        }
        outer := outer[acks[i].name := acks[i]];
      }
      assert acks[..|acks|] == acks;
      RecordKeepsKeyed(old(outer), acks);
    }

    /** Everything held, ordered by name; by `ListIsUnique` there is only one such list. */
    method OuterAcks() returns (acks: seq<Ack>)
      requires Valid()
      ensures Lists(outer, acks)
    {
      acks := [];
      var rest := outer.Keys;
      while rest != {}
        invariant rest <= outer.Keys
        invariant Ascending(acks)
        invariant Elements(acks) == set n | n in outer.Keys - rest :: outer[n]
      {
        ghost var some := SomeMember(rest);
        var n :| n in rest;
        assert forall a :: a in acks ==> a in Elements(acks);
        InsertKeepsOrder(outer[n], acks);
        acks := Insert(outer[n], acks);
        rest := rest - {n};
      }
      assert outer.Values == set n | n in outer.Keys :: outer[n];
    }
  }

  /** The cached document file. */
  class DocumentStore {
    var file: Option<Document>

    constructor ()
      ensures file == None
    {
      file := None;
    }

    /** The file is replaced in one rename: a save that fails leaves the earlier document. */
    method Save(doc: Document, canWrite: bool) returns (ok: bool)
      modifies this
      ensures ok == canWrite && file == if canWrite then Some(doc) else old(file)
    {
      ok := canWrite;
      if canWrite {
        file := Some(doc);
      }
    }
  }

  // ---- the poller ----

  /** What the client gets for a poll. A 200 carries a document unless its body cannot be read or parsed. */
  datatype Response =
    | NoResponse
    | Ok200(body: Option<Document>)
    | NotModified304
    | NotFound404
    | Other(code: int)

  /** A document newer than this build understands is refused. */
  function ParseDocument(body: Option<Document>): Option<Document> {
    if body.Some? && body.value.version <= DOCUMENT_VERSION then body else None
  }

  predicate Succeeds(r: Response) {
    r.NotModified304? || (r.Ok200? && ParseDocument(r.body).Some?)
  }

  datatype PollError = Unreachable | BadBody | Unauthorized | Answered(code: int) | RelayFailed(error: RelayError)

  const JOIN_RETRY_WINDOW := 3 * 60 * 1000
  const STALE_LOG_INTERVAL := 60 * 60 * 1000

  /** Applying a document calls the relay, and the call fails. */
  predicate RelayFails(held: Option<Document>, doc: Document, outcome: Outcome) {
    Replaces(held, doc) && NeedsRelay(held, doc) && !(Relayable(doc.ports) && outcome.startOk)
  }

  class Poller {
    const staleAfter: int
    const state: State
    const store: DocumentStore
    const relay: RelayProcess
    var joinedAt: Option<int>
    var failures: nat
    var lastStaleLog: Option<int>
    ghost var relayOk: bool

    constructor (staleAfter: int, state: State, store: DocumentStore, relay: RelayProcess)
      ensures this.staleAfter == staleAfter && this.state == state && this.store == store && this.relay == relay
      ensures failures == 0 && joinedAt == None && lastStaleLog == None && relayOk
    {
      this.staleAfter, this.state, this.store, this.relay := staleAfter, state, store, relay;
      joinedAt, failures, lastStaleLog, relayOk := None, 0, None, true;
    }

    ghost function View(): HopState
      reads this, state, store, relay
    {
      HopState(state.doc, store.file, relay.State(), relayOk)
    }

    method Apply(doc: Document, outcome: Outcome) returns (err: Option<RelayError>)
      modifies `relayOk, state`doc, store, relay
      ensures View() == ReceiveDocument(old(View()), doc, outcome)
      ensures err.Some? <==> RelayFails(old(state.doc), doc, outcome)
    {
      var previous := state.doc;
      if previous.Some? && previous.value.revision == doc.revision {
        var differs := DocumentDiffers(previous.value, doc);
        if !differs {
          return None;
        }
      }
      var saved := store.Save(doc, outcome.saved);
      state.SetDocument(doc);
      var added, removed := PortDiff(previous, doc);
      var needRelay := previous.None? || added != 0 || removed != 0
                       || previous.value.nextHop.host != doc.nextHop.host;
      if !needRelay {
        var same := SamePorts(previous.value.ports, doc.ports);
        needRelay := !same;
      }
      assert needRelay == NeedsRelay(previous, doc);
      if !needRelay {
        return None;
      }
      err := relay.Apply(doc.ports, doc.nextHop.host, outcome.startOk);
      relayOk := err.None?;
    }

    method Okay(now: int)
      modifies `failures, state`lastPoll, state`lastPollOK, state`lastOk, state`stale
      ensures failures == 0
      ensures state.HealthShown() == Polled(old(state.HealthShown()), now, true, staleAfter)
    {
      failures := 0;
      state.MarkPoll(now, true);
    }

    /** A failed poll is logged as stale when the last success is old and the last such line an hour ago. */
    predicate LogsStale(lastOk: int, logged: Option<int>, now: int) {
      lastOk != 0 && now - lastOk >= staleAfter && (logged.None? || now - logged.value >= STALE_LOG_INTERVAL)
    }

    method Fail(now: int)
      modifies `failures, `lastStaleLog, state`lastPoll, state`lastPollOK, state`lastOk, state`stale
      ensures failures == old(failures) + 1
      ensures state.HealthShown() == Polled(old(state.HealthShown()), now, false, staleAfter)
      ensures lastStaleLog == if LogsStale(old(state.lastOk), old(lastStaleLog), now) then Some(now) else old(lastStaleLog)
    {
      failures := failures + 1;
      state.MarkPoll(now, false);
      var lastOk := state.lastOk;
      if lastOk == 0 {
        return;
      }
      if now - lastOk < staleAfter {
        return;
      }
      state.SetStale(true);
      if lastStaleLog.Some? && now - lastStaleLog.value < STALE_LOG_INTERVAL {
        return;
      }
      lastStaleLog := Some(now);
    }

    /** `response` is what the next hop, or the network, made of the request. */
    method PollOnce(now: int, response: Response, outcome: Outcome) returns (err: Option<PollError>)
      modifies this, state, store, relay
      ensures state.HealthShown() == Polled(old(state.HealthShown()), now, Succeeds(response), staleAfter)
      ensures failures == if Succeeds(response) then 0 else old(failures) + 1
      ensures state.outer == old(state.outer) && joinedAt == old(joinedAt)
      ensures View() == match response
                        case Ok200(body) =>
                          (match ParseDocument(body)
                           case None => old(View())
                           case Some(doc) => ReceiveDocument(old(View()), doc, outcome))
                        case _ => old(View())
      ensures Succeeds(response) ==>
                (err.Some? <==> response.Ok200? && RelayFails(old(state.doc), ParseDocument(response.body).value, outcome))
      ensures !Succeeds(response) ==>
                (err.None? <==> response.NotFound404? && joinedAt.Some? && now - joinedAt.value < JOIN_RETRY_WINDOW)
    {
      match response {
        case NoResponse =>
          Fail(now);
          return Some(Unreachable);
        case Ok200(body) =>
          var doc := ParseDocument(body);
          if doc.None? {
            Fail(now);
            return Some(BadBody);
          }
          Okay(now);
          var failed := Apply(doc.value, outcome);
          return match failed case None => None case Some(e) => Some(RelayFailed(e));
        case NotModified304 =>
          Okay(now);
          return None;
        case NotFound404 =>
          Fail(now);
          if joinedAt.Some? && now - joinedAt.value < JOIN_RETRY_WINDOW {
            return None;
          }
          return Some(Unauthorized);
        case Other(code) =>
          Fail(now);
          return Some(Answered(code));
      }
    }
  }

  method DocumentDiffers(a: Document, b: Document) returns (differs: bool)
    ensures differs == Differs(a, b)
  {
    var same := SamePorts(a.ports, b.ports);
    if !same || a.nextHop != b.nextHop || a.self != b.self || a.activeEdge != b.activeEdge {
      return true;
    }
    differs := SecretsDiffer(Some(a), b);
  }

  // ---- the conditional fetch ----

  function Etag(revision: int): string {
    "\"" + FormatInt(revision) + "\""
  }

  /** The If-None-Match header of a poll: absent (empty) until a revision is held. */
  function IfNoneMatch(known: int): string {
    if known > 0 then Etag(known) else ""
  }

  lemma EtagIsInjective(a: int, b: int)
    requires Etag(a) == Etag(b)
    ensures a == b
  {
    assert FormatInt(a) == Etag(a)[1..|Etag(a)| - 1] && FormatInt(b) == Etag(b)[1..|Etag(b)| - 1];
    ParseFormatInt(a);
    ParseFormatInt(b);
  }

  function Serve(doc: Option<Document>, secret: string, ifNoneMatch: string, cfg: Config): ChainWave.Answer {
    match OuterNeighbour(doc, secret)
    case None => ChainWave.NotFound
    case Some(hop) =>
      if ifNoneMatch == Etag(doc.value.revision) then ChainWave.NotModified
      else ChainWave.Fetched(Truncate(doc.value, hop, cfg))
  }

  method FindOuterNeighbour(doc: Option<Document>, secret: string) returns (hop: Option<Hop>)
    ensures hop == OuterNeighbour(doc, secret)
  {
    if doc.None? || secret == "" {
      return None;
    }
    var hops := doc.value.hops;
    for i := 0 to |hops|
      invariant FindSecret(hops, doc.value.self.name, secret) == FindSecret(hops[i..], doc.value.self.name, secret)
    {
      assert hops[i..][1..] == hops[i + 1..];
      if hops[i].name == doc.value.self.name || hops[i].secretHash == NoHash {
        continue;
      }
      if hops[i].secretHash == Sha256(secret) {
        return Some(hops[i]);
      }
    }
    return None;
  }

  method TruncateDocument(doc: Document, hop: Hop, cfg: Config) returns (out: Document)
    ensures out == Truncate(doc, hop, cfg)
  {
    out := Document(DOCUMENT_VERSION, doc.revision, doc.generatedAt, Self(hop.name, hop.role, hop.host, hop.state, "", ""),
                    NextHop(SelfHost(doc, cfg), cfg.subPort, cfg.Scheme(),
                            doc.nextHop.subPath, doc.nextHop.jsonPath, doc.nextHop.tunPath),
                    "", [], doc.ports);
    if doc.self.Draining() {
      out := out.(nextHop := doc.nextHop);
    }
    if hop.role == ROLE_EDGE {
      out := out.(hops := [hop]);
      if doc.activeEdge == hop.name {
        out := out.(activeEdge := hop.name);
      }
      return;
    }
    out := out.(activeEdge := doc.activeEdge);
    for i := 0 to |doc.hops|
      invariant OutwardFrom(doc.hops, hop.name) == OutwardFrom(doc.hops[i..], hop.name)
      invariant out.hops == []
      invariant out == Truncate(doc, hop, cfg).(hops := [])
    {
      assert doc.hops[i..][1..] == doc.hops[i + 1..];
      if doc.hops[i].name == hop.name {
        out := out.(hops := doc.hops[i..]);
        return;
      }
    }
  }

  class ChainHandler {
    const cfg: Config
    const state: State
    const codec: Codec

    constructor (cfg: Config, state: State, codec: Codec)
      ensures this.cfg == cfg && this.state == state && this.codec == codec
    {
      this.cfg, this.state, this.codec := cfg, state, codec;
    }

    /** GET /chain/v1/document: `seen` is X-Chain-Seen as read, 0 when it does not parse; `outerHeader` is X-Chain-Outer. */
    method HandleDocument(secret: string, ifNoneMatch: string, seen: int, outerHeader: string, now: int)
      returns (answer: ChainWave.Answer)
      requires state.Valid()
      modifies state`outer
      ensures state.Valid()
      ensures answer == Serve(state.doc, secret, ifNoneMatch, cfg)
      ensures match OuterNeighbour(state.doc, secret)
              case None => state.outer == old(state.outer)
              case Some(hop) =>
                state.outer == RecordAll(old(state.outer), [Ack(hop.name, seen, now)] + DecodeOuterAcks(codec, outerHeader))
    {
      var doc := state.doc;
      var hop := FindOuterNeighbour(doc, secret);
      if hop.None? {
        return ChainWave.NotFound;
      }
      RecordAllConcat(state.outer, [Ack(hop.value.name, seen, now)], DecodeOuterAcks(codec, outerHeader));
      state.RecordOuter([Ack(hop.value.name, seen, now)]);
      state.RecordOuter(DecodeOuterAcks(codec, outerHeader));
      if ifNoneMatch == Etag(doc.value.revision) {
        return ChainWave.NotModified;
      }
      var cut := TruncateDocument(doc.value, hop.value, cfg);
      return ChainWave.Fetched(cut);
    }
  }

  /** The handler's answer to the header a poller sends is the answer the wave's transition system takes. */
  lemma ServeIsTheWavesAnswer(c: ChainWave.Chain, w: ChainWave.World, b: nat, generatedAt: int)
    requires ChainWave.ValidChain(c) && |w.boxes| == |c.source| && b < |w.boxes| && c.source[b].Inner?
    ensures ChainWave.AnswerTo(c, w, b, generatedAt)
            == Serve(w.boxes[c.source[b].box].doc, c.secret[b], IfNoneMatch(ChainWave.Revision(w.boxes[b].doc)),
                     c.cfg[c.source[b].box])
  {
    var known := ChainWave.Revision(w.boxes[b].doc);
    var doc := w.boxes[c.source[b].box].doc;
    if doc.Some? && known > 0 && Etag(known) == Etag(doc.value.revision) {
      EtagIsInjective(known, doc.value.revision);
    }
  }

  /** And a box of the transition system receives a document exactly as the poller's `Apply` does. */
  lemma ReceiptIsTheWaves(h: HopState, doc: Document, outcome: Outcome)
    ensures var n := ReceiveDocument(h, doc, outcome);
      ChainWave.Received(ChainWave.Box(h.doc, h.file, Some(ChainWave.Fetched(doc))), outcome.saved)
      == ChainWave.Box(n.doc, n.file, None)
  {
  }
}
