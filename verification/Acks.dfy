/**
 Acknowledgements: what a hop remembers of its outer neighbours, the header it passes them inward in, and what all of
 that guarantees over a run.
 */
module Acks {
  import opened Prelude
  import opened Text
  import Base64

  datatype Ack = Ack(name: string, lastRevision: int, lastSeen: int)

  type AckMap = map<string, Ack>

  function Record(m: AckMap, a: Ack): AckMap {
    if a.name == "" || (a.name in m && m[a.name].lastSeen >= a.lastSeen) then m else m[a.name := a]
  }

  function RecordAll(m: AckMap, acks: seq<Ack>): AckMap {
    if acks == [] then m else Record(RecordAll(m, acks[..|acks| - 1]), acks[|acks| - 1])
  }

  /** Whatever was delivered, in whatever order and however often: each name's ack is one of those delivered for it, the freshest. */
  lemma {:induction false} RecordKeepsTheFreshest(acks: seq<Ack>)
    ensures var m := RecordAll(map[], acks);
      && (forall a :: a in acks && a.name != "" ==> a.name in m && a.lastSeen <= m[a.name].lastSeen)
      && (forall n :: n in m ==> n != "" && m[n] in acks && m[n].name == n)
  {
    if acks != [] {
      RecordKeepsTheFreshest(acks[..|acks| - 1]);
      assert acks == acks[..|acks| - 1] + [acks[|acks| - 1]];
    }
  }

  /** Of equally fresh acks the one delivered first is held. */
  lemma {:induction false} TiesKeepTheFirst(acks: seq<Ack>, i: nat)
    requires i < |acks| && acks[i].name != ""
    requires forall j :: 0 <= j < i && acks[j].name == acks[i].name ==> acks[j].lastSeen < acks[i].lastSeen
    requires forall j :: i < j < |acks| && acks[j].name == acks[i].name ==> acks[j].lastSeen <= acks[i].lastSeen
    ensures var m := RecordAll(map[], acks); acks[i].name in m && m[acks[i].name] == acks[i]
  {
    var n := |acks| - 1;
    var init := acks[..n];
    assert acks == init + [acks[n]];
    if i < n {
      TiesKeepTheFirst(init, i);
    } else {
      RecordKeepsTheFreshest(init);
      var m := RecordAll(map[], init);
      if acks[i].name in m {
        var j :| 0 <= j < n && init[j] == m[acks[i].name];
        assert acks[j] == init[j];
      }
    }
  }

  /** So neither order nor repetition shows in who is known or when they were last seen. */
  lemma RecordIgnoresOrder(a: seq<Ack>, b: seq<Ack>)
    requires Elements(a) == Elements(b)
    ensures RecordAll(map[], a).Keys == RecordAll(map[], b).Keys
    ensures forall n :: n in RecordAll(map[], a) ==> RecordAll(map[], a)[n].lastSeen == RecordAll(map[], b)[n].lastSeen
  {
    RecordKeepsTheFreshest(a);
    RecordKeepsTheFreshest(b);
    assert forall x :: x in a <==> x in Elements(a);
    assert forall x :: x in b <==> x in Elements(b);
  }

  lemma {:induction false} RecordAllConcat(m: AckMap, a: seq<Ack>, b: seq<Ack>)
    ensures RecordAll(m, a + b) == RecordAll(RecordAll(m, a), b)
  {
    if b == [] {
      assert a + b == a;
    } else {
      assert (a + b)[..|a + b| - 1] == a + b[..|b| - 1];
      RecordAllConcat(m, a, b[..|b| - 1]);
    }
  }

  // ---- the list that travels ----

  predicate Before(a: Ack, b: Ack) {
    StringLe(a.name, b.name) && a.name != b.name
  }

  ghost predicate Ascending(acks: seq<Ack>) {
    forall i, j :: 0 <= i < j < |acks| ==> Before(acks[i], acks[j])
  }

  /** The held acks, ordered by name. */
  ghost predicate Lists(m: AckMap, acks: seq<Ack>) {
    Ascending(acks) && Elements(acks) == m.Values
  }

  function Insert(a: Ack, sorted: seq<Ack>): seq<Ack> {
    if sorted == [] || StringLe(a.name, sorted[0].name) then [a] + sorted else [sorted[0]] + Insert(a, sorted[1..])
  }

  lemma {:induction false} InsertAddsOne(a: Ack, sorted: seq<Ack>)
    ensures Elements(Insert(a, sorted)) == Elements(sorted) + {a}
  {
    if sorted != [] && !StringLe(a.name, sorted[0].name) {
      InsertAddsOne(a, sorted[1..]);
      assert sorted == [sorted[0]] + sorted[1..];
      assert Insert(a, sorted) == [sorted[0]] + Insert(a, sorted[1..]);
      assert forall x :: x in Insert(a, sorted[1..]) <==> x in Elements(sorted[1..]) + {a};
    }
  }

  lemma {:induction false} InsertKeepsOrder(a: Ack, sorted: seq<Ack>)
    requires Ascending(sorted) && forall s :: s in sorted ==> s.name != a.name
    ensures Ascending(Insert(a, sorted)) && Elements(Insert(a, sorted)) == Elements(sorted) + {a}
  {
    InsertAddsOne(a, sorted);
    if sorted != [] && !StringLe(a.name, sorted[0].name) {
      var rest := sorted[1..];
      InsertKeepsOrder(a, rest);
      StringLeTotal(a.name, sorted[0].name);
      forall t | t in Insert(a, rest) ensures Before(sorted[0], t) {
        assert t in Elements(rest) + {a};
        if t != a {
          var i :| 0 <= i < |rest| && rest[i] == t;
          assert Before(sorted[0], sorted[i + 1]);
        }
      }
    } else {
      forall s | s in sorted ensures Before(a, s) {
        var j :| 0 <= j < |sorted| && sorted[j] == s;
        if j > 0 {
          assert Before(sorted[0], sorted[j]);
          StringLeTransitive(a.name, sorted[0].name, s.name);
        }
      }
    }
  }

  /** There is one such list, so the header does not change between polls that know the same. */
  lemma {:induction false} ListIsUnique(a: seq<Ack>, b: seq<Ack>)
    requires Ascending(a) && Ascending(b) && Elements(a) == Elements(b)
    ensures a == b
  {
    assert a != [] ==> a[0] in Elements(a);
    assert b != [] ==> b[0] in Elements(b);
    if a != [] && b != [] {
      assert a[0] in Elements(b) && b[0] in Elements(a);
      var i :| 0 <= i < |b| && b[i] == a[0];
      var j :| 0 <= j < |a| && a[j] == b[0];
      if i > 0 && j > 0 {
        StringLeAntisymmetric(a[0].name, b[0].name);
        assert false;
      }
      assert a == [a[0]] + a[1..] && b == [b[0]] + b[1..];
      assert Elements(a[1..]) == Elements(a) - {a[0]};
      assert Elements(b[1..]) == Elements(b) - {b[0]};
      ListIsUnique(a[1..], b[1..]);
    }
  }

  // ---- the header ----

  const MAX_OUTER_HEADER := 8192

  /** The JSON form of an ack list, taken as an injective codec. */
  datatype Codec = Codec(marshal: seq<Ack> -> seq<Base64.byte>, unmarshal: seq<Base64.byte> -> Option<seq<Ack>>)
  {
    ghost predicate Faithful() {
      forall acks: seq<Ack> :: marshal(acks) != [] && unmarshal(marshal(acks)) == Some(acks)
    }

    predicate Fits(acks: seq<Ack>) {
      |Base64.Encode(marshal(acks))| <= MAX_OUTER_HEADER
    }
  }

  function Encoded(codec: Codec, acks: seq<Ack>): string {
    if acks == [] then ""
    else if codec.Fits(acks) then Base64.Encode(codec.marshal(acks))
    else Encoded(codec, acks[1..])
  }

  method EncodeOuterAcks(codec: Codec, acks: seq<Ack>) returns (header: string)
    ensures header == Encoded(codec, acks)
  {
    var rest := acks;
    while |rest| > 0
      invariant Encoded(codec, rest) == Encoded(codec, acks)
      decreases |rest|
    {
      var encoded := Base64.Encode(codec.marshal(rest));
      if |encoded| <= MAX_OUTER_HEADER {
        return encoded;
      }
      rest := rest[1..];
    }
    return "";
  }

  function DecodeOuterAcks(codec: Codec, header: string): seq<Ack> {
    if header == "" then []
    else
      match Base64.Decode(header)
      case None => []
      case Some(data) =>
        if |data| > MAX_OUTER_HEADER then []
        else match codec.unmarshal(data) case None => [] case Some(acks) => acks
  }

  /** What arrives is the longest suffix of the list whose header fits. */
  lemma {:induction false} HeaderCarriesLongestSuffix(codec: Codec, acks: seq<Ack>) returns (k: nat)
    requires codec.Faithful()
    ensures k <= |acks| && DecodeOuterAcks(codec, Encoded(codec, acks)) == acks[k..]
    ensures k < |acks| ==> codec.Fits(acks[k..])
    ensures forall j :: 0 <= j < k ==> !codec.Fits(acks[j..])
  {
    if acks == [] {
      k := 0;
    } else if codec.Fits(acks) {
      k := 0;
      assert acks[0..] == acks;
      var data := codec.marshal(acks);
      Base64.EncodeLength(data);
      Base64.DecodeEncode(data);
    } else {
      var i := HeaderCarriesLongestSuffix(codec, acks[1..]);
      k := i + 1;
      assert acks[k..] == acks[1..][i..];
      forall j | 0 <= j < k ensures !codec.Fits(acks[j..]) {
        if j == 0 {
          assert acks[0..] == acks;
        } else {
          assert acks[j..] == acks[1..][j - 1..];
        }
      }
    }
  }

  // ---- over a run ----

  /** Who polls whom, and the name each box's secret stands for. */
  datatype Net = Net(parent: seq<Option<nat>>, name: seq<string>)

  ghost predicate ValidNet(net: Net) {
    |net.name| == |net.parent| && forall b :: 0 <= b < |net.parent| && net.parent[b].Some? ==> net.parent[b].value < |net.parent|
  }

  /** `delivered[b]` is everything box b was told since it last started, `polls` every poll there was, by poller. */
  datatype World = World(outer: seq<AckMap>, delivered: seq<seq<Ack>>, polls: seq<(nat, Ack)>)

  datatype Step =
    | Poll(box: nat, seen: int, now: int, garbled: bool)   // `garbled`: its X-Chain-Outer header does not decode
    | Restart(box: nat)

  ghost predicate Enabled(w: World, s: Step) {
    s.box < |w.outer|
  }

  /** What the polled hop records: the poller's own revision, then what its header carries. */
  function Told(codec: Codec, name: string, held: seq<Ack>, s: Step): seq<Ack>
    requires s.Poll?
  {
    [Ack(name, s.seen, s.now)] + if s.garbled then [] else DecodeOuterAcks(codec, Encoded(codec, held))
  }

  ghost predicate Next(net: Net, codec: Codec, w: World, s: Step, w': World)
    requires ValidNet(net) && |w.outer| == |w.delivered| == |net.parent| && Enabled(w, s)
  {
    match s
    case Restart(b) => w' == World(w.outer[b := map[]], w.delivered[b := []], w.polls)
    case Poll(b, seen, now, _) =>
      match net.parent[b]
      case None => w' == w.(polls := w.polls + [(b, Ack(net.name[b], seen, now))])
      case Some(p) =>
        exists held :: Lists(w.outer[b], held) &&
          w' == World(w.outer[p := RecordAll(w.outer[p], Told(codec, net.name[b], held, s))],
                      w.delivered[p := w.delivered[p] + Told(codec, net.name[b], held, s)],
                      w.polls + [(b, Ack(net.name[b], seen, now))])
  }

  /** A poll of a hop of that name said this. */
  ghost predicate Emitted(net: Net, w: World, a: Ack) {
    exists i :: 0 <= i < |w.polls| && w.polls[i].1 == a && w.polls[i].0 < |net.name| && net.name[w.polls[i].0] == a.name
  }

  ghost predicate Inv(net: Net, w: World) {
    && ValidNet(net) && |w.outer| == |w.delivered| == |net.parent|
    && forall b :: 0 <= b < |w.outer| ==>
         && w.outer[b] == RecordAll(map[], w.delivered[b])
         && forall a :: a in w.delivered[b] ==> Emitted(net, w, a)
  }

  lemma EmittedIsForever(net: Net, w: World, w': World, a: Ack)
    requires w.polls <= w'.polls && Emitted(net, w, a)
    ensures Emitted(net, w', a)
  {
    var i :| 0 <= i < |w.polls| && w.polls[i].1 == a && w.polls[i].0 < |net.name| && net.name[w.polls[i].0] == a.name;
    assert w'.polls[i] == w.polls[i];
  }

  /** What a hop passes on of its outer neighbours is what it held. */
  lemma ToldIsHeld(codec: Codec, name: string, held: seq<Ack>, s: Step, a: Ack)
    requires codec.Faithful() && s.Poll? && a in Told(codec, name, held, s)
    ensures a == Ack(name, s.seen, s.now) || a in held
  {
    var k := HeaderCarriesLongestSuffix(codec, held);
  }

  lemma HeldWasEmitted(net: Net, w: World, b: nat, a: Ack)
    requires Inv(net, w) && b < |w.outer| && a in w.outer[b].Values
    ensures Emitted(net, w, a)
  {
    assert w.outer[b] == RecordAll(map[], w.delivered[b]);
    RecordKeepsTheFreshest(w.delivered[b]);
  }

  lemma ToldWasEmitted(net: Net, codec: Codec, w: World, s: Step, w': World, held: seq<Ack>, a: Ack)
    requires Inv(net, w) && codec.Faithful() && Enabled(w, s) && s.Poll?
    requires Lists(w.outer[s.box], held) && w'.polls == w.polls + [(s.box, Ack(net.name[s.box], s.seen, s.now))]
    requires a in Told(codec, net.name[s.box], held, s)
    ensures Emitted(net, w', a)
  {
    ToldIsHeld(codec, net.name[s.box], held, s, a);
    if a == Ack(net.name[s.box], s.seen, s.now) {
      assert w'.polls[|w.polls|] == (s.box, a);
    } else {
      assert a in Elements(held);
      HeldWasEmitted(net, w, s.box, a);
      EmittedIsForever(net, w, w', a);
    }
  }

  lemma ParentKeepsInv(net: Net, codec: Codec, w: World, s: Step, w': World, b: nat, held: seq<Ack>)
    requires Inv(net, w) && codec.Faithful() && Enabled(w, s) && s.Poll? && b < |w.outer|
    requires Lists(w.outer[s.box], held) && w'.polls == w.polls + [(s.box, Ack(net.name[s.box], s.seen, s.now))]
    ensures var told := Told(codec, net.name[s.box], held, s);
      && RecordAll(w.outer[b], told) == RecordAll(map[], w.delivered[b] + told)
      && forall a :: a in w.delivered[b] + told ==> Emitted(net, w', a)
  {
    var told := Told(codec, net.name[s.box], held, s);
    RecordAllConcat(map[], w.delivered[b], told);
    forall a | a in w.delivered[b] + told ensures Emitted(net, w', a) {
      if a in w.delivered[b] {
        EmittedIsForever(net, w, w', a);
      } else {
        ToldWasEmitted(net, codec, w, s, w', held, a);
      }
    }
  }

  lemma StepKeepsInv(net: Net, codec: Codec, w: World, s: Step, w': World)
    requires Inv(net, w) && codec.Faithful() && Enabled(w, s) && Next(net, codec, w, s, w')
    ensures Inv(net, w')
  {
    forall b, a | 0 <= b < |w.outer| && a in w.delivered[b] ensures Emitted(net, w', a) {
      EmittedIsForever(net, w, w', a);
    }
    if s.Poll? && net.parent[s.box].Some? {
      var p := net.parent[s.box].value;
      var held :| Lists(w.outer[s.box], held) &&
        w'.outer == w.outer[p := RecordAll(w.outer[p], Told(codec, net.name[s.box], held, s))] &&
        w'.delivered == w.delivered[p := w.delivered[p] + Told(codec, net.name[s.box], held, s)];
      ParentKeepsInv(net, codec, w, s, w', p, held);
    }
  }

  ghost predicate IsRun(net: Net, codec: Codec, run: seq<World>, steps: seq<Step>) {
    && ValidNet(net) && |run| == |steps| + 1
    && run[0].polls == [] && |run[0].outer| == |run[0].delivered| == |net.parent|
    && (forall b :: 0 <= b < |net.parent| ==> run[0].outer[b] == map[] && run[0].delivered[b] == [])
    && forall i :: 0 <= i < |steps| ==>
         |run[i].outer| == |run[i].delivered| == |net.parent| && Enabled(run[i], steps[i])
         && Next(net, codec, run[i], steps[i], run[i + 1])
  }

  lemma {:induction false} RunKeepsInv(net: Net, codec: Codec, run: seq<World>, steps: seq<Step>, i: nat)
    requires IsRun(net, codec, run, steps) && codec.Faithful() && i < |run|
    ensures Inv(net, run[i])
  {
    if i > 0 {
      RunKeepsInv(net, codec, run, steps, i - 1);
      assert Next(net, codec, run[i - 1], steps[i - 1], run[i - 1 + 1]);
      StepKeepsInv(net, codec, run[i - 1], steps[i - 1], run[i]);
    }
  }

  /**
   Over every run, polls repeated, garbled, in any order and with any clocks: the ack a box holds for a name was said by
   a poll of a hop of that name, and no ack delivered to the box for that name since its start was fresher.
   */
  lemma HeldAcksAreGenuine(net: Net, codec: Codec, run: seq<World>, steps: seq<Step>, i: nat, b: nat, name: string)
    requires IsRun(net, codec, run, steps) && codec.Faithful() && i < |run| && b < |net.parent|
    ensures |run[i].outer| == |run[i].delivered| == |net.parent|
    ensures name in run[i].outer[b] ==>
      && run[i].outer[b][name].name == name && Emitted(net, run[i], run[i].outer[b][name])
      && forall a :: a in run[i].delivered[b] && a.name == name ==> a.lastSeen <= run[i].outer[b][name].lastSeen
    ensures name != "" && (exists a :: a in run[i].delivered[b] && a.name == name) ==> name in run[i].outer[b]
  {
    RunKeepsInv(net, codec, run, steps, i);
    assert run[i].outer[b] == RecordAll(map[], run[i].delivered[b]);
    RecordKeepsTheFreshest(run[i].delivered[b]);
  }
}
