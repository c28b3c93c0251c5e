/**
 Traffic of one mtg inbound, derived from counters that start over with every process: a collector copies the
 baselines, reads the counters, reports the differences and stores new baselines, while processes come and go between
 those steps.
 */
module MtgTraffic {
  import opened Prelude

  type Key = string   // a client's id, or for a single-secret mtg the inbound as a whole

  /** Byte counts in one direction. Both directions go through the same steps and are derived alike. */
  type Counters = map<Key, nat>

  function Get(m: Counters, key: Key): nat {
    if key in m then m[key] else 0
  }

  /** What is reported for a key: nothing without a baseline, never a negative difference. */
  function Delta(last: Counters, key: Key, now: nat): nat {
    if key in last && now > last[key] then now - last[key] else 0
  }

  // ---- one answered scrape ----

  datatype Client = Client(id: Key, email: string)

  datatype UserStat = UserStat(up: nat, down: nat, connections: nat)

  datatype Traffic = Traffic(uuid: Key, email: string, up: nat, down: nat, lastSeen: int)

  /** The baselines in both directions. */
  datatype Baselines = Baselines(up: Counters, down: Counters)

  function Line(c: Client, u: UserStat, last: Baselines, now: int): seq<Traffic> {
    var du, dd := Delta(last.up, c.id, u.up), Delta(last.down, c.id, u.down);
    var seen := if u.connections > 0 then now else 0;
    if du > 0 || dd > 0 || seen > 0 then [Traffic(c.id, c.email, du, dd, seen)] else []
  }

  function Lines(clients: seq<Client>, users: map<Key, UserStat>, last: Baselines, now: int): seq<Traffic> {
    if clients == [] then []
    else
      var c := clients[|clients| - 1];
      Lines(clients[..|clients| - 1], users, last, now) + if c.id in users then Line(c, users[c.id], last, now) else []
  }

  function Ids(clients: seq<Client>): set<Key> {
    set c | c in clients :: c.id
  }

  /** The answered counters of the clients that are listed. */
  function Fresh(ids: set<Key>, users: map<Key, UserStat>): Baselines {
    Baselines(map id | id in ids && id in users :: users[id].up, map id | id in ids && id in users :: users[id].down)
  }

  method CollectOne(c: Client, u: UserStat, last: Baselines, now: int) returns (line: seq<Traffic>)
    requires c.id in last.up <==> c.id in last.down
    ensures line == Line(c, u, last, now)
  {
    var du: int, dd: int := 0, 0;
    if c.id in last.up {
      du, dd := u.up - last.up[c.id], u.down - last.down[c.id];
      if du < 0 { du := 0; }
      if dd < 0 { dd := 0; }
    }
    var lastSeen := 0;
    if u.connections > 0 {
      lastSeen := now;
    }
    line := if du > 0 || dd > 0 || lastSeen > 0 then [Traffic(c.id, c.email, du, dd, lastSeen)] else [];
  }

  lemma FreshOneMore(ids: set<Key>, id: Key, users: map<Key, UserStat>)
    ensures id in users ==> Fresh(ids + {id}, users).up == Fresh(ids, users).up[id := users[id].up]
    ensures id in users ==> Fresh(ids + {id}, users).down == Fresh(ids, users).down[id := users[id].down]
    ensures id !in users ==> Fresh(ids + {id}, users) == Fresh(ids, users)
  {
  }

  lemma OneMore(clients: seq<Client>, i: nat)
    requires i < |clients|
    ensures Ids(clients[..i + 1]) == Ids(clients[..i]) + {clients[i].id}
    ensures clients[..i + 1][..i] == clients[..i]
  {
    assert clients[..i + 1] == clients[..i] + [clients[i]];
  }

  method CollectUsers(clients: seq<Client>, users: map<Key, UserStat>, last: Baselines, now: int)
    returns (out: seq<Traffic>, newByClient: Baselines)
    requires last.up.Keys == last.down.Keys
    ensures out == Lines(clients, users, last, now)
    ensures newByClient == Fresh(Ids(clients), users)
  {
    out, newByClient := [], Baselines(map[], map[]);
    for i := 0 to |clients|
      invariant out == Lines(clients[..i], users, last, now)
      invariant newByClient == Fresh(Ids(clients[..i]), users)
    {
      var c := clients[i];
      OneMore(clients, i);
      FreshOneMore(Ids(clients[..i]), c.id, users);
      if c.id !in users {
        continue;
      }
      var u := users[c.id];
      newByClient := Baselines(newByClient.up[c.id := u.up], newByClient.down[c.id := u.down]);
      var line := CollectOne(c, u, last, now);
      out := out + line;
    }
    assert clients[..|clients|] == clients;
  }

  datatype Direction = Up | Down

  function Side(b: Baselines, d: Direction): Counters {
    match d case Up => b.up case Down => b.down
  }

  function Amount(t: Traffic, key: Key, d: Direction): nat {
    if t.uuid != key then 0 else match d case Up => t.up case Down => t.down
  }

  function Sum(out: seq<Traffic>, key: Key, d: Direction): nat {
    if out == [] then 0 else Sum(out[..|out| - 1], key, d) + Amount(out[|out| - 1], key, d)
  }

  ghost predicate DistinctIds(clients: seq<Client>) {
    forall i, j :: 0 <= i < j < |clients| ==> clients[i].id != clients[j].id
  }

  lemma SumOneMore(out: seq<Traffic>, line: seq<Traffic>, key: Key, d: Direction)
    requires |line| <= 1
    ensures Sum(out + line, key, d) == Sum(out, key, d) + if line == [] then 0 else Amount(line[0], key, d)
  {
    if line == [] {
      assert out + line == out;
    } else {
      assert (out + line)[..|out + line| - 1] == out;
    }
  }

  lemma LineIsDelta(c: Client, u: UserStat, last: Baselines, now: int, key: Key, d: Direction)
    ensures var line := Line(c, u, last, now);
      |line| <= 1 && (if line == [] then 0 else Amount(line[0], key, d)) ==
        if c.id == key then Delta(Side(last, d), key, match d case Up => u.up case Down => u.down) else 0
  {
  }

  /** The lines of one scrape report each answered client once, by its difference, and nobody else. */
  lemma {:induction false} LinesSumToDelta(clients: seq<Client>, users: map<Key, UserStat>, last: Baselines, now: int,
                                           key: Key, d: Direction)
    requires DistinctIds(clients)
    ensures Sum(Lines(clients, users, last, now), key, d) ==
            if key in Ids(clients) && key in users then Delta(Side(last, d), key, Side(Fresh(Ids(clients), users), d)[key]) else 0
  {
    if clients != [] {
      var n := |clients| - 1;
      var init, c := clients[..n], clients[n];
      assert clients == init + [c];
      assert Ids(clients) == Ids(init) + {c.id};
      assert c.id !in Ids(init);
      LinesSumToDelta(init, users, last, now, key, d);
      if c.id in users {
        SumOneMore(Lines(init, users, last, now), Line(c, users[c.id], last, now), key, d);
        LineIsDelta(c, users[c.id], last, now, key, d);
      } else {
        SumOneMore(Lines(init, users, last, now), [], key, d);
      }
    }
  }

  // ---- scrapes among restarts ----

  /** The manager's entry: which incarnation it stands for, and the baselines. */
  datatype Entry = Entry(incarnation: nat, last: Counters)

  /** How far the one collector is: its copy of the baselines, then what it read and has still to store. */
  datatype Phase = Resting | Copied(incarnation: nat, clients: set<Key>, last: Counters) | Read(read: Counters)

  /** A value read from an incarnation's counter. */
  datatype Reading = Reading(incarnation: nat, value: nat)

  /**
   `counters[k]` is what incarnation k has counted. `reported` is everything reported so far; `latest` and `first` are
   the last and first readings per key and `lapsed` the keys some later answer left out.
   */
  datatype World = World(counters: seq<Counters>, pending: bool, entry: Option<Entry>, phase: Phase, reported: Counters,
                         latest: map<Key, Reading>, first: Counters, lapsed: set<Key>)

  datatype Step =
    | Forget                                        // the entry is deleted: a restart begins, or the inbound goes
    | Spawn                                         // a process is started
    | Store                                         // and entered in the map
    | Count(incarnation: nat, key: Key, by_: nat)
    | Copy(clients: set<Key>)                       // the collector copies the entry's state
    | NoAnswer                                      // the scrape fails
    | Answer(incarnation: nat, keys: set<Key>)      // whoever now listens on that port answers
    | Commit

  predicate Enabled(w: World, s: Step) {
    match s
    case Forget => true
    case Spawn => w.entry.None? && !w.pending
    case Store => w.entry.None? && w.pending && w.counters != []
    case Count(k, _, _) => k < |w.counters|
    case Copy(_) => w.phase.Resting? && w.entry.Some?
    case NoAnswer => w.phase.Copied?
    case Answer(k, keys) => w.phase.Copied? && w.phase.incarnation <= k < |w.counters| && keys <= w.phase.clients
    case Commit => w.phase.Read?
  }

  function ReadFrom(counters: Counters, keys: set<Key>): Counters {
    map key | key in keys :: Get(counters, key)
  }

  function Reported(reported: Counters, last: Counters, read: Counters): Counters {
    map key | key in reported.Keys + read.Keys ::
      Get(reported, key) + if key in read then Delta(last, key, read[key]) else 0
  }

  function Noted(latest: map<Key, Reading>, k: nat, read: Counters): map<Key, Reading> {
    map key | key in latest.Keys + read.Keys :: if key in read then Reading(k, read[key]) else latest[key]
  }

  function Counted(counters: seq<Counters>, k: nat, key: Key, by_: nat): seq<Counters>
    requires k < |counters|
  {
    var more: Counters := counters[k][key := Get(counters[k], key) + by_];
    counters[k := more]
  }

  function After(w: World, s: Step): World
    requires Enabled(w, s)
  {
    match s
    case Forget => w.(entry := None)
    case Spawn => w.(counters := w.counters + [map[]], pending := true)
    case Store => w.(entry := Some(Entry(|w.counters| - 1, map[])), pending := false)
    case Count(k, key, by_) => w.(counters := Counted(w.counters, k, key, by_))
    case Copy(clients) => w.(phase := Copied(w.entry.value.incarnation, clients, w.entry.value.last))
    case NoAnswer => w.(phase := Resting)
    case Answer(k, keys) =>
      var read := ReadFrom(w.counters[k], keys);
      w.(phase := Read(read),
         reported := Reported(w.reported, w.phase.last, read),
         latest := Noted(w.latest, k, read),
         first := read + w.first,
         lapsed := w.lapsed + (w.latest.Keys - keys))
    case Commit =>
      w.(phase := Resting, entry := if w.entry.None? then None else Some(w.entry.value.(last := w.phase.read)))
  }

  ghost predicate Initial(w: World) {
    w == World([], false, None, Resting, map[], map[], map[], {})
  }

  ghost predicate IsRun(run: seq<World>, steps: seq<Step>) {
    && |run| == |steps| + 1 && Initial(run[0])
    && forall i :: 0 <= i < |steps| ==> Enabled(run[i], steps[i]) && run[i + 1] == After(run[i], steps[i])
  }

  /** What a key's counters come to over the first incarnations. */
  function Total(counters: seq<Counters>, key: Key): nat {
    if counters == [] then 0
    else Total(counters[..|counters| - 1], key) + Get(counters[|counters| - 1], key)
  }

  // ---- what every interleaving keeps ----

  /** Reports stay below what the earlier incarnations counted plus the latest reading. */
  ghost predicate Bounded(w: World, key: Key) {
    if key !in w.latest then Get(w.reported, key) == 0
    else
      var r := w.latest[key];
      && r.incarnation < |w.counters|
      && r.value <= Get(w.counters[r.incarnation], key)
      && Get(w.reported, key) <= Total(w.counters[..r.incarnation], key) + r.value
  }

  /** Baselines are latest readings. */
  predicate Current(last: Counters, latest: map<Key, Reading>, key: Key) {
    key in last ==> key in latest && latest[key].value == last[key]
  }

  ghost predicate KeyInv(w: World, key: Key) {
    && Bounded(w, key)
    && (w.entry.Some? && !w.phase.Read? ==> Current(w.entry.value.last, w.latest, key))
    && match w.phase
       case Resting => true
       case Copied(k, _, last) => Current(last, w.latest, key) && (key in w.latest ==> w.latest[key].incarnation <= k)
       case Read(read) => Current(read, w.latest, key)
  }

  ghost predicate Inv(w: World) {
    && (w.entry.Some? ==> w.entry.value.incarnation == |w.counters| - 1 && !w.pending)
    && (w.phase.Copied? ==> w.phase.incarnation < |w.counters|)
    && forall key :: KeyInv(w, key)
  }

  lemma {:induction false} TotalGrows(counters: seq<Counters>, i: nat, j: nat, key: Key)
    requires i <= j <= |counters|
    ensures Total(counters[..i], key) <= Total(counters[..j], key)
    ensures i < j ==> Total(counters[..i], key) + Get(counters[i], key) <= Total(counters[..j], key)
    decreases j
  {
    if i < j {
      assert counters[..j][..j - 1] == counters[..j - 1];
      TotalGrows(counters, i, j - 1, key);
    }
  }

  lemma {:induction false} TotalAfterCount(counters: seq<Counters>, k: nat, key: Key, by_: nat, n: nat, of_: Key)
    requires k < |counters| && n <= |counters|
    ensures var after := Counted(counters, k, key, by_);
      Total(counters[..n], of_) <= Total(after[..n], of_)
    decreases n
  {
    if n > 0 {
      var after := Counted(counters, k, key, by_);
      assert counters[..n][..n - 1] == counters[..n - 1] && after[..n][..n - 1] == after[..n - 1];
      TotalAfterCount(counters, k, key, by_, n - 1, of_);
    }
  }

  lemma CountKeepsBound(w: World, k: nat, counted: Key, by_: nat, key: Key)
    requires k < |w.counters| && Bounded(w, key)
    ensures Bounded(After(w, Count(k, counted, by_)), key)
  {
    if key in w.latest {
      TotalAfterCount(w.counters, k, counted, by_, w.latest[key].incarnation, key);
    }
  }

  lemma AnswerKeepsBound(w: World, k: nat, keys: set<Key>, key: Key)
    requires Inv(w) && Enabled(w, Answer(k, keys))
    ensures Bounded(After(w, Answer(k, keys)), key)
  {
    assert KeyInv(w, key);
    if key in keys {
      var now := Get(w.counters[k], key);
      if key in w.latest {
        var r := w.latest[key];
        TotalGrows(w.counters, r.incarnation, k, key);
      }
    }
  }

  lemma StepKeepsKeyInv(w: World, s: Step, key: Key)
    requires Inv(w) && Enabled(w, s)
    ensures KeyInv(After(w, s), key)
  {
    assert KeyInv(w, key);
    var n := After(w, s);
    match s {
      case Count(k, counted, by_) =>
        CountKeepsBound(w, k, counted, by_, key);
      case Answer(k, keys) =>
        AnswerKeepsBound(w, k, keys, key);
      case Spawn =>
        if key in w.latest {
          assert n.counters[..w.latest[key].incarnation] == w.counters[..w.latest[key].incarnation];
        }
      case _ =>
    }
  }

  lemma StepKeepsInv(w: World, s: Step)
    requires Inv(w) && Enabled(w, s)
    ensures Inv(After(w, s))
  {
    forall key ensures KeyInv(After(w, s), key) {
      StepKeepsKeyInv(w, s, key);
    }
  }

  lemma {:induction false} RunKeepsInv(run: seq<World>, steps: seq<Step>, i: nat)
    requires IsRun(run, steps) && i < |run|
    ensures Inv(run[i])
  {
    if i == 0 {
      assert forall key :: KeyInv(run[0], key);
    } else {
      RunKeepsInv(run, steps, i - 1);
      StepKeepsInv(run[i - 1], steps[i - 1]);
      assert run[i - 1 + 1] == After(run[i - 1], steps[i - 1]);
    }
  }

  /**
   Over any interleaving of scrapes, restarts, crashes and baselines stored onto a replaced entry: what was reported for
   a key is at most what all its incarnations have counted.
   */
  lemma NeverOverReported(run: seq<World>, steps: seq<Step>, i: nat, key: Key)
    requires IsRun(run, steps) && i < |run|
    ensures Get(run[i].reported, key) <= Total(run[i].counters, key)
  {
    RunKeepsInv(run, steps, i);
    assert KeyInv(run[i], key);
    var n := |run[i].counters|;
    assert run[i].counters[..n] == run[i].counters;
    if key in run[i].latest {
      TotalGrows(run[i].counters, run[i].latest[key].incarnation, n, key);
    }
  }

  // ---- nothing lost within one incarnation ----

  /** While one process lives and every answer names the key, the reports are the latest reading less the first. */
  ghost predicate Exact(w: World, key: Key) {
    |w.counters| <= 1 && key !in w.lapsed ==>
      && (key in w.latest <==> key in w.first)
      && (key in w.latest ==>
            && Get(w.reported, key) + w.first[key] == w.latest[key].value
            && w.latest[key].incarnation == 0
            && match w.phase
               case Resting => w.entry.Some? ==> key in w.entry.value.last
               case Copied(_, _, last) => key in last && (w.entry.Some? ==> key in w.entry.value.last)
               case Read(read) => key in read)
      && (w.pending ==> key !in w.latest && w.phase.Resting?)
  }

  lemma AnswerIsExact(w: World, k: nat, keys: set<Key>, key: Key)
    requires Inv(w) && Enabled(w, Answer(k, keys)) && Exact(w, key)
    ensures Exact(After(w, Answer(k, keys)), key)
  {
    var n := After(w, Answer(k, keys));
    if |n.counters| <= 1 && key !in n.lapsed {
      assert KeyInv(w, key);
      if key in w.latest {
        assert key in keys;
        assert Bounded(w, key);
      }
    }
  }

  lemma StepKeepsExact(w: World, s: Step, key: Key)
    requires Inv(w) && Enabled(w, s) && Exact(w, key)
    requires w.counters == [] ==> w.latest == map[] && w.first == map[] && w.phase.Resting? && w.entry.None?
    ensures Exact(After(w, s), key)
  {
    assert KeyInv(w, key);
    match s {
      case Answer(k, keys) => AnswerIsExact(w, k, keys, key);
      case _ =>
    }
  }

  lemma {:induction false} RunKeepsExact(run: seq<World>, steps: seq<Step>, i: nat, key: Key)
    requires IsRun(run, steps) && i < |run|
    ensures Exact(run[i], key)
    ensures run[i].counters == [] ==>
              run[i].latest == map[] && run[i].first == map[] && run[i].phase.Resting? && run[i].entry.None?
  {
    if i > 0 {
      RunKeepsExact(run, steps, i - 1, key);
      RunKeepsInv(run, steps, i - 1);
      StepKeepsExact(run[i - 1], steps[i - 1], key);
      assert run[i - 1 + 1] == After(run[i - 1], steps[i - 1]);
    }
  }

  /** With one process throughout and no answer that leaves the key out, reports are last reading minus first; failed scrapes lose nothing. */
  lemma ExactWithoutRestart(run: seq<World>, steps: seq<Step>, i: nat, key: Key)
    requires IsRun(run, steps) && i < |run| && |run[i].counters| <= 1 && key in run[i].latest && key !in run[i].lapsed
    ensures key in run[i].first && Get(run[i].reported, key) + run[i].first[key] == run[i].latest[key].value
  {
    RunKeepsExact(run, steps, i, key);
  }
}
