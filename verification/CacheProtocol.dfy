/**
 The subscription cache among concurrent lookups and writes to the database it caches: every atomic step of
 getInboundsBySubId, of the writes, and of the generation bumps that follow some of them. Writes to the traffic
 counters are never announced by a bump; writes to the inbounds are.
 */
module CacheProtocol {
  import opened Prelude
  import opened InboundCache

  type SubId = string

  /** The inbounds a sub id resolves to, and the client rows by inbound id: two tables. */
  datatype Database = Database(inbounds: map<SubId, seq<Columns>>, traffic: map<int, seq<ClientTraffic>>)

  function Found(db: Database, sub: SubId): seq<Columns> {
    if sub in db.inbounds then db.inbounds[sub] else []
  }

  function TrafficOf(db: Database, id: int): seq<ClientTraffic> {
    if id in db.traffic then db.traffic[id] else []
  }

  /** The inbounds with the client rows this database has for them. */
  function Preloaded(db: Database, inbounds: seq<Columns>): seq<Row> {
    seq(|inbounds|, i requires 0 <= i < |inbounds| => Row(inbounds[i], Some(TrafficOf(db, inbounds[i].id))))
  }

  function Resolve(db: Database, sub: SubId): seq<Row> {
    Preloaded(db, Found(db, sub))
  }

  function OwnOf(rows: seq<Row>): seq<Columns> {
    seq(|rows|, i requires 0 <= i < |rows| => rows[i].own)
  }

  /** The client rows of these inbounds are the same in both. */
  predicate SameTraffic(a: Database, b: Database, inbounds: seq<Columns>) {
    forall i :: 0 <= i < |inbounds| ==> TrafficOf(a, inbounds[i].id) == TrafficOf(b, inbounds[i].id)
  }

  /** What is kept of a lookup's two queries: the versions each read, and what it read. */
  datatype Read = Read(rows: seq<Row>, readAt: nat, trafficAt: nat)

  /**
   A cached lookup. What it read when, how many edits had been made when its generation was loaded (`seen`), and when
   its expiry was set, are history.
   */
  datatype Kept = Kept(got: Read, generation: nat, expiresAt: nat, seen: nat, storedAt: nat)

  /**
   How far one request is. `since` and `clean` are history: the version when its generation was loaded, and that no
   edit awaited its bump.
   */
  datatype Request =
    | Idle
    | Started(sub: SubId, now: nat)
    | Ready(sub: SubId, now: nat, generation: nat, since: nat, clean: bool)
    | Missed(sub: SubId)
    | Listed(sub: SubId, inbounds: seq<Columns>, readAt: nat)
    | Fetched(sub: SubId, got: Read)
    | Stamped(sub: SubId, got: Read, generation: nat, seen: nat)
    | Built(sub: SubId, entry: Kept)

  /**
   `versions[v]` is the database after v writes, `edits[v]` how many of those were to be announced, `unannounced` how
   many edits have not had their bump, and `announced[g]` how many had when the generation became g.
   */
  datatype World = World(versions: seq<Database>, edits: seq<nat>, unannounced: nat, announced: seq<nat>, generation: nat,
                         clock: nat, cache: map<SubId, Kept>, requests: map<nat, Request>)

  /** What one request does next. */
  datatype Action =
    | Start(sub: SubId)   // time.Now()
    | Load                // datagen.Current()
    | Probe               // under the lock
    | Find                // the query
    | Preload             // the second query, for the client rows
    | Fail                // either query fails
    | Stamp               // datagen.Current() again
    | Build               // time.Now() again
    | Put                 // under the lock

  datatype Step =
    | Tick
    | Edit(db: Database)                                // a write to an announced table, and whatever else
    | Collect(traffic: map<int, seq<ClientTraffic>>)    // a write to the traffic counters alone
    | Bump                                              // announces an edit
    | ExtraBump                                         // or nothing
    | Act(r: nat, action: Action)

  function RequestOf(w: World, r: nat): Request {
    if r in w.requests then w.requests[r] else Idle
  }

  predicate CanAct(q: Request, a: Action) {
    match a
    case Start(_) => q.Idle?
    case Load => q.Started?
    case Probe => q.Ready?
    case Find => q.Missed?
    case Preload => q.Listed?
    case Fail => q.Missed? || q.Listed?
    case Stamp => q.Fetched?
    case Build => q.Stamped?
    case Put => q.Built?
  }

  predicate Enabled(w: World, s: Step) {
    match s
    case Tick => true
    case Edit(_) => true
    case Collect(_) => true
    case Bump => w.unannounced > 0
    case ExtraBump => true
    case Act(r, a) => CanAct(RequestOf(w, r), a)
  }

  /** Every version has its number of edits. */
  predicate Rooted(w: World) {
    |w.edits| == |w.versions| > 0
  }

  function Version(w: World): nat
    requires Rooted(w)
  {
    |w.versions| - 1
  }

  function Now(w: World): Database
    requires Rooted(w)
  {
    w.versions[Version(w)]
  }

  function Edits(w: World): nat
    requires Rooted(w)
  {
    w.edits[Version(w)]
  }

  /** The entry a probing request is answered with, if it hits. */
  function Hit(w: World, q: Request): Option<Kept>
    requires q.Ready?
  {
    if q.sub in w.cache && w.cache[q.sub].generation == q.generation && q.now <= w.cache[q.sub].expiresAt then
      Some(w.cache[q.sub])
    else None
  }

  function Late(cache: map<SubId, Kept>, clock: nat): set<SubId> {
    set k | k in cache && clock > cache[k].expiresAt
  }

  function Acted(ttl: nat, w: World, q: Request, a: Action): Request
    requires Rooted(w) && CanAct(q, a)
  {
    match a
    case Start(sub) => Started(sub, w.clock)
    case Load => Ready(q.sub, q.now, w.generation, Version(w), w.unannounced == 0)
    case Probe => if Hit(w, q).Some? then Idle else Missed(q.sub)
    case Find => Listed(q.sub, Found(Now(w), q.sub), Version(w))
    case Preload => Fetched(q.sub, Read(Preloaded(Now(w), q.inbounds), q.readAt, Version(w)))
    case Fail => Idle
    case Stamp => Stamped(q.sub, q.got, w.generation, Edits(w))
    case Build => Built(q.sub, Kept(q.got, q.generation, w.clock + ttl, q.seen, w.clock))
    case Put => Idle
  }

  function CacheAfter(w: World, q: Request, a: Action): map<SubId, Kept>
    requires CanAct(q, a)
  {
    match a
    case Probe => if Hit(w, q).Some? then w.cache else w.cache - {q.sub}
    case Put => MakeRoom(w.cache, Late(w.cache, w.clock))[q.sub := q.entry]
    case _ => w.cache
  }

  function After(ttl: nat, w: World, s: Step): World
    requires Rooted(w) && Enabled(w, s)
  {
    match s
    case Tick => w.(clock := w.clock + 1)
    case Edit(db) => w.(versions := w.versions + [db], edits := w.edits + [Edits(w) + 1], unannounced := w.unannounced + 1)
    case Collect(traffic) => w.(versions := w.versions + [Now(w).(traffic := traffic)], edits := w.edits + [Edits(w)])
    case Bump => w.(unannounced := w.unannounced - 1, generation := w.generation + 1,
                    announced := w.announced + [NatMinus(Edits(w), w.unannounced - 1)])
    case ExtraBump => w.(generation := w.generation + 1, announced := w.announced + [NatMinus(Edits(w), w.unannounced)])
    case Act(r, a) =>
      var q := RequestOf(w, r);
      w.(cache := CacheAfter(w, q, a), requests := w.requests[r := Acted(ttl, w, q, a)])
  }

  function NatMinus(a: nat, b: nat): nat {
    if b <= a then a - b else 0
  }

  ghost predicate Initial(w: World) {
    && |w.versions| == 1 && w.edits == [0] && w.unannounced == 0 && w.announced == [0] && w.generation == 0
    && w.cache == map[] && w.requests == map[]
  }

  ghost predicate IsRun(ttl: nat, run: seq<World>, steps: seq<Step>) {
    && |run| == |steps| + 1 && Initial(run[0])
    && forall i :: 0 <= i < |steps| ==>
         Rooted(run[i]) && Enabled(run[i], steps[i]) && run[i + 1] == After(ttl, run[i], steps[i])
  }

  // ---- what every interleaving keeps ----

  /** From one version to a later one edits are only added, and without one the inbounds are the same. */
  predicate EditsTell(w: World, u: nat, v: nat)
    requires Rooted(w) && u < |w.versions| && v < |w.versions|
  {
    w.edits[u] <= w.edits[v] && (w.edits[u] == w.edits[v] ==> w.versions[u].inbounds == w.versions[v].inbounds)
  }

  ghost predicate GoodHistory(w: World) {
    && Rooted(w) && |w.announced| == w.generation + 1 && w.announced[w.generation] + w.unannounced == Edits(w)
    && forall u, v :: 0 <= u <= v < |w.versions| ==> EditsTell(w, u, v)
  }

  /** The inbounds as read at one version with the client rows of another, no earlier. */
  predicate GoodRead(w: World, sub: SubId, got: Read)
    requires Rooted(w)
  {
    got.readAt <= got.trafficAt < |w.versions|
    && got.rows == Preloaded(w.versions[got.trafficAt], Found(w.versions[got.readAt], sub))
  }

  /** A stamp has seen every edit since the read, and every one announced by its generation. */
  predicate GoodStamp(w: World, sub: SubId, got: Read, generation: nat, seen: nat)
    requires Rooted(w)
  {
    && GoodRead(w, sub, got) && w.edits[got.readAt] <= seen
    && generation < |w.announced| && w.announced[generation] <= seen
  }

  predicate GoodEntry(ttl: nat, w: World, sub: SubId, e: Kept)
    requires Rooted(w)
  {
    GoodStamp(w, sub, e.got, e.generation, e.seen) && e.expiresAt == e.storedAt + ttl && e.storedAt <= w.clock
  }

  predicate GoodRequest(ttl: nat, w: World, q: Request)
    requires Rooted(w)
  {
    match q
    case Idle => true
    case Started(_, now) => now <= w.clock
    case Ready(_, now, generation, since, clean) =>
      && now <= w.clock && generation < |w.announced| && since < |w.versions|
      && (clean ==> w.edits[since] == w.announced[generation])
    case Missed(_) => true
    case Listed(sub, inbounds, readAt) => readAt < |w.versions| && inbounds == Found(w.versions[readAt], sub)
    case Fetched(sub, got) => GoodRead(w, sub, got)
    case Stamped(sub, got, generation, seen) => GoodStamp(w, sub, got, generation, seen)
    case Built(sub, e) => GoodEntry(ttl, w, sub, e)
  }

  /** The world moves on around a request or an entry without touching it. */
  ghost predicate MovesOn(w: World, n: World) {
    && Rooted(w) && Rooted(n) && w.versions <= n.versions && w.edits <= n.edits && w.announced <= n.announced
    && w.clock <= n.clock
  }

  lemma EntryStaysGood(ttl: nat, w: World, n: World, sub: SubId, e: Kept)
    requires MovesOn(w, n) && GoodEntry(ttl, w, sub, e)
    ensures GoodEntry(ttl, n, sub, e)
  {
  }

  lemma RequestStaysGood(ttl: nat, w: World, n: World, q: Request)
    requires MovesOn(w, n) && GoodRequest(ttl, w, q)
    ensures GoodRequest(ttl, n, q)
  {
  }

  lemma StepMovesOn(ttl: nat, w: World, s: Step)
    requires Rooted(w) && Enabled(w, s)
    ensures MovesOn(w, After(ttl, w, s))
  {
  }

  lemma HistoryStaysGood(ttl: nat, w: World, s: Step)
    requires GoodHistory(w) && Enabled(w, s)
    ensures GoodHistory(After(ttl, w, s))
  {
    var n := After(ttl, w, s);
    forall u, v | 0 <= u <= v < |n.versions| ensures EditsTell(n, u, v) {
      if u < |w.versions| {
        assert EditsTell(w, u, if v < |w.versions| then v else Version(w));
      }
    }
  }

  /** Every action leaves the map within its bound, with the entries of before and the one put. */
  lemma CacheStaysBounded(w: World, q: Request, a: Action)
    requires CanAct(q, a) && |w.cache| <= CACHE_MAX_ENTRIES
    ensures |CacheAfter(w, q, a)| <= CACHE_MAX_ENTRIES
    ensures forall k :: k in CacheAfter(w, q, a) ==>
              (q.Built? && k == q.sub && CacheAfter(w, q, a)[k] == q.entry)
              || (k in w.cache && CacheAfter(w, q, a)[k] == w.cache[k])
  {
    if a.Put? {
      RoomIsEnough(w.cache, Late(w.cache, w.clock), q.sub, q.entry);
    } else if a.Probe? {
      SubsetOfSameSize((w.cache - {q.sub}).Keys, w.cache.Keys);
      assert |w.cache - {q.sub}| == |(w.cache - {q.sub}).Keys| && |w.cache| == |w.cache.Keys|;
    }
  }

  lemma ActedIsGood(ttl: nat, w: World, q: Request, a: Action)
    requires GoodHistory(w) && CanAct(q, a) && GoodRequest(ttl, w, q)
    ensures GoodRequest(ttl, w, Acted(ttl, w, q, a))
  {
    if a.Stamp? {
      assert EditsTell(w, q.got.readAt, Version(w));
    }
  }

  ghost predicate GoodCache(ttl: nat, w: World)
    requires Rooted(w)
  {
    |w.cache| <= CACHE_MAX_ENTRIES && forall k :: k in w.cache ==> GoodEntry(ttl, w, k, w.cache[k])
  }

  ghost predicate GoodRequests(ttl: nat, w: World)
    requires Rooted(w)
  {
    forall r :: r in w.requests ==> GoodRequest(ttl, w, w.requests[r])
  }

  ghost predicate Inv(ttl: nat, w: World) {
    GoodHistory(w) && GoodCache(ttl, w) && GoodRequests(ttl, w)
  }

  /** What was good before the world moved on is good after. */
  lemma GoodStaysGood(ttl: nat, w: World, n: World)
    requires MovesOn(w, n) && GoodHistory(n) && |n.cache| <= CACHE_MAX_ENTRIES
    requires forall k :: k in n.cache ==> GoodEntry(ttl, w, k, n.cache[k])
    requires forall r :: r in n.requests ==> GoodRequest(ttl, w, n.requests[r])
    ensures Inv(ttl, n)
  {
    forall k | k in n.cache ensures GoodEntry(ttl, n, k, n.cache[k]) {
      EntryStaysGood(ttl, w, n, k, n.cache[k]);
    }
    forall r | r in n.requests ensures GoodRequest(ttl, n, n.requests[r]) {
      RequestStaysGood(ttl, w, n, n.requests[r]);
    }
  }

  lemma ActKeepsCacheGood(ttl: nat, w: World, q: Request, a: Action)
    requires GoodHistory(w) && GoodCache(ttl, w) && CanAct(q, a) && GoodRequest(ttl, w, q)
    ensures |CacheAfter(w, q, a)| <= CACHE_MAX_ENTRIES
    ensures forall k :: k in CacheAfter(w, q, a) ==> GoodEntry(ttl, w, k, CacheAfter(w, q, a)[k])
  {
    CacheStaysBounded(w, q, a);
    ghost var cache := CacheAfter(w, q, a);
    forall k | k in cache ensures GoodEntry(ttl, w, k, cache[k]) {
      assert (q.Built? && k == q.sub && cache[k] == q.entry) || (k in w.cache && cache[k] == w.cache[k]);
    }
  }

  /** Every atomic step of lookups, stores, writes and bumps keeps the invariant. */
  lemma StepKeepsInv(ttl: nat, w: World, s: Step)
    requires Inv(ttl, w) && Enabled(w, s)
    ensures Inv(ttl, After(ttl, w, s))
  {
    StepMovesOn(ttl, w, s);
    HistoryStaysGood(ttl, w, s);
    if s.Act? {
      var q := RequestOf(w, s.r);
      assert GoodRequest(ttl, w, q);
      ActedIsGood(ttl, w, q, s.action);
      ActKeepsCacheGood(ttl, w, q, s.action);
    }
    GoodStaysGood(ttl, w, After(ttl, w, s));
  }

  lemma {:induction false} RunKeepsInv(ttl: nat, run: seq<World>, steps: seq<Step>, i: nat)
    requires IsRun(ttl, run, steps) && i < |run|
    ensures Inv(ttl, run[i])
  {
    if i > 0 {
      RunKeepsInv(ttl, run, steps, i - 1);
      StepKeepsInv(ttl, run[i - 1], steps[i - 1]);
      assert run[i - 1 + 1] == After(ttl, run[i - 1], steps[i - 1]);
    }
  }

  /** No edit fell between the query and the stamp, and none awaited its bump when the lookup loaded the generation. */
  predicate InTime(w: World, q: Request, e: Kept)
    requires Rooted(w) && e.got.readAt < |w.versions| && q.Ready?
  {
    w.edits[e.got.readAt] == e.seen && q.clean
  }

  /** The later of the version read and the one current when the lookup loaded the generation. */
  function ServedVersion(q: Request, e: Kept): nat
    requires q.Ready?
  {
    if q.since <= e.got.readAt then e.got.readAt else q.since
  }

  /**
   In every interleaving, a hit returns the inbounds read for its entry with the client rows read for it, in a lookup
   that began no later than the TTL after the entry was stored; and the map never outgrows its bound. If it is in time,
   the inbounds, client rows apart, are those of a version current at some moment since the lookup loaded the
   generation, however many traffic writes go by unannounced.
   */
  lemma HitsAreFaithful(ttl: nat, run: seq<World>, steps: seq<Step>, i: nat, r: nat)
    requires IsRun(ttl, run, steps) && i < |run|
    requires Rooted(run[i]) && RequestOf(run[i], r).Ready? && Hit(run[i], RequestOf(run[i], r)).Some?
    ensures |run[i].cache| <= CACHE_MAX_ENTRIES
    ensures var w, q, e := run[i], RequestOf(run[i], r), Hit(run[i], RequestOf(run[i], r)).value;
      && e.got.readAt <= e.got.trafficAt < |w.versions|
      && e.got.rows == Preloaded(w.versions[e.got.trafficAt], Found(w.versions[e.got.readAt], q.sub))
      && q.now <= e.storedAt + ttl
      && (InTime(w, q, e) ==>
            && q.since <= ServedVersion(q, e) < |w.versions|
            && OwnOf(e.got.rows) == Found(w.versions[ServedVersion(q, e)], q.sub))
  {
    RunKeepsInv(ttl, run, steps, i);
    var w, q := run[i], RequestOf(run[i], r);
    var e := w.cache[q.sub];
    assert GoodEntry(ttl, w, q.sub, e) && GoodRequest(ttl, w, q);
    assert OwnOf(e.got.rows) == Found(w.versions[e.got.readAt], q.sub);
    if InTime(w, q, e) && e.got.readAt < q.since {
      assert EditsTell(w, e.got.readAt, q.since);
    }
  }

  /**
   When a hit in time is the whole truth: with no edit made since its lookup loaded the generation, it is what the
   database resolves to now exactly when the client rows of those inbounds are what they were when read.
   */
  lemma CurrentIffTrafficIs(ttl: nat, run: seq<World>, steps: seq<Step>, i: nat, r: nat)
    requires IsRun(ttl, run, steps) && i < |run|
    requires Rooted(run[i]) && RequestOf(run[i], r).Ready? && Hit(run[i], RequestOf(run[i], r)).Some?
    ensures var w, q, e := run[i], RequestOf(run[i], r), Hit(run[i], RequestOf(run[i], r)).value;
      && q.since < |w.versions| && e.got.readAt < |w.versions| && e.got.trafficAt < |w.versions|
      && (InTime(w, q, e) && w.edits[q.since] == Edits(w) ==>
            && OwnOf(e.got.rows) == Found(Now(w), q.sub)
            && (e.got.rows == Resolve(Now(w), q.sub)
                <==> SameTraffic(w.versions[e.got.trafficAt], Now(w), Found(Now(w), q.sub))))
  {
    HitsAreFaithful(ttl, run, steps, i, r);
    RunKeepsInv(ttl, run, steps, i);
    var w, q := run[i], RequestOf(run[i], r);
    var e := w.cache[q.sub];
    assert GoodRequest(ttl, w, q);
    if InTime(w, q, e) && w.edits[q.since] == Edits(w) {
      var v := ServedVersion(q, e);
      assert EditsTell(w, q.since, v) && EditsTell(w, v, Version(w));
      SameRowsIff(w.versions[e.got.trafficAt], Now(w), e.got.rows, Found(w.versions[e.got.readAt], q.sub), Found(Now(w), q.sub));
    }
  }

  lemma SameRowsIff(a: Database, b: Database, rows: seq<Row>, read: seq<Columns>, now: seq<Columns>)
    requires rows == Preloaded(a, read) && OwnOf(rows) == now
    ensures rows == Preloaded(b, now) <==> SameTraffic(a, b, now)
  {
    forall i | 0 <= i < |now| ensures rows[i] == Row(now[i], Some(TrafficOf(a, now[i].id))) {
      assert OwnOf(rows)[i] == read[i];
    }
    if rows == Preloaded(b, now) {
      forall i | 0 <= i < |now| ensures TrafficOf(a, now[i].id) == TrafficOf(b, now[i].id) {
        assert rows[i] == Preloaded(b, now)[i];
      }
    }
  }

  // ---- two runs ----

  lemma Extend(ttl: nat, run: seq<World>, steps: seq<Step>, s: Step) returns (longer: seq<World>, more: seq<Step>)
    requires IsRun(ttl, run, steps) && Rooted(run[|run| - 1]) && Enabled(run[|run| - 1], s)
    ensures IsRun(ttl, longer, more) && longer[|longer| - 1] == After(ttl, run[|run| - 1], s)
  {
    longer, more := run + [After(ttl, run[|run| - 1], s)], steps + [s];
  }

  /** One version, nothing cached, and one request. */
  function Alone(db: Database, q: Request): World {
    World([db], [0], 0, [0], 0, 0, map[], map[0 := q])
  }

  /** One request alone, with nothing cached, up to both its queries. */
  lemma OneFetch(ttl: nat, db: Database, sub: SubId) returns (run: seq<World>, steps: seq<Step>)
    ensures IsRun(ttl, run, steps)
    ensures run[|run| - 1] == Alone(db, Fetched(sub, Read(Resolve(db, sub), 0, 0)))
  {
    run, steps := [World([db], [0], 0, [0], 0, 0, map[], map[])], [];
    run, steps := Extend(ttl, run, steps, Act(0, Start(sub)));
    run, steps := Extend(ttl, run, steps, Act(0, Load));
    assert run[|run| - 1] == Alone(db, Ready(sub, 0, 0, 0, true));
    run, steps := Extend(ttl, run, steps, Act(0, Probe));
    assert run[|run| - 1] == Alone(db, Missed(sub));
    run, steps := Extend(ttl, run, steps, Act(0, Find));
    assert run[|run| - 1] == Alone(db, Listed(sub, Found(db, sub), 0));
    run, steps := Extend(ttl, run, steps, Act(0, Preload));
    assert run[|run| - 1] == Alone(db, Fetched(sub, Read(Resolve(db, sub), 0, 0)));
  }

  /** From its queries to the map, with the world otherwise still. */
  lemma Keep(ttl: nat, was: seq<World>, done: seq<Step>, sub: SubId, got: Read) returns (run: seq<World>, steps: seq<Step>)
    requires IsRun(ttl, was, done) && Rooted(was[|was| - 1])
    requires was[|was| - 1].cache == map[] && was[|was| - 1].requests == map[0 := Fetched(sub, got)]
    ensures IsRun(ttl, run, steps)
    ensures var w := was[|was| - 1];
      run[|run| - 1] == w.(cache := map[sub := Kept(got, w.generation, w.clock + ttl, Edits(w), w.clock)],
                           requests := map[0 := Idle])
  {
    var w := was[|was| - 1];
    run, steps := Extend(ttl, was, done, Act(0, Stamp));
    assert run[|run| - 1] == w.(requests := map[0 := Stamped(sub, got, w.generation, Edits(w))]);
    run, steps := Extend(ttl, run, steps, Act(0, Build));
    assert run[|run| - 1].requests == map[0 := Built(sub, Kept(got, w.generation, w.clock + ttl, Edits(w), w.clock))];
    run, steps := Extend(ttl, run, steps, Act(0, Put));
  }

  /** A second request for it, as far as the probe. */
  lemma AskAgain(ttl: nat, was: seq<World>, done: seq<Step>, sub: SubId) returns (run: seq<World>, steps: seq<Step>)
    requires IsRun(ttl, was, done) && Rooted(was[|was| - 1]) && 1 !in was[|was| - 1].requests
    ensures IsRun(ttl, run, steps)
    ensures var w := was[|was| - 1];
      run[|run| - 1] == w.(requests := w.requests[1 := Ready(sub, w.clock, w.generation, Version(w), w.unannounced == 0)])
  {
    var w := was[|was| - 1];
    run, steps := Extend(ttl, was, done, Act(1, Start(sub)));
    run, steps := Extend(ttl, run, steps, Act(1, Load));
    assert run[|run| - 1].requests == w.requests[1 := Ready(sub, w.clock, w.generation, Version(w), w.unannounced == 0)];
  }

  /**
   That no edit may fall between query and stamp matters: inbounds read before an edit and stamped after its bump are
   served as current, with every edit announced.
   */
  lemma LateStampServesStaleRows(ttl: nat, before: Database, after: Database, sub: SubId)
    returns (run: seq<World>, steps: seq<Step>)
    requires Found(before, sub) != Found(after, sub)
    ensures IsRun(ttl, run, steps)
    ensures var w := run[|run| - 1];
      var q := RequestOf(w, 1);
      && Rooted(w) && q.Ready? && q.sub == sub && q.clean && w.unannounced == 0
      && Hit(w, q).Some? && OwnOf(Hit(w, q).value.got.rows) != Found(Now(w), sub)
  {
    run, steps := OneFetch(ttl, before, sub);
    run, steps := Extend(ttl, run, steps, Edit(after));
    run, steps := Extend(ttl, run, steps, Bump);
    run, steps := Keep(ttl, run, steps, sub, Read(Resolve(before, sub), 0, 0));
    run, steps := AskAgain(ttl, run, steps, sub);
    assert OwnOf(Resolve(before, sub)) == Found(before, sub);
  }

  /** And that client rows are left out of what is current: a traffic write after the store, and the old ones are served. */
  lemma TrafficIsServedLate(ttl: nat, before: Database, traffic: map<int, seq<ClientTraffic>>, sub: SubId)
    returns (run: seq<World>, steps: seq<Step>)
    requires !SameTraffic(before, before.(traffic := traffic), Found(before, sub))
    ensures IsRun(ttl, run, steps)
    ensures var w := run[|run| - 1];
      var q := RequestOf(w, 1);
      && Rooted(w) && q.Ready? && q.sub == sub && w.unannounced == 0
      && Hit(w, q).Some? && Hit(w, q).value.got.readAt < |w.versions| && InTime(w, q, Hit(w, q).value)
      && Hit(w, q).value.got.rows != Resolve(Now(w), sub)
  {
    run, steps := OneFetch(ttl, before, sub);
    run, steps := Keep(ttl, run, steps, sub, Read(Resolve(before, sub), 0, 0));
    run, steps := Extend(ttl, run, steps, Collect(traffic));
    run, steps := AskAgain(ttl, run, steps, sub);
    var after := before.(traffic := traffic);
    assert OwnOf(Resolve(before, sub)) == Found(before, sub);
    SameRowsIff(before, after, Resolve(before, sub), Found(before, sub), Found(after, sub));
  }
}
