/**
 The subscription cache as objects on the heap: private copies of the looked-up inbounds, handed out only as further
 copies, in a map that cannot outgrow its bound.
 */
module InboundCache {
  import opened Prelude

  datatype ClientTraffic = ClientTraffic(email: string, up: int, down: int)

  /** An inbound's own columns: its id, the fields callers rewrite, and everything else. */
  datatype Columns = Columns(id: int, listen: string, port: int, streamSettings: string, rest: string)

  /** What an inbound holds: its columns, and its client rows if they were loaded. */
  datatype Row = Row(own: Columns, stats: Option<seq<ClientTraffic>>)

  class Inbound {
    var id: int
    var listen: string
    var port: int
    var streamSettings: string
    var rest: string
    var stats: array?<ClientTraffic>

    constructor (own: Columns, stats: array?<ClientTraffic>)
      ensures Own() == own && this.stats == stats
    {
      id, listen, port := own.id, own.listen, own.port;
      streamSettings, rest, this.stats := own.streamSettings, own.rest, stats;
    }

    function Own(): Columns
      reads this
    {
      Columns(id, listen, port, streamSettings, rest)
    }

    function Value(): Row
      reads this, stats
    {
      Row(Own(), if stats == null then None else Some(stats[..]))
    }
  }

  /** The inbounds hold these rows, and they and their client rows are all among `repr`. */
  ghost predicate Holds(inbounds: seq<Inbound>, rows: seq<Row>, repr: set<object>)
    reads repr
  {
    && |inbounds| == |rows|
    && forall i :: 0 <= i < |inbounds| ==>
         && inbounds[i] in repr && (inbounds[i].stats != null ==> inbounds[i].stats in repr)
         && inbounds[i].Value() == rows[i]
  }

  /** The rows of a list that may have gaps. */
  function Rows(src: seq<Inbound?>): seq<Row>
    reads src
    reads set ib: Inbound? | ib in src && ib != null && ib.stats != null :: ib.stats
    decreases |src|
  {
    if src == [] then []
    else
      assert forall ib :: ib in src[..|src| - 1] ==> ib in src;
      assert src[|src| - 1] in src;
      Rows(src[..|src| - 1]) + if src[|src| - 1] == null then [] else [src[|src| - 1].Value()]
  }

  method CloneOne(ib: Inbound) returns (clone: Inbound)
    ensures fresh(clone) && (clone.stats != null ==> fresh(clone.stats))
    ensures clone.Value() == ib.Value()
  {
    var stats: array?<ClientTraffic> := null;
    if ib.stats != null {
      var s := ib.stats[..];
      stats := new ClientTraffic[|s|](i requires 0 <= i < |s| => s[i]);
      assert stats[..] == s;
    }
    clone := new Inbound(ib.Own(), stats);
  }

  /** `repr` is what the copies consist of: nothing that existed before. */
  method CloneInbounds(src: seq<Inbound?>) returns (out: seq<Inbound>, ghost repr: set<object>)
    ensures fresh(repr) && Holds(out, Rows(src), repr)
    ensures old(Rows(src)) == Rows(src)
  {
    out, repr := [], {};
    for i := 0 to |src|
      invariant fresh(repr) && Holds(out, Rows(src[..i]), repr)
      invariant old(Rows(src)) == Rows(src)
    {
      assert src[..i + 1][..i] == src[..i];
      if src[i] == null {
        continue;
      }
      var clone := CloneOne(src[i]);
      out := out + [clone];
      repr := repr + {clone} + if clone.stats != null then {clone.stats} else {};
    }
    assert src[..|src|] == src;
  }

  // ---- the bounded map ----

  const CACHE_MAX_ENTRIES := 1024

  /** Room for one more: with too many entries the expired ones go, and everything if that does not help. */
  function MakeRoom<E>(m: map<string, E>, expired: set<string>): map<string, E> {
    if |m| < CACHE_MAX_ENTRIES then m
    else if |m - expired| < CACHE_MAX_ENTRIES then m - expired
    else map[]
  }

  lemma RoomIsEnough<E>(m: map<string, E>, expired: set<string>, key: string, e: E)
    ensures |MakeRoom(m, expired)| < CACHE_MAX_ENTRIES
    ensures |MakeRoom(m, expired)[key := e]| <= CACHE_MAX_ENTRIES
    ensures forall k :: k in MakeRoom(m, expired) ==> k in m && MakeRoom(m, expired)[k] == m[k]
  {
    var r := MakeRoom(m, expired);
    assert r[key := e].Keys == r.Keys + {key};
    assert |r[key := e]| == |r[key := e].Keys| && |r| == |r.Keys|;
  }

  /** The process-wide generation of inbound data. */
  class Generation {
    var value: nat

    constructor ()
      ensures value == 0
    {
      value := 0;
    }

    method Bump()
      modifies this
      ensures value == old(value) + 1
    {
      value := value + 1;
    }

    function Current(): nat
      reads this
    {
      value
    }
  }

  datatype Entry = Entry(inbounds: seq<Inbound>, generation: nat, expiresAt: int)

  /** What an entry amounts to. */
  datatype Cached = Cached(rows: seq<Row>, generation: nat, expiresAt: int)

  predicate Usable(c: Cached, generation: nat, now: int) {
    c.generation == generation && now <= c.expiresAt
  }

  /** An entry amounts to this, and what it consists of is among `repr`. */
  ghost predicate Matches(e: Entry, c: Cached, repr: set<object>)
    reads repr
  {
    Holds(e.inbounds, c.rows, repr) && e.generation == c.generation && e.expiresAt == c.expiresAt
  }

  ghost predicate AllMatch(entries: map<string, Entry>, view: map<string, Cached>, repr: set<object>)
    reads repr
  {
    entries.Keys <= view.Keys && forall k :: k in entries ==> Matches(entries[k], view[k], repr)
  }

  lemma MatchesAmongMore(e: Entry, c: Cached, repr: set<object>, more: set<object>)
    requires Matches(e, c, repr)
    ensures Matches(e, c, repr + more)
  {
  }

  function Expired(view: map<string, Cached>, now: int): set<string> {
    set k | k in view && now > view[k].expiresAt
  }

  class Cache {
    var entries: map<string, Entry>
    ghost var view: map<string, Cached>
    ghost var repr: set<object>

    ghost predicate Valid()
      reads this, repr
    {
      && this !in repr
      && entries.Keys == view.Keys
      && |view| <= CACHE_MAX_ENTRIES
      && AllMatch(entries, view, repr)
    }

    constructor ()
      ensures Valid() && view == map[] && fresh(repr)
    {
      entries, view, repr := map[], map[], {};
    }

    /** `now` and `generation` are as read before the lock was taken. */
    method Lookup(subId: string, now: int, generation: nat) returns (hit: Option<seq<Inbound>>, ghost owned: set<object>)
      requires Valid()
      modifies this
      ensures Valid() && repr == old(repr)
      ensures hit.Some? <==> subId in old(view) && Usable(old(view)[subId], generation, now)
      ensures view == if hit.Some? then old(view) else old(view) - {subId}
      ensures fresh(owned) && (hit.Some? ==> Holds(hit.value, old(view)[subId].rows, owned))
    {
      owned := {};
      if subId !in entries {
        assert view == view - {subId};
        return None, owned;
      }
      var entry := entries[subId];
      if entry.generation != generation || now > entry.expiresAt {
        entries := entries - {subId};
        view := view - {subId};
        FewerEntries(old(view), subId);
        return None, owned;
      }
      var out;
      out, owned := CloneInbounds(entry.inbounds);
      RowsOfHeld(entry.inbounds, view[subId].rows, repr);
      return Some(out), owned;
    }

    /** Entries go, none changes. */
    ghost predicate Thinned(was: map<string, Entry>, wasView: map<string, Cached>)
      reads `entries, `view
    {
      && entries.Keys == view.Keys && entries.Keys <= was.Keys && view.Keys <= wasView.Keys
      && forall k :: k in entries ==> entries[k] == was[k] && view[k] == wasView[k]
    }

    ghost predicate ExpiriesAgree()
      reads `entries, `view
    {
      entries.Keys == view.Keys && forall k :: k in entries ==> entries[k].expiresAt == view[k].expiresAt
    }

    method DropExpired(now: int)
      requires ExpiriesAgree()
      modifies `entries, `view
      ensures Thinned(old(entries), old(view))
      ensures view.Keys == old(view).Keys - Expired(old(view), now)
    {
      var rest := entries.Keys;
      while rest != {}
        invariant Thinned(old(entries), old(view)) && rest <= entries.Keys
        invariant view.Keys == old(view).Keys - (Expired(old(view), now) - rest)
      {
        ghost var some := SomeMember(rest);
        var key :| key in rest;
        if now > entries[key].expiresAt {
          entries := entries - {key};
          view := view - {key};
        }
        rest := rest - {key};
      }
    }

    twostate lemma ThinnedIsValid()
      requires old(Valid()) && Thinned(old(entries), old(view)) && repr == old(repr) && unchanged(repr)
      ensures Valid()
    {
      forall k | k in entries ensures Matches(entries[k], view[k], repr) {
        assert old(Matches(entries[k], view[k], repr));
      }
      SubsetOfSameSize(view.Keys, old(view).Keys);
      assert |view| == |view.Keys| && |old(view)| == |old(view).Keys|;
    }

    method MakeRoomFor(now: int)
      requires Valid()
      modifies `entries, `view
      ensures Valid() && view == MakeRoom(old(view), Expired(old(view), now))
    {
      assert |entries| == |entries.Keys| == |view.Keys| == |view|;
      if |entries| >= CACHE_MAX_ENTRIES {
        assert AllMatch(entries, view, repr);
        DropExpired(now);
        assert view == old(view) - Expired(old(view), now);
        ThinnedIsValid();
        assert |entries| == |entries.Keys| == |view.Keys| == |view|;
        if |entries| >= CACHE_MAX_ENTRIES {
          entries := map[];
          view := map[];
        }
      }
    }

    /** `evictedAt` is the time read when there was no room. */
    method Store(subId: string, inbounds: seq<Inbound?>, generation: nat, expiresAt: int, evictedAt: int)
      requires Valid()
      modifies this
      ensures Valid() && fresh(repr - old(repr))
      ensures view == MakeRoom(old(view), Expired(old(view), evictedAt))
                      [subId := Cached(old(Rows(inbounds)), generation, expiresAt)]
    {
      ghost var rows := Rows(inbounds);
      var copies, copied := CloneInbounds(inbounds);
      MakeRoomFor(evictedAt);
      RoomIsEnough(old(view), Expired(old(view), evictedAt), subId, Cached(rows, generation, expiresAt));
      PutEntry(subId, Entry(copies, generation, expiresAt), Cached(rows, generation, expiresAt), copied);
    }

    method PutEntry(subId: string, entry: Entry, ghost cached: Cached, ghost copied: set<object>)
      requires Valid() && this !in copied && Matches(entry, cached, copied)
      requires |view[subId := cached]| <= CACHE_MAX_ENTRIES
      modifies this
      ensures Valid() && repr == old(repr) + copied && view == old(view)[subId := cached]
    {
      ghost var all := repr + copied;
      StillMatch(subId, entry, cached, copied, entries[subId := entry], view[subId := cached]);
      repr := all;
      entries := entries[subId := entry];
      view := view[subId := cached];
      assert AllMatch(entries, view, all);
    }

    /** One new entry among objects of its own. */
    lemma StillMatch(subId: string, entry: Entry, cached: Cached, copied: set<object>, es: map<string, Entry>, v: map<string, Cached>)
      requires Valid() && Matches(entry, cached, copied)
      requires es == entries[subId := entry] && v == view[subId := cached]
      ensures AllMatch(es, v, repr + copied)
    {
      forall k | k in es ensures Matches(es[k], v[k], repr + copied) {
        if k == subId {
          MatchesAmongMore(entry, cached, copied, repr);
          assert copied + repr == repr + copied;
        } else {
          MatchesAmongMore(entries[k], view[k], repr, copied);
        }
      }
    }
  }

  lemma FewerEntries(m: map<string, Cached>, k: string)
    ensures |m - {k}| <= |m|
  {
    SubsetOfSameSize((m - {k}).Keys, m.Keys);
    assert |m - {k}| == |(m - {k}).Keys| && |m| == |m.Keys|;
  }

  lemma {:induction false} RowsOfHeld(inbounds: seq<Inbound>, rows: seq<Row>, repr: set<object>)
    requires Holds(inbounds, rows, repr)
    ensures Rows(inbounds) == rows
    decreases |inbounds|
  {
    if inbounds != [] {
      RowsOfHeld(inbounds[..|inbounds| - 1], rows[..|inbounds| - 1], repr);
    }
  }

  /**
   A hit, then anything at all done to what it returned, then the same lookup while the entry is still usable: the
   second hit holds the very rows the first did.
   */
  method HitMutateHit(cache: Cache, subId: string, now: int, later: int, generation: nat, written: seq<Row>)
    returns (first: Option<seq<Inbound>>, second: Option<seq<Inbound>>, ghost owned: set<object>)
    requires cache.Valid()
    requires subId in cache.view && Usable(cache.view[subId], generation, now) && Usable(cache.view[subId], generation, later)
    modifies cache
    ensures cache.Valid() && cache.view == old(cache.view)
    ensures first.Some? && second.Some? && fresh(owned) && Holds(second.value, old(cache.view)[subId].rows, owned)
  {
    ghost var mine;
    first, mine := cache.Lookup(subId, now, generation);
    OverwriteAll(first.value, mine, written);
    second, owned := cache.Lookup(subId, later, generation);
  }

  /** Rewrites inbounds that consist of the objects in `mine`. */
  method OverwriteAll(inbounds: seq<Inbound>, ghost mine: set<object>, written: seq<Row>)
    requires forall j :: 0 <= j < |inbounds| ==> Consists(inbounds[j], mine)
    modifies mine
  {
    for i := 0 to |inbounds|
      invariant forall j :: 0 <= j < |inbounds| ==> Consists(inbounds[j], mine)
    {
      if i < |written| {
        Overwrite(inbounds[i], written[i]);
      }
    }
  }

  ghost predicate Consists(ib: Inbound, repr: set<object>)
    reads ib
  {
    ib in repr && (ib.stats != null ==> ib.stats in repr)
  }

  /** Rewrites an inbound's columns and as many of its client rows as are given. */
  method Overwrite(ib: Inbound, row: Row)
    modifies ib, ib.stats
    ensures ib.stats == old(ib.stats)
  {
    ib.id, ib.listen, ib.port := row.own.id, row.own.listen, row.own.port;
    ib.streamSettings, ib.rest := row.own.streamSettings, row.own.rest;
    if ib.stats != null && row.stats.Some? {
      for k := 0 to ib.stats.Length
        invariant ib.stats == old(ib.stats)
      {
        if k < |row.stats.value| {
          ib.stats[k] := row.stats.value[k];
        }
      }
    }
  }
}
