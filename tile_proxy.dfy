/**
 * The tile proxy's in-memory cache: a JavaScript `Map` from `s/z/x/y` to the
 * tile bytes and the time they were fetched, bounded to MAX_TILES entries by
 * deleting the first key in iteration order, which is the oldest inserted.
 *
 * `Map` iteration order is insertion order and `set` on a present key keeps
 * its position, so the cache is a sequence of keys in that order beside a
 * map from key to entry.
 */
module TileProxy {
  import opened Wrappers

  /** Twenty-four hours in milliseconds. */
  const TILE_CACHE_TTL: int := 86400000

  /** The size bound of the cache. */
  const MAX_TILES: nat := 1000

  type Bytes = seq<bv8>

  /** A cached tile: its bytes and the clock reading taken when it was stored. */
  datatype Entry = Entry(data: Bytes, timestamp: int)

  /** The cache contents: keys in `Map` iteration order, and each key's entry. */
  datatype TileState = TileState(order: seq<string>, entries: map<string, Entry>)

  /** What the upstream tile server answered. Failed stands for a rejected fetch or an unreadable body. */
  datatype Upstream = Failed | NotOk(status: int) | Fetched(body: Bytes)

  /** What the handler sends: a tile, the upstream's error status, or a 500 error. */
  datatype TileResponse = Tile(data: Bytes) | UpstreamStatus(status: int) | ServerError

  /** The cache key `${s}/${z}/${x}/${y}` of the route parameters. */
  function CacheKey(s: string, z: string, x: string, y: string): string
  {
    s + "/" + z + "/" + x + "/" + y
  }

  /** The slash after a prefix stands at the prefix's length, and the prefix's characters before it. */
  lemma SlashAt(a: string, r: string, i: int)
    ensures (a + "/" + r)[|a|] == '/'
    ensures 0 <= i < |a| ==> (a + "/" + r)[i] == a[i]
  {
  }

  /** Splitting at the first slash: what precedes it, when it holds no slash, is determined. */
  lemma SlashSplit(a: string, r: string, b: string, t: string)
    requires '/' !in a && '/' !in b
    requires a + "/" + r == b + "/" + t
    ensures a == b && r == t
  {
    var w := a + "/" + r;
    if |a| < |b| {
      SlashAt(a, r, 0);
      SlashAt(b, t, |a|);
      assert false;
    } else if |b| < |a| {
      SlashAt(b, t, 0);
      SlashAt(a, r, |b|);
      assert false;
    }
    assert a == w[..|a|] && b == w[..|b|];
    assert r == w[|a| + 1..] && t == w[|b| + 1..];
  }

  /**
   * Joining is injective on parameters that hold no slash: two such requests
   * share a key exactly when all four parameters are equal.
   */
  lemma CacheKeyInjective(s: string, z: string, x: string, y: string, s': string, z': string, x': string, y': string)
    requires '/' !in s && '/' !in z && '/' !in x && '/' !in y
    requires '/' !in s' && '/' !in z' && '/' !in x' && '/' !in y'
    ensures CacheKey(s, z, x, y) == CacheKey(s', z', x', y') <==> s == s' && z == z' && x == x' && y == y'
  {
    if CacheKey(s, z, x, y) == CacheKey(s', z', x', y') {
      assert CacheKey(s, z, x, y) == s + "/" + (z + "/" + (x + "/" + y));
      assert CacheKey(s', z', x', y') == s' + "/" + (z' + "/" + (x' + "/" + y'));
      SlashSplit(s, z + "/" + (x + "/" + y), s', z' + "/" + (x' + "/" + y'));
      SlashSplit(z, x + "/" + y, z', x' + "/" + y');
      SlashSplit(x, y, x', y');
    }
  }

  /** The upstream address `https://${s}.tile.openstreetmap.org/${z}/${x}/${y}.png`. */
  function TileUrl(s: string, z: string, x: string, y: string): string
  {
    "https://" + s + ".tile.openstreetmap.org/" + z + "/" + x + "/" + y + ".png"
  }

  /**
   * Route parameters are percent-decoded, so `/tiles/a%2Fb/1/2/3.png` arrives
   * as s = "a/b" and `/tiles/a/b%2F1/2/3.png` as z = "b/1": two different
   * upstream tiles that the written key files under one entry.
   */
  lemma CacheKeyCollision()
    ensures CacheKey("a/b", "1", "2", "3") == CacheKey("a", "b/1", "2", "3")
    ensures TileUrl("a/b", "1", "2", "3") != TileUrl("a", "b/1", "2", "3")
  {
    assert TileUrl("a/b", "1", "2", "3")[9] == '/';
    assert TileUrl("a", "b/1", "2", "3")[9] == '.';
  }

  /** A character as `encodeURIComponent` writes the two that matter here: the separator and the escape sign. */
  function EscapeChar(c: char): string
  {
    if c == '/' then "%2F" else if c == '%' then "%25" else [c]
  }

  /** A parameter with every `/` and `%` escaped. */
  function Escape(s: string): (r: string)
    ensures '/' !in r
    ensures |r| >= |s|
  {
    if s == [] then [] else EscapeChar(s[0]) + Escape(s[1..])
  }

  /** Escaping loses nothing: different parameters stay different. */
  lemma {:induction false} EscapeInjective(a: string, b: string)
    requires Escape(a) == Escape(b)
    ensures a == b
  {
    if a != [] && b != [] {
      var ea, eb := EscapeChar(a[0]), EscapeChar(b[0]);
      assert Escape(a) == ea + Escape(a[1..]) && Escape(b) == eb + Escape(b[1..]);
      assert Escape(a)[0] == ea[0] && Escape(b)[0] == eb[0];
      if |ea| == 3 && |eb| == 3 {
        assert Escape(a)[2] == ea[2] && Escape(b)[2] == eb[2];
      }
      assert a[0] == b[0];
      assert Escape(a[1..]) == Escape(a)[|ea|..] == Escape(b)[|eb|..] == Escape(b[1..]);
      EscapeInjective(a[1..], b[1..]);
      assert a == [a[0]] + a[1..] && b == [b[0]] + b[1..];
    }
  }

  /** A parameter with no `/` and no `%` is left as it is. */
  lemma {:induction false} EscapeUnchanged(s: string)
    requires '/' !in s && '%' !in s
    ensures Escape(s) == s
  {
    if s != [] {
      assert s == [s[0]] + s[1..];
      EscapeUnchanged(s[1..]);
      assert s == [s[0]] + s[1..];
    }
  }

  /** The cache key of the escaped parameters: one entry per tile request. */
  function TileKey(s: string, z: string, x: string, y: string): string
  {
    CacheKey(Escape(s), Escape(z), Escape(x), Escape(y))
  }

  /** Two requests share a key exactly when they ask for the same tile, whatever their parameters hold. */
  lemma TileKeyInjective(s: string, z: string, x: string, y: string, s': string, z': string, x': string, y': string)
    ensures TileKey(s, z, x, y) == TileKey(s', z', x', y') <==> s == s' && z == z' && x == x' && y == y'
  {
    CacheKeyInjective(Escape(s), Escape(z), Escape(x), Escape(y), Escape(s'), Escape(z'), Escape(x'), Escape(y'));
    if TileKey(s, z, x, y) == TileKey(s', z', x', y') {
      EscapeInjective(s, s');
      EscapeInjective(z, z');
      EscapeInjective(x, x');
      EscapeInjective(y, y');
    }
  }

  /** For parameters with no `/` and no `%`, which every ordinary tile request has, the key is the written one. */
  lemma TileKeyOrdinary(s: string, z: string, x: string, y: string)
    requires '/' !in s && '%' !in s && '/' !in z && '%' !in z
    requires '/' !in x && '%' !in x && '/' !in y && '%' !in y
    ensures TileKey(s, z, x, y) == CacheKey(s, z, x, y)
  {
    EscapeUnchanged(s);
    EscapeUnchanged(z);
    EscapeUnchanged(x);
    EscapeUnchanged(y);
  }

  /** No key occurs twice in the iteration order. */
  predicate Distinct(order: seq<string>)
  {
    forall i, j :: 0 <= i < j < |order| ==> order[i] != order[j]
  }

  /** The cache invariant: the order lists each key once, exactly the keys present, and there are at most MAX_TILES. */
  predicate ValidState(st: TileState)
  {
    Lists(st.order, st.entries) && |st.order| <= MAX_TILES
  }

  /** A sequence of distinct keys has as many elements as its set of keys. */
  lemma {:induction false} DistinctCount(order: seq<string>)
    requires Distinct(order)
    ensures |set k | k in order| == |order|
  {
    if order != [] {
      var init := order[..|order| - 1];
      var last := order[|order| - 1];
      assert Distinct(init);
      DistinctCount(init);
      assert (set k | k in order) == (set k | k in init) + {last};
      assert last !in init;
    }
  }

  /** The map has one entry per listed key. */
  lemma EntryCount(st: TileState)
    requires ValidState(st)
    ensures |st.entries| == |st.order|
  {
    DistinctCount(st.order);
    assert st.entries.Keys == set k | k in st.order;
  }

  /** The `tileCache.get(cacheKey)` test at time `now`: present and younger than the TTL. */
  function Lookup(st: TileState, key: string, now: int): Option<Bytes>
  {
    if key in st.entries && now - st.entries[key].timestamp < TILE_CACHE_TTL then Some(st.entries[key].data) else None
  }

  /** Whether inserting `key` pushes the size past the bound: a new key into a full cache. */
  predicate Overflows(st: TileState, key: string)
  {
    key !in st.entries && |st.order| == MAX_TILES
  }

  /** The keys in `order` are exactly those of `entries`, each listed once. */
  predicate Lists(order: seq<string>, entries: map<string, Entry>)
  {
    Distinct(order) && entries.Keys == set k | k in order
  }

  /** Deleting the first key from both the order and the map keeps them in step. */
  lemma DropFirstLists(order: seq<string>, entries: map<string, Entry>)
    requires Lists(order, entries) && |order| > 0
    ensures Lists(order[1..], entries - {order[0]})
  {
    forall k | k in entries && k != order[0] ensures k in order[1..] {
      assert k in order;
      var i :| 0 <= i < |order| && order[i] == k;
      assert order[1..][i - 1] == k;
    }
  }

  /** `Map.set`: a new key goes to the end of the order, a present one keeps its place. */
  lemma SetLists(order: seq<string>, entries: map<string, Entry>, key: string, e: Entry)
    requires Lists(order, entries)
    ensures Lists(if key in entries then order else order + [key], entries[key := e])
  {
  }

  /**
   * `tileCache.set(key, e)` followed by the size check that deletes the first
   * key when the size is above MAX_TILES: the new entry is present.
   * InsertedValid shows the invariant holds again, InsertedEffect and
   * InsertedOrder state what else changes.
   */
  function Inserted(st: TileState, key: string, e: Entry): (r: TileState)
    requires ValidState(st)
    ensures key in r.entries && r.entries[key] == e
  {
    var entries := st.entries[key := e];
    var order := if key in st.entries then st.order else st.order + [key];
    assert |entries| > MAX_TILES <==> Overflows(st, key) by {
      EntryCount(st);
    }
    if |entries| > MAX_TILES then
      assert st.order[0] in st.entries;
      TileState(order[1..], entries - {order[0]})
    else
      TileState(order, entries)
  }

  /** After set-and-evict the invariant holds again. */
  lemma InsertedValid(st: TileState, key: string, e: Entry)
    requires ValidState(st)
    ensures ValidState(Inserted(st, key, e))
  {
    var entries := st.entries[key := e];
    var order := if key in st.entries then st.order else st.order + [key];
    SetLists(st.order, st.entries, key, e);
    EntryCount(st);
    if |entries| > MAX_TILES {
      DropFirstLists(order, entries);
    }
  }

  /** The three shapes an insert can take: an update in place, an append, or an append with the oldest key evicted. */
  lemma InsertedShape(st: TileState, key: string, e: Entry)
    requires ValidState(st)
    ensures Inserted(st, key, e) ==
      if key in st.entries then TileState(st.order, st.entries[key := e])
      else if Overflows(st, key) then TileState(st.order[1..] + [key], st.entries[key := e] - {st.order[0]})
      else TileState(st.order + [key], st.entries[key := e])
  {
    EntryCount(st);
    if key !in st.entries && Overflows(st, key) {
      assert (st.order + [key])[1..] == st.order[1..] + [key];
    }
  }

  /** `Map.set`: the key is added, every other entry is as before. */
  lemma UpdateEffect(m: map<string, Entry>, key: string, e: Entry)
    ensures m[key := e].Keys == m.Keys + {key}
    ensures forall k :: k in m[key := e] && k != key ==> k in m && m[key := e][k] == m[k]
  {
  }

  /** `Map.set` of a new key, then `Map.delete` of another one. */
  lemma EvictEffect(m: map<string, Entry>, key: string, e: Entry, oldest: string)
    requires oldest in m && key !in m
    ensures (m[key := e] - {oldest}).Keys == m.Keys - {oldest} + {key}
    ensures forall k :: k in m[key := e] - {oldest} && k != key ==> k in m && (m[key := e] - {oldest})[k] == m[k]
  {
  }

  /**
   * Only on overflow is a key removed, and then exactly one, the oldest; every
   * other entry keeps its value.
   */
  lemma InsertedEffect(st: TileState, key: string, e: Entry)
    requires ValidState(st)
    ensures var r := Inserted(st, key, e);
      && (Overflows(st, key) ==> |st.order| > 0 && r.entries.Keys == st.entries.Keys - {st.order[0]} + {key})
      && (!Overflows(st, key) ==> r.entries.Keys == st.entries.Keys + {key})
      && (forall k :: k in r.entries && k != key ==> k in st.entries && r.entries[k] == st.entries[k])
  {
    InsertedShape(st, key, e);
    if Overflows(st, key) {
      assert st.order[0] in st.entries;
      EvictEffect(st.entries, key, e, st.order[0]);
    } else {
      UpdateEffect(st.entries, key, e);
    }
  }

  /**
   * A key already present keeps its place; a new one goes last, after the
   * remaining keys in their old order.
   */
  lemma InsertedOrder(st: TileState, key: string, e: Entry)
    requires ValidState(st)
    ensures key in st.entries ==> Inserted(st, key, e).order == st.order
    ensures key !in st.entries ==>
      Inserted(st, key, e).order == (if Overflows(st, key) then st.order[1..] else st.order) + [key]
  {
    InsertedShape(st, key, e);
  }

  /** A tile stored at `t` is served from the cache exactly while it is younger than the TTL. */
  lemma InsertedThenLookup(st: TileState, key: string, data: Bytes, t: int, now: int)
    requires ValidState(st)
    ensures Lookup(Inserted(st, key, Entry(data, t)), key, now) == if now - t < TILE_CACHE_TTL then Some(data) else None
  {
  }

  /** An insert changes no other key's lookup, except that an overflow evicts the oldest key. */
  lemma InsertedKeepsOthers(st: TileState, key: string, e: Entry, other: string, now: int)
    requires ValidState(st)
    requires other != key
    ensures Lookup(Inserted(st, key, e), other, now) ==
      if Overflows(st, key) && other == st.order[0] then None else Lookup(st, other, now)
  {
    InsertedEffect(st, key, e);
    var r := Inserted(st, key, e);
    if Overflows(st, key) && other == st.order[0] {
      assert other !in r.entries;
    } else {
      assert other in r.entries <==> other in st.entries;
    }
  }

  /**
   * Once full, the cache stays at exactly MAX_TILES entries whatever is
   * inserted, and below that an insert adds at most one entry.
   */
  lemma {:induction false} InsertedSize(st: TileState, key: string, e: Entry)
    requires ValidState(st)
    ensures |Inserted(st, key, e).entries| == if key in st.entries || |st.order| == MAX_TILES then |st.order| else |st.order| + 1
  {
    EntryCount(st);
    InsertedValid(st, key, e);
    EntryCount(Inserted(st, key, e));
  }

  /** The module-level `tileCache`. */
  class TileCache {
    var order: seq<string>
    var entries: map<string, Entry>

    function State(): TileState
      reads this
    {
      TileState(order, entries)
    }

    predicate Valid()
      reads this
    {
      ValidState(State())
    }

    constructor ()
      ensures Valid() && State() == TileState([], map[])
    {
      order := [];
      entries := map[];
    }

    /** `tileCache.set`, then the deletion of the first key when the size exceeds MAX_TILES. */
    method Set(key: string, e: Entry)
      requires Valid()
      modifies this
      ensures Valid()
      ensures State() == Inserted(old(State()), key, e)
    {
      EntryCount(State());
      if key !in entries {
        order := order + [key];
      }
      entries := entries[key := e];
      if |entries| > MAX_TILES {
        var oldestKey := order[0];
        order := order[1..];
        entries := entries - {oldestKey};
      }
      assert State() == Inserted(old(State()), key, e);
      InsertedValid(old(State()), key, e);
    }

    /**
     * One GET /tiles/:s/:z/:x/:y.png. `now` is the clock at the lookup,
     * `upstream` what the tile server answered on a miss, and `storedAt` the
     * clock when the fetched tile is stored. The entry is filed under
     * TileKey, which on ordinary parameters is the written key (TileKeyOrdinary).
     */
    method Serve(s: string, z: string, x: string, y: string, now: int, upstream: Upstream, storedAt: int)
      returns (resp: TileResponse)
      requires Valid()
      modifies this
      ensures Valid()
      ensures var key := TileKey(s, z, x, y);
        match Lookup(old(State()), key, now)
        case Some(data) => resp == Tile(data) && State() == old(State())
        case None =>
          match upstream
          case Failed => resp == ServerError && State() == old(State())
          case NotOk(status) => resp == UpstreamStatus(status) && State() == old(State())
          case Fetched(body) => resp == Tile(body) && State() == Inserted(old(State()), key, Entry(body, storedAt))
    {
      var cacheKey := TileKey(s, z, x, y);
      var cached := Lookup(State(), cacheKey, now);
      if cached.Some? {
        return Tile(cached.value);
      }
      match upstream
      case Failed =>
        return ServerError;
      case NotOk(status) =>
        return UpstreamStatus(status);
      case Fetched(buffer) =>
        Set(cacheKey, Entry(buffer, storedAt));
        return Tile(buffer);
    }
  }
}
