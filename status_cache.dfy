/**
 * The in-memory `sdrCache` of the `/api/sdrs` handler: a snapshot
 * `{last_checked, sdr_status}` that a request reuses while it is younger than
 * CACHE_TTL and otherwise replaces wholesale with a freshly probed one.
 *
 * Timestamps are milliseconds since the epoch. The snapshot keeps the instant
 * its `last_checked` label denotes: the refresh time with its milliseconds
 * dropped, which is what parsing the label back gives on a UTC host.
 */
module StatusCache {
  import opened Wrappers
  import opened StationCheck

  /** Ten minutes in milliseconds. */
  const CACHE_TTL: int := 600000

  /** Milliseconds per second: the resolution of `last_checked`. */
  const MS_PER_SECOND: int := 1000

  /** The cache value: `last_checked` (None is JSON null) and `sdr_status`. */
  datatype Snapshot = Snapshot(lastChecked: Option<int>, sdrStatus: seq<StatusResult>)

  /** The value the server starts with. */
  const INITIAL: Snapshot := Snapshot(None, [])

  /** What the handler sends: the cache as JSON, or a 500 error. */
  datatype Response = Served(body: Snapshot) | ServerError

  /** The refresh time truncated to a whole second, as the label keeps it. */
  function SecondFloor(t: int): (r: int)
    ensures r <= t < r + MS_PER_SECOND
    ensures r % MS_PER_SECOND == 0
  {
    t - t % MS_PER_SECOND
  }

  /** A request at `now` may reuse the snapshot: `last_checked` is set and the age is below the TTL. */
  predicate IsFresh(s: Snapshot, now: int)
  {
    s.lastChecked.Some? && now - s.lastChecked.value < CACHE_TTL
  }

  /** The snapshot built by a refresh at `refreshedAt` over the configured locations and their probes. */
  function Refreshed(locs: seq<Location>, probes: seq<Probe>, refreshedAt: int): (s: Snapshot)
    requires |probes| == |locs|
    ensures s.lastChecked.Some? && s.lastChecked.value <= refreshedAt < s.lastChecked.value + MS_PER_SECOND
    ensures s.lastChecked.value % MS_PER_SECOND == 0
    ensures |s.sdrStatus| == |locs|
    ensures forall i :: 0 <= i < |locs| ==> s.sdrStatus[i] == Classify(locs[i], probes[i])
  {
    AggregateRecords(locs, probes);
    Snapshot(Some(SecondFloor(refreshedAt)), Aggregate(locs, probes))
  }

  /**
   * After a refresh at `refreshedAt` the snapshot serves every request up to
   * CACHE_TTL - 1000 ms later and none from CACHE_TTL ms on: dropping the
   * milliseconds shortens the window by up to a second. A never-refreshed
   * cache is stale at every time.
   */
  lemma FreshWindow(locs: seq<Location>, probes: seq<Probe>, refreshedAt: int, later: int)
    requires |probes| == |locs|
    ensures later - refreshedAt <= CACHE_TTL - MS_PER_SECOND ==> IsFresh(Refreshed(locs, probes, refreshedAt), later)
    ensures later - refreshedAt >= CACHE_TTL ==> !IsFresh(Refreshed(locs, probes, refreshedAt), later)
    ensures !IsFresh(INITIAL, later)
  {
  }

  /** One hour in milliseconds, the unit of a host's offset from UTC. */
  const MS_PER_HOUR: int := 3600000

  /**
   * The instant `new Date(last_checked)` yields on a host whose local time is
   * UTC + offset: the label holds UTC wall-clock digits without a zone, and
   * such a string is read as local time.
   */
  function ParsedOnHost(stamp: int, offset: int): int
  {
    stamp - offset
  }

  /** The freshness test as written, on a host at UTC + offset. */
  predicate IsFreshOnHost(s: Snapshot, now: int, offset: int)
  {
    s.lastChecked.Some? && now - ParsedOnHost(s.lastChecked.value, offset) < CACHE_TTL
  }

  /**
   * Off UTC the ten-minute window moves by the host's offset: at UTC+2 a
   * snapshot is stale one second after its refresh, so every request probes
   * every station; at UTC-5 it is still served five hours later. On a UTC
   * host the test is IsFresh.
   */
  lemma HostOffsetShiftsWindow(locs: seq<Location>, probes: seq<Probe>, refreshedAt: int, now: int)
    requires |probes| == |locs|
    ensures !IsFreshOnHost(Refreshed(locs, probes, refreshedAt), refreshedAt + MS_PER_SECOND, 2 * MS_PER_HOUR)
    ensures IsFreshOnHost(Refreshed(locs, probes, refreshedAt), refreshedAt + 5 * MS_PER_HOUR, -5 * MS_PER_HOUR)
    ensures IsFreshOnHost(Refreshed(locs, probes, refreshedAt), now, 0) == IsFresh(Refreshed(locs, probes, refreshedAt), now)
  {
  }

  /**
   * The refresh: one task per location, joined in location order, and the new
   * snapshot stamped with the refresh time.
   */
  method Refresh(locations: seq<Location>, probes: seq<Probe>, refreshedAt: int) returns (s: Snapshot)
    requires |probes| == |locations|
    ensures s == Refreshed(locations, probes, refreshedAt)
  {
    var sdrStatus: seq<StatusResult> := [];
    var i := 0;
    while i < |locations|
      invariant 0 <= i <= |locations|
      invariant sdrStatus == Aggregate(locations[..i], probes[..i])
    {
      var result := CheckLocation(locations[i], probes[i]);
      sdrStatus := sdrStatus + [result];
      assert locations[..i + 1][..i] == locations[..i] && probes[..i + 1][..i] == probes[..i];
      i := i + 1;
    }
    assert locations[..i] == locations && probes[..i] == probes;
    s := Snapshot(Some(SecondFloor(refreshedAt)), sdrStatus);
  }

  /** The server's cache variable. */
  class SdrCache {
    var current: Snapshot

    constructor ()
      ensures current == INITIAL
    {
      current := INITIAL;
    }

    /**
     * One GET /api/sdrs at time `now`. When the snapshot is stale, `config` is
     * the result of reading locations.json (None: any config on which the
     * handler ends in its outer catch with the cache unchanged: unreadable,
     * not JSON, not an array, or holding a null entry), `probes[i]` the outcome of probing location i, `refreshedAt` the clock
     * when all probes have settled, and `persisted` whether writing data.json
     * succeeded. A failed write comes after the cache was replaced.
     */
    method Get(now: int, config: Option<seq<Location>>, probes: seq<Probe>, refreshedAt: int, persisted: bool)
      returns (resp: Response)
      requires config.Some? ==> |probes| == |config.value|
      modifies this
      ensures IsFresh(old(current), now) ==> resp == Served(old(current)) && current == old(current)
      ensures !IsFresh(old(current), now) && config.None? ==> resp == ServerError && current == old(current)
      ensures !IsFresh(old(current), now) && config.Some? ==>
        && current == Refreshed(config.value, probes, refreshedAt)
        && resp == (if persisted then Served(current) else ServerError)
    {
      if current.lastChecked.Some? {
        var cacheAge := now - current.lastChecked.value;
        if cacheAge < CACHE_TTL {
          return Served(current);
        }
      }
      if config.None? {
        return ServerError;
      }
      current := Refresh(config.value, probes, refreshedAt);
      if !persisted {
        return ServerError;
      }
      return Served(current);
    }
  }

  /** The position of the first `c` in s, or |s| when there is none. */
  function FirstIndexOf(s: string, c: char): (k: nat)
    ensures k <= |s|
    ensures forall j :: 0 <= j < k ==> s[j] != c
    ensures k < |s| ==> s[k] == c
  {
    if s == [] then 0 else if s[0] == c then 0 else 1 + FirstIndexOf(s[1..], c)
  }

  /** `String.prototype.replace` with a one-character pattern: only the first occurrence changes. */
  function ReplaceFirst(s: string, from: char, to: char): (r: string)
    ensures |r| == |s|
    ensures forall i :: 0 <= i < |s| ==> r[i] == if i == FirstIndexOf(s, from) then to else s[i]
  {
    if s == [] then
      []
    else if s[0] == from then
      [to] + s[1..]
    else
      [s[0]] + ReplaceFirst(s[1..], from, to)
  }

  /** `new Date().toISOString().replace('T', ' ').substring(0, 19)`, given the ISO string. */
  function LastCheckedLabel(iso: string): (text: string)
    ensures |text| == if |iso| < 19 then |iso| else 19
    ensures |iso| < 19 ==> text == ReplaceFirst(iso, 'T', ' ')
  {
    var replaced := ReplaceFirst(iso, 'T', ' ');
    replaced[..if |replaced| < 19 then |replaced| else 19]
  }

  predicate IsDigit(c: char)
  {
    '0' <= c <= '9'
  }

  /** What `toISOString` produces for years 0 to 9999: `YYYY-MM-DDTHH:MM:SS.sssZ`. */
  predicate IsIsoInstant(s: string)
  {
    && |s| == 24
    && s[4] == '-' && s[7] == '-' && s[10] == 'T' && s[13] == ':' && s[16] == ':' && s[19] == '.' && s[23] == 'Z'
    && forall i :: 0 <= i < 24 && i != 4 && i != 7 && i != 10 && i != 13 && i != 16 && i != 19 && i != 23 ==> IsDigit(s[i])
  }

  /** The `last_checked` shape `YYYY-MM-DD HH:MM:SS`. */
  predicate IsLabel(s: string)
  {
    && |s| == 19
    && s[4] == '-' && s[7] == '-' && s[10] == ' ' && s[13] == ':' && s[16] == ':'
    && forall i :: 0 <= i < 19 && i != 4 && i != 7 && i != 10 && i != 13 && i != 16 ==> IsDigit(s[i])
  }

  /**
   * On an ISO instant the label keeps the date, puts a space where the `T`
   * was, keeps the time to the second and drops the milliseconds and the `Z`.
   */
  lemma LabelOfIsoInstant(iso: string)
    requires IsIsoInstant(iso)
    ensures LastCheckedLabel(iso) == iso[..10] + " " + iso[11..19]
    ensures IsLabel(LastCheckedLabel(iso))
  {
    assert FirstIndexOf(iso, 'T') == 10;
  }
}
