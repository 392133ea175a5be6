# WebRX server core, modelled in Dafny

WebRX is an Express server for a map of amateur-radio WebSDR stations. Two
pieces of its logic are modelled here, with the HTTP, file and network
plumbing abstracted into parameters:

- **Station status** (`GET /api/sdrs`). Every configured location is probed at
  `<sdrlink>/status.json` and classified into a record
  `{id, status, ping, frequencies}`. Status 0 means offline, 1 means reachable
  with no receivers, and 2 means online with the receivers' profile centre
  frequencies, sorted. The records are assembled in location order into the
  `sdrCache` snapshot `{last_checked, sdr_status}`. A request reuses that
  snapshot while it is younger than ten minutes. Otherwise it replaces it
  wholesale.
- **Tile proxy cache** (`GET /tiles/:s/:z/:x/:y.png`). An in-memory `Map` from
  `s/z/x/y` to the tile bytes and their fetch time. An entry younger than
  24 hours is served without a fetch. A successful fetch inserts the entry. When
  the cache grows past 1000 entries, the oldest-inserted key is deleted.

Files:

- `wrappers.dfy`: `Option`.
- `sorting.dfy`: the numeric `Array.prototype.sort`. Any sorting algorithm
  gives the one ascending permutation, so an insertion sort stands for the
  engine's.
- `station_check.dfy`: the probe payload as datatypes, and the frequency
  rounding and collection. Also the pure classification `Classify` and the
  statement-by-statement methods proved equal to it. `PushProfileFreqs` is the
  inner loop, `PushReceiverFreqs` one pass of the outer loop,
  `CollectFrequencies` the outer loop and `CheckLocation` the whole
  per-location task. `Aggregate` is the location-ordered `map`.
- `status_cache.dfy`: the class `SdrCache`, whose field `current` is the
  reassigned snapshot. Also freshness and the `last_checked` label.
- `tile_proxy.dfy`: the cache key, the class `TileCache`, holding the key order
  and the entry map. Its methods `Set` and `Serve` are proved against the pure `Inserted`
  and `Lookup`, and the lemmas about those state the eviction properties.

Modelling conventions:

- Frequencies are integer tenths of a MHz, so 145.5 MHz is `1455`. The rounding
  `Math.round(hz / 100000)` becomes `(hz + 50000) / 100000` on integers. This
  is floor division, and for `Math.round` it is the same as rounding halves up.
- Timestamps are integer milliseconds. The snapshot keeps the instant that its
  `last_checked` label denotes, which is the refresh time with its milliseconds
  dropped.
- A JSON object is modelled by its values in `Object.values` order. A JSON
  `null` where the loops read a property (`data.sdrs`, `sdr.profiles`,
  `profile.center_freq`) throws a TypeError inside the `try`. The model
  classifies it as offline, as the `catch` does.
- `center_freq` counts only when it is truthy, so a value of 0 contributes no
  frequency.

What the code does, and so what the model does:

- each station gets one attempt, with a 2000 ms probe timeout and no retry;
- the status cache TTL is 600000 ms;
- a refresh happens only inside a request: there is no refresh timer and no lock;
- tile parameters are not validated.

## Model

| member | source | states |
|---|---|---|
| `Sorting.InsertSortedSpec` | src/server.js:67 | inserting into a sorted list keeps it sorted and adds exactly that value |
| `Sorting.SortAscendingSpec` | src/server.js:67 | `SortAscending`, the numeric sort, returns a non-decreasing permutation of its input |
| `Sorting.SortedPermutationUnique` | src/server.js:67 | two sorted permutations of the same values are equal, so every sort algorithm gives the same list |
| `StationCheck.TenthsNearest` | src/server.js:62 | `Tenths(hz)`, the rounded value, is t exactly when t·100000 − 50000 ≤ hz < t·100000 + 50000: the nearest 0.1 MHz, halves rounded up |
| `StationCheck.Classify` | src/server.js:50-73 | every record carries its location's id and status 0, 1 or 2. Status 0 has a null ping and no frequencies. Status 1 has a ping and no frequencies. Status 2 has a ping |
| `StationCheck.ClassifyOutcomes` | src/server.js:50-73 | gives the exact condition for each status. Offline: network error, non-ok response, null body, or a null receiver or profile. Status 1: `sdrs` missing or empty. Status 2: non-empty `sdrs`, even with no frequencies. A failed probe yields `{id, 0, null, []}`, any other status carries the measured ping, and status-2 frequencies are a sorted permutation of the pushed values |
| `StationCheck.ClassifyOnline` | src/server.js:57-68 | a non-empty `sdrs` whose loops meet no null yields status 2 with the measured ping and the sorted collected frequencies |
| `StationCheck.ExampleNoReceivers` | src/server.js:57-70 | `{sdrs: {}}` yields status 1 with the ping and no frequencies |
| `StationCheck.ExampleOneProfile` | src/server.js:57-68 | one receiver with one profile at 145500000 Hz yields status 2 with `[145.5]` |
| `StationCheck.OnlineFrequenciesDetermined` | src/server.js:62-68 | the status-2 frequency list equals any sorted permutation of the collected values |
| `StationCheck.ProfileFreqsMembership` | src/server.js:60-64 | `ProfileFreqs`, the values a receiver's profiles push, holds f exactly when one of them has a truthy `center_freq` that rounds to f |
| `StationCheck.ProfileFreqsCount` | src/server.js:60-64 | the length of `ProfileFreqs` equals the number of profiles with a truthy `center_freq`, so each contributes exactly one |
| `StationCheck.ReceiverFreqsMembership` | src/server.js:57-66 | `ReceiverFreqs`, the collected list, holds f exactly when some receiver with `profiles` has a profile yielding f. Receivers without `profiles` and profiles without `center_freq` contribute nothing |
| `StationCheck.PushProfileFreqs` | src/server.js:60-64 | the inner loop throws exactly when some profile is null. Otherwise it appends the profiles' rounded truthy centre frequencies, in order, after the list so far |
| `StationCheck.PushReceiverFreqs` | src/server.js:58-65 | one receiver throws exactly when it is null or one of its profiles is. Otherwise it appends its contribution, which is nothing when `profiles` is absent |
| `StationCheck.CollectFrequencies` | src/server.js:57-66 | the outer loop throws exactly when some receiver or profile is null. Otherwise it yields all receivers' frequencies in push order |
| `StationCheck.CheckLocation` | src/server.js:37-75 | the per-location task, with its early returns, nested loops, pushes, throw on null and sort, returns exactly `Classify`'s record |
| `StationCheck.MapPairsAt` | src/server.js:37 | entry i of the mapped sequence is the function applied to element i |
| `StationCheck.Aggregate` | src/server.js:37-77 | `sdr_status` has one entry per location |
| `StationCheck.AggregateRecords` | src/server.js:37-77 | entry i of `sdr_status` is location i's record, in location order, and carries `locations[i].id` |
| `StatusCache.SecondFloor` | src/server.js:81 | the stored instant is a whole second and lies within the second before the refresh time |
| `StatusCache.Refreshed` | src/server.js:80-83 | a refresh sets `last_checked` to the second of the refresh and `sdr_status` to one classified record per location, in order |
| `StatusCache.FreshWindow` | src/server.js:25-30 | `IsFresh`, the test at lines 25-27 on a UTC host: a snapshot serves requests up to TTL − 1 s after its refresh and none from TTL on. The initial snapshot, with null `last_checked`, is never fresh |
| `StatusCache.Refresh` | src/server.js:37-83 | the refresh loop builds exactly `Refreshed`: one record per location in location order, stamped with the second of the refresh |
| `StatusCache.SdrCache.constructor` | src/server.js:10-13 | the cache starts as `{last_checked: null, sdr_status: []}` |
| `StatusCache.SdrCache.Get` | src/server.js:22-93 | a fresh cache is returned unchanged, with no probe and no config read. A config on which the handler throws before its refresh completes (unreadable, not JSON, not an array, or with a null entry) gives a 500 with the cache unchanged. Otherwise the cache is replaced wholesale by `Refreshed`, and the response is the new cache, or a 500 when persisting fails |
| `StatusCache.FirstIndexOf` | src/server.js:81 | gives the position of the first occurrence of a character, or the length when there is none |
| `StatusCache.ReplaceFirst` | src/server.js:81 | `replace('T', ' ')` changes only the first `T` and keeps every other character and the length |
| `StatusCache.LastCheckedLabel` | src/server.js:81 | `substring(0, 19)` gives a label of 19 characters; an ISO string shorter than that is kept whole, with its first `T` replaced |
| `StatusCache.LabelOfIsoInstant` | src/server.js:81 | on an ISO instant the label is the date, a space and the time to the second, in the shape `YYYY-MM-DD HH:MM:SS` |
| `StatusCache.HostOffsetShiftsWindow` | src/server.js:25-27 | `IsFreshOnHost` is the test at lines 25-27 as written, off UTC. `ParsedOnHost` takes the engine to read the zone-less label as local time, so on a host at UTC + offset it gives the stored instant minus the offset. Then on a non-UTC host the freshness window moves by the host's offset. At UTC+2 the cache is stale a second after a refresh. At UTC−5 it is fresh five hours later. At UTC it is `IsFresh` |
| `TileProxy.CacheKeyInjective` | src/server.js:103-104 | `CacheKey`, the written key, is injective only on parameters without `/`: such requests share a key exactly when all four parameters are equal |
| `TileProxy.CacheKeyCollision` | src/server.js:103-116 | the decoded parameters `a/b,1,2,3` and `a,b/1,2,3` get the same written key although `TileUrl` fetches different upstream tiles for them |
| `TileProxy.EscapeInjective` | src/server.js:104 | escaping `/` and `%` in a parameter keeps different parameters different |
| `TileProxy.TileKeyInjective` | src/server.js:103-104 | `TileKey`, the key of the escaped parameters, is shared by two requests exactly when all four parameters are equal, for every input |
| `TileProxy.TileKeyOrdinary` | src/server.js:104 | on parameters with no `/` and no `%`, `TileKey` is the written key |
| `TileProxy.EntryCount` | src/server.js:99 | under the cache invariant the map has one entry per listed key |
| `TileProxy.SetLists` | src/server.js:130-133 | `Map.set` puts a new key last and leaves a present key in its place, and the order still lists each key exactly once |
| `TileProxy.Inserted` | src/server.js:130-139 | after set-and-evict the new entry is present with the stored value |
| `TileProxy.InsertedValid` | src/server.js:130-139 | after set-and-evict the invariant holds again: keys are distinct, order and map agree, and there are at most 1000 entries |
| `TileProxy.InsertedShape` | src/server.js:130-139 | an insert updates a present key in place, appends a new key, and on a new key into a full cache also deletes the first key |
| `TileProxy.InsertedEffect` | src/server.js:130-139 | a key is removed only when a new key is inserted into a full cache, and then exactly one: the oldest. Other entries keep their values |
| `TileProxy.InsertedOrder` | src/server.js:130-139 | a present key keeps its place, and a new key goes last after the remaining keys in their old order |
| `TileProxy.InsertedThenLookup` | src/server.js:107-108 | `Lookup` is the test at lines 107-108: a hit needs the key present and `now − timestamp < TILE_CACHE_TTL`. A tile stored at t is served from the cache exactly while `now − t < TILE_CACHE_TTL` |
| `TileProxy.InsertedKeepsOthers` | src/server.js:107-139 | an insert changes no other key's `Lookup` result, except that the evicted oldest key misses |
| `TileProxy.InsertedSize` | src/server.js:135-139 | a new key below the bound adds one entry. A present key, or a new key into a full cache, leaves the size unchanged |
| `TileProxy.TileCache.constructor` | src/server.js:99 | the cache starts empty and valid |
| `TileProxy.TileCache.Set` | src/server.js:130-139 | the new state is `Inserted` of the old one, and the invariant is kept |
| `TileProxy.TileCache.Serve` | src/server.js:102-148 | with `Lookup` on `TileKey` as the cache test, a hit returns the cached bytes with the cache unchanged. A failed or non-ok fetch leaves the cache unchanged and returns a 500 or the upstream status. A successful fetch returns the bytes and inserts them stamped with the store time |

## Findings

| source | as written | input that shows it | evidently intended | confidence | as-written member | corrected member |
|---|---|---|---|---|---|---|
| src/server.js:26, 81 | `last_checked` is written as UTC digits with no zone, then parsed back with `new Date(...)`, which reads a zone-less date-time as local time | a host at UTC+2: one second after a refresh the age is over two hours, so every request re-probes every station (at UTC−5 the cache is served for five hours) | a ten-minute cache whatever the host's zone | medium: rests on the engine reading the zone-less label as local time; not executed | `StatusCache.HostOffsetShiftsWindow` | `StatusCache.FreshWindow` |
| src/server.js:103-104 | the cache key joins the route parameters with `/`, but Express percent-decodes each parameter, so a parameter can itself hold `/` | `/tiles/a%2Fb/1/2/3.png` and `/tiles/a/b%2F1/2/3.png` both get key `a/b/1/2/3`, although they fetch different upstream URLs (`https://a/b.tile.openstreetmap.org/1/2/3.png` and `https://a.tile.openstreetmap.org/b/1/2/3.png`); whichever is cached first is served for both | one cache entry per requested tile | medium: rests on Express decoding `%2F` in route parameters; not executed | `TileProxy.CacheKeyCollision` | `TileProxy.TileKeyInjective` |

The rest of the model uses the UTC reading (`IsFresh`, `SdrCache.Get`) and the escaped key `TileKey` (`TileCache.Serve`). The escaped key is the written key on every parameter with no `/` and no `%` (`TileKeyOrdinary`).

## Left out

- Express routing, static files, the `/grabber/sdrs.php` redirect, the `/grabber/data.json` route and `app.listen`: these are framework plumbing.
- `node-fetch`, `AbortController` and the 2000 ms timeout: network I/O. A probe is the input `Probe`, and a tile fetch is the input `Upstream`.
- Reading locations.json and writing data.json: file I/O. Their outcomes are the parameters `config` and `persisted` of `SdrCache.Get`. The file contents are not modelled.
- `JSON.parse` and `response.json()`: the payload arrives already parsed. A body that is not JSON counts as `NetworkError`, which gets the same offline record.
- JSON kinds the loops do not expect are not modelled. These are a string, number or array where an object is read, and a non-numeric `center_freq`. `sdrs` and `profiles` are either objects or absent/null/falsy.
- Floating point: `center_freq` is an integer number of Hz. Fractional Hz values and the binary rounding of `/ 100000` and `/ 10` are not modelled.
- Clock readings (`Date.now()`, `new Date()`) are parameters of the methods. The ping is the measured number, passed in `Ok`.
- `Promise.all` runs the location tasks as a sequential map. Concurrent requests that interleave around `await` are not modelled. Two stale requests can both refresh. Two tile requests that miss on one key can both fetch and both store, since the lookup, the fetch and the insert of concurrent requests interleave (each set-and-evict itself runs without an `await`).
- `toISOString` itself, meaning the conversion from an epoch time to a calendar date, is not modelled. The label function takes its output string. Years outside 0 to 9999, which change the ISO shape, are not covered.
- HTTP status codes other than the upstream tile status, response headers and console logging are not modelled.
