/**
 * Classification of one station probe in the `/api/sdrs` handler, and the
 * assembly of the per-location results in location order.
 *
 * JSON objects are modelled by their values in `Object.values` order; the
 * keys themselves never influence the outcome. Frequencies are integer
 * tenths of a MHz, so that 145.5 MHz is 1455.
 */
module StationCheck {
  import opened Wrappers
  import opened Sorting

  /** Status codes of a result record. */
  const OFFLINE: nat := 0
  const NO_RECEIVERS: nat := 1
  const ONLINE: nat := 2

  /** Hertz per tenth of a MHz, the divisor of the frequency formula. */
  const HZ_PER_TENTH: int := 100000

  /** One entry of locations.json. */
  datatype Location = Location(id: string, sdrlink: string)

  /**
   * One value of a receiver's `profiles` object: `null`, or an object whose
   * `center_freq` (in Hz) is absent/null or a number.
   */
  datatype Profile = NullProfile | Profile(centerFreq: Option<int>)

  /**
   * One value of the payload's `sdrs` object: `null`, or an object whose
   * `profiles` is an object (Some) or absent/null/falsy (None).
   */
  datatype Receiver = NullReceiver | Receiver(profiles: Option<seq<Profile>>)

  /** The parsed body of status.json: `null`, or an object whose `sdrs` is an object or absent/null. */
  datatype Payload = NullPayload | Payload(sdrs: Option<seq<Receiver>>)

  /**
   * What one probe of `<sdrlink>/status.json` produced. NetworkError stands for
   * every rejection before a body was parsed: transport failure, the abort
   * after the timeout, a body that is not JSON. Ok carries the measured ping.
   */
  datatype Probe = NetworkError | NotOk | Ok(ping: int, payload: Payload)

  /** The record `{id, status, ping, frequencies}`; a ping of None is JSON null. */
  datatype StatusResult = StatusResult(id: string, status: nat, ping: Option<int>, frequencies: seq<int>)

  /**
   * `Math.round(hz / 100000)` for an integer number of Hz: the nearest tenth of
   * a MHz, halves rounded up.
   */
  function Tenths(hz: int): (t: int)
  {
    (hz + HZ_PER_TENTH / 2) / HZ_PER_TENTH
  }

  /** Only one tenth satisfies the rounding bounds, so Tenths is exactly the nearest-tenth rounding. */
  lemma TenthsNearest(hz: int, t: int)
    ensures Tenths(hz) == t <==> t * HZ_PER_TENTH - HZ_PER_TENTH / 2 <= hz < t * HZ_PER_TENTH + HZ_PER_TENTH / 2
  {
    var u := Tenths(hz);
    if t * HZ_PER_TENTH - HZ_PER_TENTH / 2 <= hz < t * HZ_PER_TENTH + HZ_PER_TENTH / 2 {
      assert (t - u) * HZ_PER_TENTH < HZ_PER_TENTH && (u - t) * HZ_PER_TENTH < HZ_PER_TENTH;
    }
  }

  /** `if (profile.center_freq)`: present and non-zero. */
  predicate Truthy(centerFreq: Option<int>)
  {
    centerFreq.Some? && centerFreq.value != 0
  }

  /** A profile whose centre frequency, rounded, is f. */
  predicate Yields(p: Profile, f: int)
  {
    p.Profile? && Truthy(p.centerFreq) && Tenths(p.centerFreq.value) == f
  }

  /** What one profile pushes onto the frequency list. */
  function Contribution(p: Profile): seq<int>
  {
    if p.Profile? && Truthy(p.centerFreq) then [Tenths(p.centerFreq.value)] else []
  }

  /** The frequencies pushed by the inner loop over one receiver's profiles, in push order. */
  function ProfileFreqs(ps: seq<Profile>): seq<int>
  {
    if ps == [] then [] else ProfileFreqs(ps[..|ps| - 1]) + Contribution(ps[|ps| - 1])
  }

  /** What one receiver pushes: nothing unless its `profiles` is present. */
  function ReceiverContribution(r: Receiver): seq<int>
  {
    if r.Receiver? && r.profiles.Some? then ProfileFreqs(r.profiles.value) else []
  }

  /** The frequencies pushed by the outer loop over all receivers, in push order. */
  function ReceiverFreqs(rs: seq<Receiver>): seq<int>
  {
    if rs == [] then [] else ReceiverFreqs(rs[..|rs| - 1]) + ReceiverContribution(rs[|rs| - 1])
  }

  /** The loops read `sdr.profiles` and `profile.center_freq`; on a null value that throws a TypeError. */
  predicate Traversable(rs: seq<Receiver>)
  {
    forall i :: 0 <= i < |rs| ==> ReceiverTraversable(rs[i])
  }

  predicate ReceiverTraversable(r: Receiver)
  {
    r.Receiver? && (r.profiles.Some? ==> forall j :: 0 <= j < |r.profiles.value| ==> r.profiles.value[j].Profile?)
  }

  /** The record returned for a failed probe or a thrown error. */
  function Offline(id: string): StatusResult
  {
    StatusResult(id, OFFLINE, None, [])
  }

  /** The record of a reachable station whose receivers were all traversed. */
  function OnlineResult(id: string, ping: int, sdrs: seq<Receiver>): StatusResult
  {
    StatusResult(id, ONLINE, Some(ping), SortAscending(ReceiverFreqs(sdrs)))
  }

  /**
   * The result record for one location, as the handler's per-location task
   * returns it. Its contract states the invariants every result record keeps.
   */
  function Classify(loc: Location, probe: Probe): (r: StatusResult)
    ensures r.id == loc.id
    ensures r.status == OFFLINE || r.status == NO_RECEIVERS || r.status == ONLINE
    ensures r.status == OFFLINE ==> r.ping == None && r.frequencies == []
    ensures r.status == NO_RECEIVERS ==> r.ping.Some? && r.frequencies == []
    ensures r.status == ONLINE ==> r.ping.Some?
  {
    match probe
    case NetworkError => Offline(loc.id)
    case NotOk => Offline(loc.id)
    case Ok(ping, payload) =>
      if payload.NullPayload? then
        Offline(loc.id)
      else if payload.sdrs.None? || |payload.sdrs.value| == 0 then
        StatusResult(loc.id, NO_RECEIVERS, Some(ping), [])
      else if !Traversable(payload.sdrs.value) then
        Offline(loc.id)
      else
        OnlineResult(loc.id, ping, payload.sdrs.value)
  }

  /** Whether a probe reached a parsed payload with a non-empty `sdrs` object. */
  predicate HasReceivers(probe: Probe)
  {
    probe.Ok? && probe.payload.Payload? && probe.payload.sdrs.Some? && |probe.payload.sdrs.value| > 0
  }

  /**
   * The three outcomes, each with its exact condition: offline for a failed,
   * non-ok or throwing probe; reachable without receivers for a missing or
   * empty `sdrs`; online otherwise, even with no frequencies, with the
   * collected frequencies as its sorted list.
   */
  lemma ClassifyOutcomes(loc: Location, probe: Probe)
    ensures var r := Classify(loc, probe);
      && (r.status == OFFLINE <==>
            probe.NetworkError? || probe.NotOk? || probe.payload.NullPayload?
            || (HasReceivers(probe) && !Traversable(probe.payload.sdrs.value)))
      && (r.status == NO_RECEIVERS <==> probe.Ok? && probe.payload.Payload? && !HasReceivers(probe))
      && (r.status == ONLINE <==> HasReceivers(probe) && Traversable(probe.payload.sdrs.value))
      && (probe.NetworkError? || probe.NotOk? ==> r == StatusResult(loc.id, OFFLINE, None, []))
      && (r.status != OFFLINE ==> r.ping == Some(probe.ping))
      && (r.status == ONLINE ==>
            Sorted(r.frequencies)
            && multiset(r.frequencies) == multiset(ReceiverFreqs(probe.payload.sdrs.value)))
  {
    if HasReceivers(probe) && Traversable(probe.payload.sdrs.value) {
      SortAscendingSpec(ReceiverFreqs(probe.payload.sdrs.value));
    }
  }

  /** `{sdrs: {}}`: reachable, no receivers, the ping and no frequencies. */
  lemma ExampleNoReceivers(loc: Location, ping: int)
    ensures Classify(loc, Ok(ping, Payload(Some([])))) == StatusResult(loc.id, NO_RECEIVERS, Some(ping), [])
  {
    var probe := Ok(ping, Payload(Some([])));
    assert !HasReceivers(probe);
  }

  /** One receiver with one profile at 145500000 Hz: online, with 145.5 MHz. */
  lemma ExampleOneProfile(loc: Location, ping: int)
    ensures Classify(loc, Ok(ping, Payload(Some([Receiver(Some([Profile(Some(145500000))]))]))))
      == StatusResult(loc.id, ONLINE, Some(ping), [1455])
  {
    var ps := [Profile(Some(145500000))];
    var rs := [Receiver(Some(ps))];
    assert Tenths(145500000) == 1455;
    assert ProfileFreqs(ps) == [1455] by {
      assert ps[..0] == [];
    }
    assert ReceiverFreqs(rs) == [1455] by {
      assert rs[..0] == [];
    }
    assert Traversable(rs);
    assert SortAscending([1455]) == [1455] by {
      assert [1455][..0] == [];
    }
    ClassifyOnline(loc, ping, rs);
  }

  /** A non-empty `sdrs` whose loops do not throw gives the sorted collected frequencies. */
  lemma ClassifyOnline(loc: Location, ping: int, rs: seq<Receiver>)
    requires |rs| > 0 && Traversable(rs)
    ensures Classify(loc, Ok(ping, Payload(Some(rs)))) == OnlineResult(loc.id, ping, rs)
  {
  }

  /**
   * The frequency list of an online result is the one sorted permutation of
   * the pushed values: whatever algorithm the engine sorts with gives it.
   */
  lemma OnlineFrequenciesDetermined(loc: Location, probe: Probe, sorted: seq<int>)
    requires Classify(loc, probe).status == ONLINE
    requires Sorted(sorted) && multiset(sorted) == multiset(ReceiverFreqs(probe.payload.sdrs.value))
    ensures Classify(loc, probe).frequencies == sorted
  {
    var r := Classify(loc, probe);
    ClassifyOutcomes(loc, probe);
    SortedPermutationUnique(r.frequencies, sorted);
  }

  /** A profile list pushes f exactly when one of its profiles has a truthy centre frequency rounding to f. */
  lemma {:induction false} ProfileFreqsMembership(ps: seq<Profile>, f: int)
    ensures f in ProfileFreqs(ps) <==> exists j :: 0 <= j < |ps| && Yields(ps[j], f)
  {
    if ps != [] {
      var init := ps[..|ps| - 1];
      ProfileFreqsMembership(init, f);
      if exists j :: 0 <= j < |init| && Yields(init[j], f) {
        var j :| 0 <= j < |init| && Yields(init[j], f);
        assert ps[j] == init[j];
      }
      if exists j :: 0 <= j < |ps| && Yields(ps[j], f) {
        var j :| 0 <= j < |ps| && Yields(ps[j], f);
        if j < |init| {
          assert init[j] == ps[j];
        }
      }
    }
  }

  /** The profiles of a list that push a frequency. */
  function ContributingIndices(ps: seq<Profile>): set<int>
  {
    set j | 0 <= j < |ps| && Contribution(ps[j]) != []
  }

  /** Extending a profile list by one adds its index exactly when that profile pushes a value. */
  lemma ContributingIndicesStep(ps: seq<Profile>)
    requires ps != []
    ensures ContributingIndices(ps) ==
      ContributingIndices(ps[..|ps| - 1]) + (if Contribution(ps[|ps| - 1]) != [] then {|ps| - 1} else {})
  {
    var n := |ps| - 1;
    forall j | 0 <= j < n ensures ps[..n][j] == ps[j] {
    }
  }

  /** Each profile with a truthy centre frequency pushes exactly one value, and no other profile pushes any. */
  lemma {:induction false} ProfileFreqsCount(ps: seq<Profile>)
    ensures |ProfileFreqs(ps)| == |ContributingIndices(ps)|
  {
    if ps != [] {
      var n := |ps| - 1;
      ProfileFreqsCount(ps[..n]);
      ContributingIndicesStep(ps);
      assert n !in ContributingIndices(ps[..n]);
    }
  }

  /** A receiver with a `profiles` object, one of whose profiles yields f. */
  predicate ReceiverYields(r: Receiver, f: int)
  {
    r.Receiver? && r.profiles.Some? && exists j :: 0 <= j < |r.profiles.value| && Yields(r.profiles.value[j], f)
  }

  /**
   * The collected list holds f exactly when some receiver with a `profiles`
   * object has a profile whose truthy centre frequency rounds to f: receivers
   * without `profiles` and profiles without `center_freq` contribute nothing.
   */
  lemma {:induction false} ReceiverFreqsMembership(rs: seq<Receiver>, f: int)
    ensures f in ReceiverFreqs(rs) <==> exists i :: 0 <= i < |rs| && ReceiverYields(rs[i], f)
  {
    if rs != [] {
      var n := |rs| - 1;
      var init := rs[..n];
      ReceiverFreqsMembership(init, f);
      var last := rs[n];
      if last.Receiver? && last.profiles.Some? {
        ProfileFreqsMembership(last.profiles.value, f);
      }
      assert ReceiverFreqs(rs) == ReceiverFreqs(init) + ReceiverContribution(last);
      if f in ReceiverFreqs(init) {
        var i :| 0 <= i < n && ReceiverYields(init[i], f);
        assert rs[i] == init[i];
      } else if f !in ReceiverContribution(last) {
        forall i | 0 <= i < |rs| ensures !ReceiverYields(rs[i], f) {
          if i < n {
            assert rs[i] == init[i];
          }
        }
      }
    }
  }

  /**
   * The inner loop over one receiver's profiles: pushes the rounded truthy
   * centre frequencies after `frequencies`, or reports the TypeError a null
   * profile raises.
   */
  method PushProfileFreqs(profiles: seq<Profile>, frequencies: seq<int>) returns (threw: bool, pushed: seq<int>)
    ensures threw <==> exists j :: 0 <= j < |profiles| && profiles[j].NullProfile?
    ensures !threw ==> pushed == frequencies + ProfileFreqs(profiles)
  {
    pushed := frequencies;
    var j := 0;
    while j < |profiles|
      invariant 0 <= j <= |profiles|
      invariant forall k :: 0 <= k < j ==> profiles[k].Profile?
      invariant pushed == frequencies + ProfileFreqs(profiles[..j])
    {
      var profile := profiles[j];
      if profile.NullProfile? {
        return true, pushed;
      }
      if Truthy(profile.centerFreq) {
        pushed := pushed + [Tenths(profile.centerFreq.value)];
      }
      assert profiles[..j + 1][..j] == profiles[..j];
      j := j + 1;
    }
    assert profiles[..j] == profiles;
    return false, pushed;
  }

  /** One more receiver: its contribution is appended, and the prefix stays traversable when it is. */
  lemma ReceiverFreqsStep(sdrs: seq<Receiver>, i: int)
    requires 0 <= i < |sdrs|
    ensures ReceiverFreqs(sdrs[..i + 1]) == ReceiverFreqs(sdrs[..i]) + ReceiverContribution(sdrs[i])
    ensures Traversable(sdrs[..i + 1]) <==> Traversable(sdrs[..i]) && ReceiverTraversable(sdrs[i])
  {
    assert sdrs[..i + 1][..i] == sdrs[..i];
  }

  /**
   * One pass of the outer loop: reading `sdr.profiles` throws on a null
   * receiver; a receiver with `profiles` pushes its profiles' frequencies.
   */
  method PushReceiverFreqs(sdr: Receiver, frequencies: seq<int>) returns (threw: bool, pushed: seq<int>)
    ensures threw <==> !ReceiverTraversable(sdr)
    ensures !threw ==> pushed == frequencies + ReceiverContribution(sdr)
  {
    if sdr.NullReceiver? {
      return true, frequencies;
    }
    pushed := frequencies;
    threw := false;
    if sdr.profiles.Some? {
      threw, pushed := PushProfileFreqs(sdr.profiles.value, frequencies);
    }
  }

  /** A receiver the loops cannot read makes the whole list unreadable. */
  lemma UntraversableAt(sdrs: seq<Receiver>, i: int)
    requires 0 <= i < |sdrs| && !ReceiverTraversable(sdrs[i])
    ensures !Traversable(sdrs)
  {
  }

  /**
   * The outer loop over the receivers of a non-empty `sdrs`: pushes every
   * receiver's profile frequencies in order, or reports the TypeError that a
   * null receiver or null profile raises.
   */
  method CollectFrequencies(sdrs: seq<Receiver>) returns (threw: bool, frequencies: seq<int>)
    ensures threw <==> !Traversable(sdrs)
    ensures !threw ==> frequencies == ReceiverFreqs(sdrs)
  {
    frequencies := [];
    var i := 0;
    while i < |sdrs|
      invariant 0 <= i <= |sdrs|
      invariant Traversable(sdrs[..i])
      invariant frequencies == ReceiverFreqs(sdrs[..i])
    {
      var failed;
      failed, frequencies := PushReceiverFreqs(sdrs[i], frequencies);
      if failed {
        UntraversableAt(sdrs, i);
        return true, frequencies;
      }
      ReceiverFreqsStep(sdrs, i);
      i := i + 1;
    }
    assert sdrs[..i] == sdrs;
    return false, frequencies;
  }

  /**
   * The per-location task, statement by statement: the early returns, the
   * loops that push rounded centre frequencies, the sort. A null receiver or
   * profile ends the task as the TypeError it raises would.
   */
  method CheckLocation(loc: Location, probe: Probe) returns (r: StatusResult)
    ensures r == Classify(loc, probe)
  {
    if !probe.Ok? {
      return Offline(loc.id);
    }
    var ping, data := probe.ping, probe.payload;
    if data.NullPayload? {
      return Offline(loc.id);
    }
    if data.sdrs.None? || |data.sdrs.value| == 0 {
      return StatusResult(loc.id, NO_RECEIVERS, Some(ping), []);
    }
    var threw, frequencies := CollectFrequencies(data.sdrs.value);
    if threw {
      return Offline(loc.id);
    }
    return StatusResult(loc.id, ONLINE, Some(ping), SortAscending(frequencies));
  }

  /** `xs.map((x, i) => f(x, ys[i]))`: f applied pairwise, in order. */
  function MapPairs<A, B, C>(f: (A, B) -> C, xs: seq<A>, ys: seq<B>): (r: seq<C>)
    requires |ys| == |xs|
    ensures |r| == |xs|
  {
    if xs == [] then
      []
    else
      var n := |xs| - 1;
      MapPairs(f, xs[..n], ys[..n]) + [f(xs[n], ys[n])]
  }

  /** Entry i of the mapped sequence is f of the i-th pair. */
  lemma {:induction false} MapPairsAt<A, B, C>(f: (A, B) -> C, xs: seq<A>, ys: seq<B>, i: int)
    requires |ys| == |xs| && 0 <= i < |xs|
    ensures MapPairs(f, xs, ys)[i] == f(xs[i], ys[i])
  {
    var n := |xs| - 1;
    if i < n {
      MapPairsAt(f, xs[..n], ys[..n], i);
    }
  }

  /**
   * `locations.map(...)` joined by `Promise.all`: one result per location, in
   * location order. Each task writes only its own slot, so the concurrent
   * fan-out is a sequential map here.
   */
  function Aggregate(locs: seq<Location>, probes: seq<Probe>): (r: seq<StatusResult>)
    requires |probes| == |locs|
    ensures |r| == |locs|
  {
    MapPairs(Classify, locs, probes)
  }

  /** Every entry of the joined results is its location's record, so it carries that location's id. */
  lemma AggregateRecords(locs: seq<Location>, probes: seq<Probe>)
    requires |probes| == |locs|
    ensures forall i :: 0 <= i < |locs| ==> Aggregate(locs, probes)[i] == Classify(locs[i], probes[i])
    ensures forall i :: 0 <= i < |locs| ==> Aggregate(locs, probes)[i].id == locs[i].id
  {
    forall i | 0 <= i < |locs|
      ensures Aggregate(locs, probes)[i] == Classify(locs[i], probes[i])
    {
      MapPairsAt(Classify, locs, probes, i);
    }
  }
}
