/**
  The scene-wide registry of procedure stations: an ordered list without
  missing or repeated entries. The game keeps it in a static field; here it
  is a value passed in and returned.
*/
module StationRegistry {
  import opened Wrappers
  import opened Collections

  datatype StationId = StationId(n: nat)

  datatype Registry = Registry(stations: seq<StationId>)

  const Initial := Registry([])

  /** The read-only view input agents iterate. */
  function Stations(r: Registry): seq<StationId>
  {
    r.stations
  }

  /** The position of the first occurrence of `x`. */
  function IndexOf(xs: seq<StationId>, x: StationId): (i: nat)
    requires x in xs
    ensures i < |xs| && xs[i] == x && x !in xs[..i]
  {
    if xs[0] == x then 0 else 1 + IndexOf(xs[1..], x)
  }

  /** Removes the first occurrence of `x`, if any, keeping the others in order. */
  function RemoveFirst(xs: seq<StationId>, x: StationId): (r: seq<StationId>)
    ensures x !in xs ==> r == xs
    ensures x in xs ==> r == xs[..IndexOf(xs, x)] + xs[IndexOf(xs, x) + 1..]
  {
    if |xs| == 0 then []
    else if xs[0] == x then xs[1..]
    else
      SpliceAfterHead(xs, x);
      [xs[0]] + RemoveFirst(xs[1..], x)
  }

  /** Cutting an element out behind the head is cutting it out of the tail. */
  lemma SpliceAfterHead(xs: seq<StationId>, x: StationId)
    requires |xs| > 0 && xs[0] != x
    ensures x !in xs[1..] ==> x !in xs && xs == [xs[0]] + xs[1..]
    ensures x in xs[1..] ==>
      var tail := xs[1..];
      var k := IndexOf(tail, x);
      && IndexOf(xs, x) == k + 1
      && xs[..k + 1] + xs[k + 2..] == [xs[0]] + (tail[..k] + tail[k + 1..])
  {
    if x in xs[1..] {
      var tail := xs[1..];
      var k := IndexOf(tail, x);
      assert xs[..k + 1] == [xs[0]] + tail[..k];
      assert xs[k + 2..] == tail[k + 1..];
    }
  }

  function Register(r: Registry, station: Option<StationId>): (r': Registry)
    ensures station.None? || station.value in r.stations ==> r' == r
    ensures station.Some? && station.value !in r.stations ==> r'.stations == r.stations + [station.value]
  {
    if station.None? || station.value in r.stations then r
    else Registry(r.stations + [station.value])
  }

  function Unregister(r: Registry, station: Option<StationId>): (r': Registry)
    ensures station.None? || station.value !in r.stations ==> r' == r
    ensures station.Some? && station.value in r.stations ==>
      var i := IndexOf(r.stations, station.value);
      r'.stations == r.stations[..i] + r.stations[i + 1..]
    ensures NoDup(r.stations) ==> NoDup(r'.stations)
    ensures NoDup(r.stations) && station.Some? ==> Elems(r'.stations) == Elems(r.stations) - {station.value}
  {
    if station.None? then r
    else
      RemoveFirstOfNoDup(r.stations, station.value);
      Registry(RemoveFirst(r.stations, station.value))
  }

  /** In a list without repeats, removing the first occurrence removes the element altogether. */
  lemma RemoveFirstOfNoDup(xs: seq<StationId>, x: StationId)
    ensures NoDup(xs) ==> NoDup(RemoveFirst(xs, x))
    ensures NoDup(xs) ==> Elems(RemoveFirst(xs, x)) == Elems(xs) - {x}
  {
    if NoDup(xs) && x in xs {
      NoDupRemoveAt(xs, IndexOf(xs, x));
    }
  }

  // ---------------------------------------------------------------------------
  // Properties
  // ---------------------------------------------------------------------------

  /** Registration keeps the list free of repeats, and adds exactly the station given. */
  lemma RegisterKeepsNoDup(r: Registry, station: Option<StationId>)
    requires NoDup(r.stations)
    ensures NoDup(Register(r, station).stations)
    ensures Elems(Register(r, station).stations) == Elems(r.stations) + (if station.Some? then {station.value} else {})
  {
  }

  /** Registering twice is registering once. */
  lemma RegisterIsIdempotent(r: Registry, station: Option<StationId>)
    ensures Register(Register(r, station), station) == Register(r, station)
  {
  }

  /** Registering a new station and unregistering it again gives back the registry. */
  lemma RegisterThenUnregister(r: Registry, s: StationId)
    requires s !in r.stations
    ensures Unregister(Register(r, Some(s)), Some(s)) == r
  {
    var grown := r.stations + [s];
    assert IndexOf(grown, s) == |r.stations|;
    assert grown[..|r.stations|] == r.stations;
  }

  /** Unregistering a station that is not there, or twice, changes nothing more. */
  lemma UnregisterIsIdempotent(r: Registry, station: Option<StationId>)
    requires NoDup(r.stations)
    ensures Unregister(Unregister(r, station), station) == Unregister(r, station)
  {
    if station.Some? {
      assert station.value !in Elems(Unregister(r, station).stations);
    }
  }

  /** Unregistering keeps the relative order of the stations that remain. */
  lemma UnregisterKeepsOrder(r: Registry, s: StationId, i: nat, j: nat)
    requires i < j < |r.stations| && r.stations[i] != s && r.stations[j] != s
    ensures var rest := Unregister(r, Some(s)).stations;
      exists i', j' :: 0 <= i' < j' < |rest| && rest[i'] == r.stations[i] && rest[j'] == r.stations[j]
  {
    var xs := r.stations;
    var rest := Unregister(r, Some(s)).stations;
    if s in xs {
      var k := IndexOf(xs, s);
      assert rest == xs[..k] + xs[k + 1..];
      var i' := if i < k then i else i - 1;
      var j' := if j < k then j else j - 1;
      assert rest[i'] == xs[i];
      assert rest[j'] == xs[j];
    } else {
      assert rest[i] == xs[i] && rest[j] == xs[j];
    }
  }

  /** One call a station makes on the registry as it is enabled or disabled. */
  datatype RegistryCall = RegisterCall(station: Option<StationId>) | UnregisterCall(station: Option<StationId>)

  function Perform(r: Registry, calls: seq<RegistryCall>): Registry
  {
    if |calls| == 0 then r
    else
      var before := Perform(r, calls[..|calls| - 1]);
      match calls[|calls| - 1]
      case RegisterCall(station) => Register(before, station)
      case UnregisterCall(station) => Unregister(before, station)
  }

  /** Whatever the stations do, in whatever order, the registry never lists a station twice. */
  lemma {:induction false} RegistryNeverRepeats(calls: seq<RegistryCall>)
    ensures NoDup(Stations(Perform(Initial, calls)))
  {
    if |calls| > 0 {
      var before := Perform(Initial, calls[..|calls| - 1]);
      RegistryNeverRepeats(calls[..|calls| - 1]);
      match calls[|calls| - 1]
      case RegisterCall(station) => RegisterKeepsNoDup(before, station);
      case UnregisterCall(station) =>
    }
  }
}
