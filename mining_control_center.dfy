/**
 * The control center's queues: the roster of trucks, the stations that are
 * free, the stations that are unloading, and the trucks waiting to unload.
 * Each Python deque is a `seq` field that the methods reassign.
 */
module ControlCenter {
  import opened Wrappers

  const RemoveMissingMessage := "deque.remove(x): x not in deque"

  /** The index of the first occurrence of x in s. */
  function FirstIndex<T(==)>(s: seq<T>, x: T): (i: nat)
    requires x in s
    ensures i < |s| && s[i] == x
    ensures x !in s[..i]
  {
    if s[0] == x then 0
    else
      var j := FirstIndex(s[1..], x);
      assert s[..j + 1] == [s[0]] + s[1..][..j];
      j + 1
  }

  /** deque.remove(x): drops the first occurrence of x. */
  function RemoveFirst<T(==)>(s: seq<T>, x: T): (r: seq<T>)
    requires x in s
    ensures |r| == |s| - 1
    ensures multiset(r) == multiset(s) - multiset{x}
  {
    if s[0] == x then
      assert s == [s[0]] + s[1..];
      s[1..]
    else
      assert s == [s[0]] + s[1..];
      [s[0]] + RemoveFirst(s[1..], x)
  }

  /** RemoveFirst cuts out exactly the first occurrence and keeps the rest in order. */
  lemma {:induction false} RemoveFirstAt<T>(s: seq<T>, x: T)
    requires x in s
    ensures RemoveFirst(s, x) == s[..FirstIndex(s, x)] + s[FirstIndex(s, x) + 1..]
  {
    if s[0] == x {
      assert FirstIndex(s, x) == 0;
    } else {
      var t := s[1..];
      var j := FirstIndex(t, x);
      assert FirstIndex(s, x) == j + 1;
      RemoveFirstAt(t, x);
      assert s == [s[0]] + t;
      ConsSplice(s[0], t, j);
    }
  }

  /** Cutting position j out of t and then putting a in front is cutting j + 1 out of [a] + t. */
  lemma ConsSplice<T>(a: T, t: seq<T>, j: nat)
    requires j < |t|
    ensures [a] + (t[..j] + t[j + 1..]) == ([a] + t)[..j + 1] + ([a] + t)[j + 2..]
  {
  }

  class MiningControlCenter<Truck, Station(==)> {
    var trucks: seq<Truck>
    var availableUnloadStations: seq<Station>
    var unloadStationsInUse: seq<Station>
    var trucksToUnload: seq<Truck>

    /** n trucks, m stations and the time unit are accepted but do not populate the queues yet. */
    constructor (n: int, m: int, simTimeUnit: int)
      ensures trucks == [] && availableUnloadStations == []
      ensures unloadStationsInUse == [] && trucksToUnload == []
    {
      trucks := [];
      availableUnloadStations := [];
      unloadStationsInUse := [];
      trucksToUnload := [];
    }

    /** The stations in the center, free or busy. */
    ghost function Stations(): multiset<Station>
      reads this
    {
      multiset(unloadStationsInUse) + multiset(availableUnloadStations)
    }

    /** truck_arrived: the truck joins the back of the unloading line. */
    method TruckArrived(truck: Truck)
      modifies this
      ensures trucksToUnload == old(trucksToUnload) + [truck]
      ensures trucks == old(trucks)
      ensures availableUnloadStations == old(availableUnloadStations)
      ensures unloadStationsInUse == old(unloadStationsInUse)
    {
      trucksToUnload := trucksToUnload + [truck];
    }

    /**
     * unload_complete: the station leaves the in-use queue (first occurrence)
     * and joins the back of the available queue. A station that is not in use
     * makes deque.remove raise ValueError before anything is appended.
     */
    method UnloadComplete(station: Station) returns (r: Outcome<PyError>)
      modifies this
      ensures r.Fail? <==> station !in old(unloadStationsInUse)
      ensures r.Fail? ==> r.error == ValueError(RemoveMissingMessage) && unchanged(this)
      ensures r.Pass? ==> unloadStationsInUse == RemoveFirst(old(unloadStationsInUse), station)
      ensures r.Pass? ==> availableUnloadStations == old(availableUnloadStations) + [station]
      ensures Stations() == old(Stations())
      ensures trucks == old(trucks) && trucksToUnload == old(trucksToUnload)
    {
      if station !in unloadStationsInUse {
        return Fail(ValueError(RemoveMissingMessage));
      }
      unloadStationsInUse := RemoveFirst(unloadStationsInUse, station);
      availableUnloadStations := availableUnloadStations + [station];
      r := Pass;
    }
  }

  /**
   * Trucks arriving one after another at a new center wait in arrival order:
   * the i-th arrival is at index i of the unloading line.
   */
  method ArriveInTurn<Truck, Station(==)>(arrivals: seq<Truck>, n: int, m: int, simTimeUnit: int)
    returns (center: MiningControlCenter<Truck, Station>)
    ensures center.trucksToUnload == arrivals
    ensures center.trucks == [] && center.availableUnloadStations == [] && center.unloadStationsInUse == []
  {
    center := new MiningControlCenter(n, m, simTimeUnit);
    var i := 0;
    while i < |arrivals|
      invariant i <= |arrivals|
      invariant center.trucksToUnload == arrivals[..i]
      invariant center.trucks == [] && center.availableUnloadStations == [] && center.unloadStationsInUse == []
    {
      center.TruckArrived(arrivals[i]);
      i := i + 1;
    }
  }
}
