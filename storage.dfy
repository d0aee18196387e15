/** The persistence and record layer (storage.js): a ride list, a driver
    list and a ride counter kept in the browser's string key-value store,
    and the ride and driver operations built on them. */
module Storage {
  import opened Values

  const RidesKey := "rideflow_rides"
  const DriversKey := "rideflow_drivers"
  /** The counter that the first ride id is built from when none is stored. */
  const FirstRideNumber := 1001

  /** `getItem` then `JSON.parse`, falling back to `[]`. */
  function LoadList(entries: map<string, Entry>, key: string): seq<Record> {
    if key in entries && entries[key].Parsed? then entries[key].records else []
  }

  /** `RIDE-${counter}` */
  function RideId(counter: int): string {
    "RIDE-" + IntToString(counter)
  }

  /** Different counter values give different ride ids. */
  lemma RideIdInjective(a: int, b: int)
    requires RideId(a) == RideId(b)
    ensures a == b
  {
    assert RideId(a)[5..] == IntToString(a);
    assert RideId(b)[5..] == IntToString(b);
    IntToStringInjective(a, b);
  }

  /** `DRV-${Date.now()}` for the clock reading `clock`. */
  function DriverId(clock: int): string {
    "DRV-" + IntToString(clock)
  }

  /** Different clock readings give different driver ids; two drivers added
      within the same millisecond share one. */
  lemma DriverIdInjective(a: int, b: int)
    ensures DriverId(a) == DriverId(b) <==> a == b
  {
    if DriverId(a) == DriverId(b) {
      assert DriverId(a)[4..] == IntToString(a);
      assert DriverId(b)[4..] == IntToString(b);
      IntToStringInjective(a, b);
    }
  }

  /** `{ id: RIDE-counter, ...draft, createdAt: now, status: 'pending' }`:
      the generated id unless the draft brings its own, the draft's other
      fields, and a forced creation time and status. */
  function NewRide(draft: Record, counter: int, now: int): (r: Record)
    ensures r.Keys == draft.Keys + {"id", "createdAt", "status"}
    ensures r["status"] == Str("pending") && r["createdAt"] == Timestamp(now)
    ensures "id" !in draft ==> r["id"] == Str(RideId(counter))
    ensures "id" in draft ==> r["id"] == draft["id"]
    ensures forall k :: k in draft && k != "createdAt" && k != "status" ==> r[k] == draft[k]
  {
    map["id" := Str(RideId(counter))] + draft + map["createdAt" := Timestamp(now), "status" := Str("pending")]
  }

  /** `{ ...existing, ...patch, updatedAt: now }`: patch fields override,
      fields the patch does not mention keep their value, and the update
      time is forced. */
  function Merge(existing: Record, patch: Record, now: int): (r: Record)
    ensures r.Keys == existing.Keys + patch.Keys + {"updatedAt"}
    ensures r["updatedAt"] == Timestamp(now)
    ensures forall k :: k in patch && k != "updatedAt" ==> r[k] == patch[k]
    ensures forall k :: k in existing && k !in patch && k != "updatedAt" ==> r[k] == existing[k]
  {
    existing + patch + map["updatedAt" := Timestamp(now)]
  }

  /** `{ id: DRV-clock, ...draft, createdAt: now }` */
  function NewDriver(draft: Record, clock: int, now: int): (d: Record)
    ensures d.Keys == draft.Keys + {"id", "createdAt"}
    ensures d["createdAt"] == Timestamp(now)
    ensures "id" !in draft ==> d["id"] == Str(DriverId(clock))
    ensures forall k :: k in draft && k != "createdAt" ==> d[k] == draft[k]
  {
    map["id" := Str(DriverId(clock))] + draft + map["createdAt" := Timestamp(now)]
  }

  /** The storage object. `entries` is the part of the backing store under
      the ride and driver keys; `counter` is the stored ride counter, if
      any. Every write may fail (quota, serialisation): the caller of each
      writing method says whether it succeeds through `writeOk`. */
  class Store {
    var entries: map<string, Entry>
    var counter: Option<int>
    /** The counter values addRide has used since the store was created or
        last cleared, in order of use. */
    ghost var issued: seq<int>

    /** Counter values are handed out in increasing order and all lie below
        the next one. */
    ghost predicate Valid()
      reads this
    {
      && (forall i :: 0 <= i < |issued| ==> issued[i] < GetRideCounter())
      && (forall i, j :: 0 <= i < j < |issued| ==> issued[i] < issued[j])
    }

    /** A store over whatever the browser already holds. */
    constructor (entries: map<string, Entry>, counter: Option<int>)
      ensures Valid()
      ensures this.entries == entries && this.counter == counter && issued == []
    {
      this.entries := entries;
      this.counter := counter;
      issued := [];
    }

    /** getRides: the parsed list under the rides key, or the empty list
        when the key is absent or does not parse. Loading never fails. */
    function GetRides(): (rides: seq<Record>)
      reads this
      ensures RidesKey in entries && entries[RidesKey].Parsed? ==> rides == entries[RidesKey].records
      ensures RidesKey !in entries || entries[RidesKey] == Corrupt ==> rides == []
    {
      LoadList(entries, RidesKey)
    }

    /** getDrivers: the same for the drivers key. */
    function GetDrivers(): (drivers: seq<Record>)
      reads this
      ensures DriversKey in entries && entries[DriversKey].Parsed? ==> drivers == entries[DriversKey].records
      ensures DriversKey !in entries || entries[DriversKey] == Corrupt ==> drivers == []
    {
      LoadList(entries, DriversKey)
    }

    /** The stored counter, or 1001 when there is none. */
    function GetRideCounter(): (c: int)
      reads this
      ensures counter == None ==> c == FirstRideNumber
      ensures counter.Some? ==> c == counter.value
    {
      if counter.Some? then counter.value else FirstRideNumber
    }

    method SaveRides(rides: seq<Record>, writeOk: bool) returns (ok: bool)
      modifies this
      ensures ok == writeOk
      ensures entries == if ok then old(entries)[RidesKey := Parsed(rides)] else old(entries)
      ensures ok ==> GetRides() == rides
      ensures counter == old(counter) && issued == old(issued)
    {
      if writeOk {
        entries := entries[RidesKey := Parsed(rides)];
      }
      ok := writeOk;
    }

    method SaveDrivers(drivers: seq<Record>, writeOk: bool) returns (ok: bool)
      modifies this
      ensures ok == writeOk
      ensures entries == if ok then old(entries)[DriversKey := Parsed(drivers)] else old(entries)
      ensures ok ==> GetDrivers() == drivers
      ensures counter == old(counter) && issued == old(issued)
    {
      if writeOk {
        entries := entries[DriversKey := Parsed(drivers)];
      }
      ok := writeOk;
    }

    /** Stores exactly one more than the current counter. */
    method IncrementRideCounter()
      requires Valid()
      modifies this
      ensures Valid()
      ensures counter == Some(old(GetRideCounter()) + 1)
      ensures entries == old(entries) && issued == old(issued)
    {
      var c := GetRideCounter();
      counter := Some(c + 1);
    }

    /** addRide: builds the ride from the counter, appends it to the stored
        list and saves the list (ignoring whether that worked), then bumps
        the counter in any case. */
    method AddRide(ride: Record, now: int, writeOk: bool) returns (newRide: Record)
      requires Valid()
      modifies this
      ensures Valid()
      ensures newRide == NewRide(ride, old(GetRideCounter()), now)
      ensures entries == if writeOk then old(entries)[RidesKey := Parsed(old(GetRides()) + [newRide])]
                         else old(entries)
      ensures writeOk ==> GetRides() == old(GetRides()) + [newRide]
      ensures counter == Some(old(GetRideCounter()) + 1)
      ensures issued == old(issued) + [old(GetRideCounter())]
    {
      var rides := GetRides();
      var c := GetRideCounter();
      newRide := map["id" := Str(RideId(c))] + ride + map["createdAt" := Timestamp(now), "status" := Str("pending")];
      rides := rides + [newRide];
      var _ := SaveRides(rides, writeOk);
      IncrementRideCounter();
      issued := issued + [c];
    }

    /** updateRide: merges the patch into the first ride with that id and
        saves; with no such ride nothing is written and the result is null. */
    method UpdateRide(id: string, updatedData: Record, now: int, writeOk: bool) returns (r: Option<Record>)
      modifies this
      ensures var rides, i := old(GetRides()), FindIndex(old(GetRides()), id);
              if i == -1 then r == None && entries == old(entries)
              else r == Some(Merge(rides[i], updatedData, now))
                   && entries == if writeOk then old(entries)[RidesKey := Parsed(rides[i := r.value])]
                                 else old(entries)
      ensures counter == old(counter) && issued == old(issued)
    {
      var rides := GetRides();
      var index := FindIndex(rides, id);
      if index != -1 {
        rides := rides[index := rides[index] + updatedData + map["updatedAt" := Timestamp(now)]];
        var _ := SaveRides(rides, writeOk);
        return Some(rides[index]);
      }
      return None;
    }

    /** deleteRide: saves the list without the rides carrying `id` and
        reports success whatever happened. */
    method DeleteRide(id: string, writeOk: bool) returns (ok: bool)
      modifies this
      ensures ok
      ensures entries == if writeOk then old(entries)[RidesKey := Parsed(WithoutId(old(GetRides()), id))]
                         else old(entries)
      ensures writeOk ==> GetRideById(id) == None
      ensures counter == old(counter) && issued == old(issued)
    {
      var rides := GetRides();
      var filteredRides := WithoutId(rides, id);
      var _ := SaveRides(filteredRides, writeOk);
      WithoutIdRemovesExactly(rides, id);
      return true;
    }

    /** getRideById: the first stored ride with that id, or null. */
    function GetRideById(id: string): (r: Option<Record>)
      reads this
      ensures r.None? <==> forall j :: 0 <= j < |GetRides()| ==> !HasId(GetRides()[j], id)
      ensures r.Some? ==> exists i :: 0 <= i < |GetRides()| && GetRides()[i] == r.value && HasId(r.value, id)
                                      && forall j :: 0 <= j < i ==> !HasId(GetRides()[j], id)
    {
      FindById(GetRides(), id)
    }

    /** getRidesByStatus: every ride for the sentinel 'all', otherwise the
        rides with that status, in stored order. */
    function GetRidesByStatus(status: string): (rs: seq<Record>)
      reads this
      ensures status == "all" ==> rs == GetRides()
      ensures IsSubsequence(rs, GetRides())
      ensures status != "all" ==> forall r :: r in rs <==> r in GetRides() && HasStatus(r, status)
      ensures status != "all" ==> forall r :: multiset(rs)[r] == if HasStatus(r, status) then multiset(GetRides())[r] else 0
    {
      var rides := GetRides();
      if status == "all" then
        NoDropIsSubsequence(rides);
        rides
      else
        FilterIsSubsequence(rides, (r: Record) => HasStatus(r, status));
        FilterMultiset(rides, (r: Record) => HasStatus(r, status));
        Filter(rides, (r: Record) => HasStatus(r, status))
    }

    /** addDriver: appends `{ id: DRV-clock, ...driver, createdAt: now }`
        to the stored drivers and saves (ignoring whether that worked). */
    method AddDriver(driver: Record, clock: int, now: int, writeOk: bool) returns (newDriver: Record)
      modifies this
      ensures newDriver == NewDriver(driver, clock, now)
      ensures entries == if writeOk then old(entries)[DriversKey := Parsed(old(GetDrivers()) + [newDriver])]
                         else old(entries)
      ensures counter == old(counter) && issued == old(issued)
    {
      var drivers := GetDrivers();
      newDriver := map["id" := Str(DriverId(clock))] + driver + map["createdAt" := Timestamp(now)];
      drivers := drivers + [newDriver];
      var _ := SaveDrivers(drivers, writeOk);
    }

    /** deleteDriver: saves the drivers without those carrying `id` and
        reports success whatever happened. */
    method DeleteDriver(id: string, writeOk: bool) returns (ok: bool)
      modifies this
      ensures ok
      ensures entries == if writeOk then old(entries)[DriversKey := Parsed(WithoutId(old(GetDrivers()), id))]
                         else old(entries)
      ensures counter == old(counter) && issued == old(issued)
    {
      var drivers := GetDrivers();
      var filteredDrivers := WithoutId(drivers, id);
      var _ := SaveDrivers(filteredDrivers, writeOk);
      return true;
    }

    /** clearAll: removes the three keys. The counter starts again at 1001. */
    method ClearAll()
      modifies this
      ensures Valid()
      ensures entries == old(entries) - {RidesKey, DriversKey}
      ensures counter == None && issued == []
    {
      entries := entries - {RidesKey, DriversKey};
      counter := None;
      issued := [];
    }
  }

  /** A sequence is a subsequence of itself. */
  lemma {:induction false} NoDropIsSubsequence<T>(s: seq<T>)
    ensures IsSubsequence(s, s)
  {
    if s != [] {
      NoDropIsSubsequence(s[1..]);
    }
  }

  /** The ride ids of the counter values a valid store has handed out are
      pairwise distinct, and each is different from the id the next addRide
      will use. */
  lemma IssuedRideIdsDistinct(issued: seq<int>, next: int)
    requires forall i :: 0 <= i < |issued| ==> issued[i] < next
    requires forall i, j :: 0 <= i < j < |issued| ==> issued[i] < issued[j]
    ensures forall i, j :: 0 <= i < j < |issued| ==> RideId(issued[i]) != RideId(issued[j])
    ensures forall i :: 0 <= i < |issued| ==> RideId(issued[i]) != RideId(next)
  {
    forall i, j | 0 <= i < j < |issued| ensures RideId(issued[i]) != RideId(issued[j]) {
      if RideId(issued[i]) == RideId(issued[j]) { RideIdInjective(issued[i], issued[j]); }
    }
    forall i | 0 <= i < |issued| ensures RideId(issued[i]) != RideId(next) {
      if RideId(issued[i]) == RideId(next) { RideIdInjective(issued[i], next); }
    }
  }

  /** Two bookings on an empty store get RIDE-1001 and then RIDE-1002. */
  method TwoBookingsOnEmptyStore(a: Record, b: Record, t1: int, t2: int)
    returns (store: Store, first: Record, second: Record)
    requires "id" !in a && "id" !in b
    ensures HasId(first, RideId(FirstRideNumber)) && HasId(second, RideId(FirstRideNumber + 1))
    ensures store.issued == [FirstRideNumber, FirstRideNumber + 1]
  {
    store := new Store(map[], None);
    assert store.GetRideCounter() == FirstRideNumber;
    first := store.AddRide(a, t1, true);
    assert store.GetRideCounter() == FirstRideNumber + 1;
    second := store.AddRide(b, t2, true);
  }
}
