/** The DOM-free rules of the rides page (rides.js): booking validation,
    the edit patch, the status filter, the newest-first list, the empty-list
    message and the ride statistics. Form values are passed in as
    arguments; `window.confirm` is the boolean `confirmed`. */
module Rides {
  import opened Values
  import opened Storage
  import opened Sorting

  // ---------------------------------------------------------------------
  // Statistics (updateStats)

  /** One of the four lifecycle statuses. */
  predicate HasLifecycleStatus(r: Record) {
    IsActive(r) || IsCompleted(r)
  }

  datatype Stats = Stats(total: nat, active: nat, completed: nat)

  /** The three counters of the rides page. Active and completed rides are
      never more than all rides, and add up to all rides exactly when every
      ride has one of the four lifecycle statuses. */
  function RideStats(rides: seq<Record>): (s: Stats)
    ensures s.total == |rides|
    ensures s.active == |Filter(rides, IsActive)| && s.completed == |Filter(rides, IsCompleted)|
    ensures s.active + s.completed <= s.total
    ensures s.active + s.completed == s.total <==> forall i :: 0 <= i < |rides| ==> HasLifecycleStatus(rides[i])
  {
    FilterDisjointCounts(rides, IsActive, IsCompleted);
    Stats(|rides|, |Filter(rides, IsActive)|, |Filter(rides, IsCompleted)|)
  }

  // ---------------------------------------------------------------------
  // Booking (handleBooking)

  /** The ride draft handleBooking builds from the booking form; it has no
      `id` field, so addRide's generated id stands. */
  function BookingData(pickup: string, dropoff: string, rideType: string, price: real,
                       passengers: int, specialRequests: string): (d: Record)
    ensures "id" !in d && "createdAt" !in d && "status" !in d
  {
    map["pickup" := Str(pickup), "dropoff" := Str(dropoff), "rideType" := Str(rideType),
        "price" := Num(price), "passengers" := Num(passengers as real),
        "specialRequests" := Str(specialRequests)]
  }

  /** `!pickup || !dropoff || !rideType` rejects the booking: form values are
      strings, and only the empty one is falsy. */
  predicate BookingComplete(pickup: string, dropoff: string, rideType: string) {
    pickup != "" && dropoff != "" && rideType != ""
  }

  datatype BookingOutcome = MissingFields | Booked(ride: Record)

  /** handleBooking: an incomplete form is rejected before the store is
      touched; otherwise the ride is added and reported as booked, whether
      or not the save worked (addRide always returns the new ride). */
  method HandleBooking(store: Store, pickup: string, dropoff: string, rideType: string, price: real,
                       passengers: int, specialRequests: string, now: int, writeOk: bool)
    returns (outcome: BookingOutcome)
    requires store.Valid()
    modifies store
    ensures store.Valid()
    ensures !BookingComplete(pickup, dropoff, rideType) ==>
              outcome == MissingFields && store.entries == old(store.entries)
              && store.counter == old(store.counter) && store.issued == old(store.issued)
    ensures BookingComplete(pickup, dropoff, rideType) ==>
              && outcome.Booked?
              && outcome.ride == NewRide(BookingData(pickup, dropoff, rideType, price, passengers, specialRequests),
                                         old(store.GetRideCounter()), now)
              && outcome.ride["id"] == Str(RideId(old(store.GetRideCounter())))
              && store.entries == (if writeOk then old(store.entries)[RidesKey := Parsed(old(store.GetRides()) + [outcome.ride])]
                                   else old(store.entries))
              && store.counter == Some(old(store.GetRideCounter()) + 1)
              && store.issued == old(store.issued) + [old(store.GetRideCounter())]
  {
    var rideData := BookingData(pickup, dropoff, rideType, price, passengers, specialRequests);
    if !BookingComplete(pickup, dropoff, rideType) {
      return MissingFields;
    }
    var newRide := store.AddRide(rideData, now, writeOk);
    return Booked(newRide);
  }

  // ---------------------------------------------------------------------
  // Editing (handleEditSubmit)

  /** The patch handleEditSubmit sends: every editable field, never `id`
      or `createdAt`. */
  function EditData(pickup: string, dropoff: string, rideType: string, price: real, passengers: int,
                    status: string, specialRequests: string): (d: Record)
    ensures "id" !in d && "createdAt" !in d && "updatedAt" !in d
  {
    map["pickup" := Str(pickup), "dropoff" := Str(dropoff), "rideType" := Str(rideType),
        "price" := Num(price), "passengers" := Num(passengers as real), "status" := Str(status),
        "specialRequests" := Str(specialRequests)]
  }

  /** handleEditSubmit: updateRide with the edit form; the id and creation
      time of the ride are kept, and an unknown id changes nothing. */
  method HandleEditSubmit(store: Store, rideId: string, pickup: string, dropoff: string, rideType: string,
                          price: real, passengers: int, status: string, specialRequests: string,
                          now: int, writeOk: bool)
    returns (updated: Option<Record>)
    modifies store
    ensures var rides, i := old(store.GetRides()), FindIndex(old(store.GetRides()), rideId);
            var patch := EditData(pickup, dropoff, rideType, price, passengers, status, specialRequests);
            if i == -1 then updated == None && store.entries == old(store.entries)
            else && updated == Some(Merge(rides[i], patch, now))
                 && ("id" in rides[i] ==> updated.value["id"] == rides[i]["id"])
                 && ("createdAt" in rides[i] ==> updated.value["createdAt"] == rides[i]["createdAt"])
                 && updated.value["status"] == Str(status)
                 && store.entries == if writeOk then old(store.entries)[RidesKey := Parsed(rides[i := updated.value])]
                                     else old(store.entries)
    ensures store.counter == old(store.counter) && store.issued == old(store.issued)
  {
    var updatedData := EditData(pickup, dropoff, rideType, price, passengers, status, specialRequests);
    updated := store.UpdateRide(rideId, updatedData, now, writeOk);
  }

  /** deleteRide: the store is asked to delete only after a confirmation. */
  method DeleteRide(store: Store, rideId: string, confirmed: bool, writeOk: bool)
    modifies store
    ensures !confirmed ==> store.entries == old(store.entries)
    ensures confirmed ==> store.entries == if writeOk then old(store.entries)[RidesKey := Parsed(WithoutId(old(store.GetRides()), rideId))]
                                           else old(store.entries)
    ensures store.counter == old(store.counter) && store.issued == old(store.issued)
  {
    if confirmed {
      var _ := store.DeleteRide(rideId, writeOk);
    }
  }

  // ---------------------------------------------------------------------
  // The list (renderRides, getEmptyState)

  datatype EmptyMessage = EmptyMessage(icon: string, title: string, text: string)

  const AllRidesMessage := EmptyMessage("\U{1F697}", "No rides booked yet", "Book your first ride to get started!")
  const PendingMessage := EmptyMessage("⏳", "No pending rides", "All rides have been confirmed or completed.")
  const ConfirmedMessage := EmptyMessage("✅", "No confirmed rides", "No rides are currently confirmed.")
  const InProgressMessage := EmptyMessage("\U{1F695}", "No rides in progress", "No active rides at the moment.")
  const CompletedMessage := EmptyMessage("✓", "No completed rides", "Complete your first ride!")

  /** `messages[currentFilter] || messages.all` */
  function EmptyStateFor(filter: string): (m: EmptyMessage)
    ensures filter == "pending" ==> m == PendingMessage
    ensures filter == "confirmed" ==> m == ConfirmedMessage
    ensures filter == "in-progress" ==> m == InProgressMessage
    ensures filter == "completed" ==> m == CompletedMessage
    ensures filter !in {"pending", "confirmed", "in-progress", "completed"} ==> m == AllRidesMessage
  {
    match filter
    case "pending" => PendingMessage
    case "confirmed" => ConfirmedMessage
    case "in-progress" => InProgressMessage
    case "completed" => CompletedMessage
    case _ => AllRidesMessage
  }

  /** The sort key of `new Date(ride.createdAt)`. */
  function CreatedAtKey(r: Record): real {
    if "createdAt" in r && r["createdAt"].Timestamp? then r["createdAt"].ms as real else 0.0
  }

  predicate HasCreationTime(r: Record) {
    "createdAt" in r && r["createdAt"].Timestamp?
  }

  datatype RideListView = NoRides(message: EmptyMessage) | RideCards(rides: seq<Record>)

  /** The module's state: the status filter of the list. */
  class RidesPage {
    var currentFilter: string

    constructor ()
      ensures currentFilter == "all"
    {
      currentFilter := "all";
    }

    /** A filter button click: the filter becomes the button's value. */
    method SelectFilter(filter: string)
      modifies this
      ensures currentFilter == filter
    {
      currentFilter := filter;
    }

    /** renderRides: the empty-list message for the current filter, or
        the rides that the filter selects in an order that is newest first. */
    method RenderRides(store: Store) returns (view: RideListView)
      requires forall r :: r in store.GetRidesByStatus(currentFilter) ==> HasCreationTime(r)
      ensures var rides := store.GetRidesByStatus(currentFilter);
              if rides == [] then view == NoRides(EmptyStateFor(currentFilter))
              else && view.RideCards?
                   && multiset(view.rides) == multiset(rides)
                   && SortedDescending(view.rides, CreatedAtKey)
    {
      var rides := store.GetRidesByStatus(currentFilter);
      if |rides| == 0 {
        return NoRides(EmptyStateFor(currentFilter));
      }
      var a := new Record[|rides|](i requires 0 <= i < |rides| => rides[i]);
      assert a[..] == rides;
      SortDescending(a, CreatedAtKey);
      return RideCards(a[..]);
    }
  }

  /** The 'all' filter lists every stored ride, as many as the total count. */
  lemma AllFilterCountsTotal(store: Store)
    ensures |store.GetRidesByStatus("all")| == RideStats(store.GetRides()).total
  {
  }
}
