/** The earlier, self-contained generation of the application (app.js): one
    object that keeps the rides and drivers in memory, writes each list whole
    to the keys 'rides' and 'drivers' of the browser's key-value store, and
    does its own validation. Ids come from `generateId` and are passed in;
    form values are passed in as arguments; `confirm` is `confirmed`. */
module LegacyApp {
  import opened Values

  const RidesKey := "rides"
  const DriversKey := "drivers"

  // ---------------------------------------------------------------------
  // String.prototype.trim

  /** The characters `trim` removes: ECMAScript WhiteSpace and
      LineTerminator. */
  predicate IsJsWhitespace(c: char) {
    || c == '\t' || c == '\n' || c == '\U{000B}' || c == '\U{000C}' || c == '\r' || c == ' '
    || c == '\U{00A0}' || c == '\U{1680}' || ('\U{2000}' <= c <= '\U{200A}')
    || c == '\U{2028}' || c == '\U{2029}' || c == '\U{202F}' || c == '\U{205F}'
    || c == '\U{3000}' || c == '\U{FEFF}'
  }

  /** `trimStart`: drops the leading whitespace. */
  function TrimStart(s: string): string {
    if s != [] && IsJsWhitespace(s[0]) then TrimStart(s[1..]) else s
  }

  /** `trimEnd`: drops the trailing whitespace. */
  function TrimEnd(s: string): string {
    if s != [] && IsJsWhitespace(s[|s| - 1]) then TrimEnd(s[..|s| - 1]) else s
  }

  /** `s.trim()` */
  function Trim(s: string): string {
    TrimEnd(TrimStart(s))
  }

  /** TrimStart keeps a suffix, drops only whitespace, and stops at a
      character that is not whitespace. */
  lemma {:induction false} TrimStartSpec(s: string)
    ensures var r := TrimStart(s);
            && |r| <= |s| && r == s[|s| - |r|..]
            && (forall k :: 0 <= k < |s| - |r| ==> IsJsWhitespace(s[k]))
            && (r == [] || !IsJsWhitespace(r[0]))
  {
    if s != [] && IsJsWhitespace(s[0]) {
      TrimStartSpec(s[1..]);
      var r := TrimStart(s[1..]);
      assert s[1..][|s| - 1 - |r|..] == s[|s| - |r|..];
      forall k | 0 <= k < |s| - |r| ensures IsJsWhitespace(s[k]) {
        if k > 0 { assert s[k] == s[1..][k - 1]; }
      }
    }
  }

  /** TrimEnd keeps a prefix, drops only whitespace, and stops at a
      character that is not whitespace. */
  lemma {:induction false} TrimEndSpec(s: string)
    ensures var r := TrimEnd(s);
            && |r| <= |s| && r == s[..|r|]
            && (forall k :: |r| <= k < |s| ==> IsJsWhitespace(s[k]))
            && (r == [] || !IsJsWhitespace(r[|r| - 1]))
  {
    if s != [] && IsJsWhitespace(s[|s| - 1]) {
      var t := s[..|s| - 1];
      TrimEndSpec(t);
      var r := TrimEnd(t);
      assert t[..|r|] == s[..|r|];
      forall k | |r| <= k < |s| ensures IsJsWhitespace(s[k]) {
        if k < |s| - 1 { assert s[k] == t[k]; }
      }
    }
  }

  /** `s.trim()` is the part of `s` between its leading and its trailing
      whitespace, and begins and ends with a character that is not
      whitespace. */
  lemma TrimSpec(s: string)
    ensures |TrimStart(s)| <= |s|
    ensures var r, i := Trim(s), |s| - |TrimStart(s)|;
            && i + |r| <= |s| && r == s[i..i + |r|]
            && (forall k :: 0 <= k < i ==> IsJsWhitespace(s[k]))
            && (forall k :: i + |r| <= k < |s| ==> IsJsWhitespace(s[k]))
            && (r == [] || (!IsJsWhitespace(r[0]) && !IsJsWhitespace(r[|r| - 1])))
  {
    var t := TrimStart(s);
    TrimStartSpec(s);
    TrimEndSpec(t);
    var r := TrimEnd(t);
    var i := |s| - |t|;
    assert r == s[i..i + |r|];
    forall k | i + |r| <= k < |s| ensures IsJsWhitespace(s[k]) {
      assert s[k] == t[k - i];
    }
    assert r != [] ==> r[0] == t[0];
  }

  /** A trimmed field is empty exactly when it held only whitespace. */
  lemma TrimEmptyIff(s: string)
    ensures Trim(s) == "" <==> forall k :: 0 <= k < |s| ==> IsJsWhitespace(s[k])
  {
    TrimSpec(s);
    if Trim(s) != "" {
      var i := |s| - |TrimStart(s)|;
      assert !IsJsWhitespace(s[i]);
    }
  }

  /** Trimming twice is trimming once. */
  lemma TrimIdempotent(s: string)
    ensures Trim(Trim(s)) == Trim(s)
  {
    TrimSpec(s);
    var t := Trim(s);
    if t != [] {
      assert TrimStart(t) == t;
      assert TrimEnd(t) == t;
    }
  }

  // ---------------------------------------------------------------------
  // Loading (loadFromStorage) and the default drivers

  /** loadFromStorage: the parsed list, or null (None) when the key is
      absent, empty or does not parse. */
  function LoadFromStorage(store: map<string, Entry>, key: string): (r: Option<seq<Record>>)
    ensures r == None <==> key !in store || store[key] == Corrupt
  {
    if key in store && store[key].Parsed? then Some(store[key].records) else None
  }

  /** `loadFromStorage(key) || fallback`: a parsed list is an object, so even
      a stored empty list is kept. */
  function LoadOr(store: map<string, Entry>, key: string, fallback: seq<Record>): (r: seq<Record>)
    ensures key in store && store[key].Parsed? ==> r == store[key].records
    ensures key !in store || store[key] == Corrupt ==> r == fallback
  {
    var loaded := LoadFromStorage(store, key);
    if loaded.Some? then loaded.value else fallback
  }

  function DemoDriver(id: string, name: string, phone: string, vehicle: string, plate: string,
                      rating: real, status: string): Record {
    map["id" := Str(id), "name" := Str(name), "phone" := Str(phone), "vehicle" := Str(vehicle),
        "plate" := Str(plate), "rating" := Num(rating), "status" := Str(status)]
  }

  /** A list saved under a key loads back as that list, and the other keys
      load as before. */
  lemma SaveThenLoad(store: map<string, Entry>, key: string, data: seq<Record>, other: string)
    requires other != key
    ensures LoadFromStorage(store[key := Parsed(data)], key) == Some(data)
    ensures LoadFromStorage(store[key := Parsed(data)], other) == LoadFromStorage(store, other)
  {
  }

  /** getDefaultDrivers, with the three generated ids passed in. */
  function DefaultDrivers(id1: string, id2: string, id3: string): (ds: seq<Record>)
    ensures |ds| == 3
    ensures forall i :: 0 <= i < 3 ==> "rating" in ds[i] && ds[i]["rating"].Num?
                                       && 1.0 <= ds[i]["rating"].n <= 5.0
  {
    [ DemoDriver(id1, "Alex Rivera", "+1 (555) 123-4567", "Tesla Model 3", "NRD-2024", 4.9, "available"),
      DemoDriver(id2, "Jordan Chen", "+1 (555) 234-5678", "BMW X5", "LUX-8901", 4.8, "busy"),
      DemoDriver(id3, "Sam Rodriguez", "+1 (555) 345-6789", "Mercedes S-Class", "PRE-5432", 5.0, "available") ]
  }

  // ---------------------------------------------------------------------
  // Record building

  /** The record createRide builds, before validation. */
  function RideForm(id: string, pickup: string, dropoff: string, rideType: string, passengers: int,
                    notes: string, now: int): Record
  {
    map["id" := Str(id), "pickup" := Str(Trim(pickup)), "dropoff" := Str(Trim(dropoff)),
        "rideType" := Str(rideType), "passengers" := Num(passengers as real), "notes" := Str(Trim(notes)),
        "status" := Str("pending"), "bookedAt" := Timestamp(now)]
  }

  /** The six fields updateRide assigns, with their new values. */
  function EditFields(pickup: string, dropoff: string, rideType: string, passengers: int,
                      notes: string, status: string): Record
  {
    map["pickup" := Str(Trim(pickup)), "dropoff" := Str(Trim(dropoff)), "rideType" := Str(rideType),
        "passengers" := Num(passengers as real), "notes" := Str(Trim(notes)), "status" := Str(status)]
  }

  /** The validation of saveDriver: name, phone, vehicle and plate are
      non-blank once trimmed. */
  predicate DriverFormComplete(name: string, phone: string, vehicle: string, plate: string) {
    Trim(name) != "" && Trim(phone) != "" && Trim(vehicle) != "" && Trim(plate) != ""
  }

  /** The driver form of saveDriver, without an id. */
  function DriverForm(name: string, phone: string, vehicle: string, plate: string, rating: real,
                      status: string): Record
  {
    map["name" := Str(Trim(name)), "phone" := Str(Trim(phone)), "vehicle" := Str(Trim(vehicle)),
        "plate" := Str(Trim(plate)), "rating" := Num(rating), "status" := Str(status)]
  }

  /** Assigning the fields of `fields` to the object `target` (the six
      assignments of updateRide, `Object.assign` in saveDriver): those
      fields take the new values, every other field (the id among them)
      stays. */
  function Assign(target: Record, fields: Record): (r: Record)
    ensures r.Keys == target.Keys + fields.Keys
    ensures forall k :: k in fields ==> r[k] == fields[k]
    ensures forall k :: k in target && k !in fields ==> r[k] == target[k]
  {
    target + fields
  }

  /** The driver list after saveDriver accepts `form`: with an id, the
      form is assigned to the first driver with that id and the others stay
      (no such driver: nothing changes); without one, the form with the
      generated id is appended. */
  function SavedDrivers(drivers: seq<Record>, id: string, form: Record, newId: string): (ds: seq<Record>)
    ensures id != "" ==> |ds| == |drivers|
    ensures id != "" && FindIndex(drivers, id) == -1 ==> ds == drivers
    ensures id != "" && FindIndex(drivers, id) != -1 ==>
              var i := FindIndex(drivers, id);
              && ds[i] == Assign(drivers[i], form)
              && forall j :: 0 <= j < |drivers| && j != i ==> ds[j] == drivers[j]
    ensures id == "" ==> |ds| == |drivers| + 1 && ds[..|drivers|] == drivers
                         && ds[|drivers|] == form["id" := Str(newId)]
  {
    if id != "" then
      var i := FindIndex(drivers, id);
      if i == -1 then drivers else drivers[i := Assign(drivers[i], form)]
    else
      drivers + [form["id" := Str(newId)]]
  }

  /** A booked ride is pending, carries its id and booking time, its
      pickup, dropoff and notes are the trimmed form values (so neither begin
      nor end with whitespace), and its ride type and passenger count are
      the form's. */
  lemma CreatedRideFields(id: string, pickup: string, dropoff: string, rideType: string, passengers: int,
                          notes: string, now: int)
    ensures var r := RideForm(id, pickup, dropoff, rideType, passengers, notes, now);
            && HasId(r, id) && HasStatus(r, "pending") && "bookedAt" in r && r["bookedAt"] == Timestamp(now)
            && "pickup" in r && r["pickup"].Str? && Trimmed(r["pickup"].s)
            && "dropoff" in r && r["dropoff"].Str? && Trimmed(r["dropoff"].s)
            && "notes" in r && r["notes"].Str? && Trimmed(r["notes"].s)
            && r["pickup"] == Str(Trim(pickup)) && r["dropoff"] == Str(Trim(dropoff))
            && r["notes"] == Str(Trim(notes))
            && r["rideType"] == Str(rideType) && r["passengers"] == Num(passengers as real)
  {
    TrimSpec(pickup);
    TrimSpec(dropoff);
    TrimSpec(notes);
  }

  /** Neither the first nor the last character is whitespace. */
  predicate Trimmed(s: string) {
    s == [] || (!IsJsWhitespace(s[0]) && !IsJsWhitespace(s[|s| - 1]))
  }

  /** updateRide changes the six edited fields and nothing else: the ride
      keeps its id and its booking time. */
  lemma EditKeepsIdentity(ride: Record, pickup: string, dropoff: string, rideType: string, passengers: int,
                          notes: string, status: string)
    ensures var r := Assign(ride, EditFields(pickup, dropoff, rideType, passengers, notes, status));
            && r.Keys == ride.Keys + {"pickup", "dropoff", "rideType", "passengers", "notes", "status"}
            && ("id" in ride ==> r["id"] == ride["id"])
            && ("bookedAt" in ride ==> r["bookedAt"] == ride["bookedAt"])
            && r["status"] == Str(status) && r["pickup"] == Str(Trim(pickup))
  {
    var f := EditFields(pickup, dropoff, rideType, passengers, notes, status);
    assert f.Keys == {"pickup", "dropoff", "rideType", "passengers", "notes", "status"};
    assert "id" !in f && "bookedAt" !in f;
  }

  /** The driver form holds the trimmed name, phone, vehicle and plate, the
      rating and status as given, and no id, so Object.assign keeps the
      edited driver's id. */
  lemma DriverFormFields(name: string, phone: string, vehicle: string, plate: string, rating: real,
                         status: string)
    ensures var f := DriverForm(name, phone, vehicle, plate, rating, status);
            && f.Keys == {"name", "phone", "vehicle", "plate", "rating", "status"}
            && f["name"] == Str(Trim(name)) && f["phone"] == Str(Trim(phone))
            && f["vehicle"] == Str(Trim(vehicle)) && f["plate"] == Str(Trim(plate))
            && f["rating"] == Num(rating) && f["status"] == Str(status)
  {
  }

  /** saveDriver rejects the form exactly when one of the four required
      fields is empty or only whitespace. */
  lemma DriverFormCompleteIff(name: string, phone: string, vehicle: string, plate: string)
    ensures DriverFormComplete(name, phone, vehicle, plate) <==>
              && (exists k :: 0 <= k < |name| && !IsJsWhitespace(name[k]))
              && (exists k :: 0 <= k < |phone| && !IsJsWhitespace(phone[k]))
              && (exists k :: 0 <= k < |vehicle| && !IsJsWhitespace(vehicle[k]))
              && (exists k :: 0 <= k < |plate| && !IsJsWhitespace(plate[k]))
  {
    TrimEmptyIff(name);
    TrimEmptyIff(phone);
    TrimEmptyIff(vehicle);
    TrimEmptyIff(plate);
  }

  /** An edited driver keeps their id; an added one has the generated id. */
  lemma SavedDriverIds(drivers: seq<Record>, id: string, name: string, phone: string, vehicle: string,
                       plate: string, rating: real, status: string, newId: string)
    ensures var ds := SavedDrivers(drivers, id, DriverForm(name, phone, vehicle, plate, rating, status), newId);
            && (id != "" ==> forall j :: 0 <= j < |drivers| && "id" in drivers[j] ==> "id" in ds[j] && ds[j]["id"] == drivers[j]["id"])
            && (id == "" ==> HasId(ds[|ds| - 1], newId))
  {
  }

  // ---------------------------------------------------------------------
  // Helpers

  datatype AppStats = AppStats(total: nat, active: nat)


  /** updateStats: all rides, and those pending, confirmed or in progress. */
  function RideCounts(rides: seq<Record>): (s: AppStats)
    ensures s.total == |rides| && s.active <= s.total
    ensures s.active == |Filter(rides, IsActive)|
    ensures s.active == s.total <==> forall i :: 0 <= i < |rides| ==> IsActive(rides[i])
  {
    FilterKeepsCountIff(rides, IsActive);
    AppStats(|rides|, |Filter(rides, IsActive)|)
  }

  /** The icons of getRideIcon as the file spells them: each emoji's UTF-8
      bytes read as Windows-1254 text, the last byte of the xl icon lost. */
  const LegacyEconomyIcon := "\U{011F}\U{0178}\U{0161}\U{2014}"
  const LegacyComfortIcon := "\U{011F}\U{0178}\U{0161}\U{2122}"
  const LegacyPremiumIcon := "\U{011F}\U{0178}\U{0161}\U{02DC}"
  const LegacyXlIcon := "\U{011F}\U{0178}\U{0161}"

  /** getRideIcon: the icon of a known ride type, the economy icon for
      anything else. */
  function GetRideIcon(rideType: string): (icon: string)
    ensures rideType == "comfort" ==> icon == LegacyComfortIcon
    ensures rideType == "premium" ==> icon == LegacyPremiumIcon
    ensures rideType == "xl" ==> icon == LegacyXlIcon
    ensures rideType !in {"comfort", "premium", "xl"} ==> icon == LegacyEconomyIcon
  {
    match rideType
    case "comfort" => LegacyComfortIcon
    case "premium" => LegacyPremiumIcon
    case "xl" => LegacyXlIcon
    case _ => LegacyEconomyIcon
  }

  /** Comfort, premium and xl each have an icon of their own; every other
      ride type, economy among them, gets the economy icon. */
  lemma LegacyRideIconsDistinct(rideType: string)
    ensures GetRideIcon(rideType) == LegacyEconomyIcon <==> rideType !in {"comfort", "premium", "xl"}
  {
  }

  const MinuteMs := 60000
  const HourMs := 3600000
  const DayMs := 86400000

  /** The relative part of formatDate for `diffMs = now - date`, with
      `Math.floor` of a quotient by a positive constant (Dafny's `/`);
      None where formatDate falls back to an absolute date. */
  function FormatElapsed(diffMs: int): (r: Option<string>)
    ensures diffMs < MinuteMs ==> r == Some("Just now")
    ensures MinuteMs <= diffMs < HourMs ==>
              1 <= diffMs / MinuteMs < 60 && r == Some(NatToString(diffMs / MinuteMs) + "m ago")
    ensures HourMs <= diffMs < DayMs ==>
              1 <= diffMs / HourMs < 24 && r == Some(NatToString(diffMs / HourMs) + "h ago")
    ensures DayMs <= diffMs < 7 * DayMs ==>
              1 <= diffMs / DayMs < 7 && r == Some(NatToString(diffMs / DayMs) + "d ago")
    ensures r == None <==> diffMs >= 7 * DayMs
  {
    var diffMins := diffMs / MinuteMs;
    var diffHours := diffMs / HourMs;
    var diffDays := diffMs / DayMs;
    if diffMins < 1 then Some("Just now")
    else if diffMins < 60 then Some(NatToString(diffMins) + "m ago")
    else if diffHours < 24 then Some(NatToString(diffHours) + "h ago")
    else if diffDays < 7 then Some(NatToString(diffDays) + "d ago")
    else None
  }

  // ---------------------------------------------------------------------
  // The application object

  class RideBookingApp {
    var rides: seq<Record>
    var drivers: seq<Record>
    var currentView: string
    /** The browser's key-value store as this object writes it. */
    var persisted: map<string, Entry>

    /** The rides stored under 'rides' or none; the drivers stored under
        'drivers' or the three demo drivers. Nothing is written. */
    constructor (persisted: map<string, Entry>, id1: string, id2: string, id3: string)
      ensures rides == LoadOr(persisted, RidesKey, [])
      ensures drivers == LoadOr(persisted, DriversKey, DefaultDrivers(id1, id2, id3))
      ensures currentView == "book" && this.persisted == persisted
    {
      this.persisted := persisted;
      var loadedRides := LoadFromStorage(persisted, RidesKey);
      rides := if loadedRides.Some? then loadedRides.value else [];
      var loadedDrivers := LoadFromStorage(persisted, DriversKey);
      drivers := if loadedDrivers.Some? then loadedDrivers.value else DefaultDrivers(id1, id2, id3);
      currentView := "book";
    }

    /** The view state of switchView. */
    method SwitchView(viewName: string)
      modifies this`currentView
      ensures currentView == viewName
    {
      currentView := viewName;
    }

    /** saveToStorage: the whole list under `key`, or nothing on failure. */
    method SaveToStorage(key: string, data: seq<Record>, writeOk: bool)
      modifies this`persisted
      ensures persisted == if writeOk then old(persisted)[key := Parsed(data)] else old(persisted)
    {
      if writeOk {
        persisted := persisted[key := Parsed(data)];
      }
    }

    /** createRide: with a blank pickup or dropoff (after trimming) or no ride
        type nothing happens; otherwise the new pending ride goes in front of
        the list and the list is saved. */
    method CreateRide(id: string, pickup: string, dropoff: string, rideType: string, passengers: int,
                      notes: string, now: int, writeOk: bool)
      modifies this
      ensures var form := RideForm(id, pickup, dropoff, rideType, passengers, notes, now);
              if Trim(pickup) == "" || Trim(dropoff) == "" || rideType == "" then
                rides == old(rides) && persisted == old(persisted) && currentView == old(currentView)
              else
                && rides == [form] + old(rides)
                && persisted == (if writeOk then old(persisted)[RidesKey := Parsed(rides)] else old(persisted))
                && currentView == "rides"
      ensures drivers == old(drivers)
    {
      var formData := RideForm(id, pickup, dropoff, rideType, passengers, notes, now);
      if Trim(pickup) == "" || Trim(dropoff) == "" || rideType == "" {
        return;
      }
      rides := [formData] + rides;
      SaveToStorage(RidesKey, rides, writeOk);
      SwitchView("rides");
    }

    /** readRide: the first ride with that id, or undefined (None). */
    function ReadRide(id: string): (r: Option<Record>)
      reads this
      ensures r.None? <==> forall j :: 0 <= j < |rides| ==> !HasId(rides[j], id)
      ensures r.Some? ==> exists i :: 0 <= i < |rides| && rides[i] == r.value && HasId(r.value, id)
                                      && forall j :: 0 <= j < i ==> !HasId(rides[j], id)
    {
      FindById(rides, id)
    }

    /** updateRide: the six edited fields of the first ride with that id are
        overwritten in place and the list is saved; an unknown id changes
        nothing and saves nothing. */
    method UpdateRide(id: string, pickup: string, dropoff: string, rideType: string, passengers: int,
                      notes: string, status: string, writeOk: bool)
      modifies this
      ensures var i := FindIndex(old(rides), id);
              if i == -1 then rides == old(rides) && persisted == old(persisted)
              else
                && rides == old(rides)[i := Assign(old(rides)[i], EditFields(pickup, dropoff, rideType, passengers, notes, status))]
                && persisted == if writeOk then old(persisted)[RidesKey := Parsed(rides)] else old(persisted)
      ensures drivers == old(drivers) && currentView == old(currentView)
    {
      var i := FindIndex(rides, id);
      if i == -1 {
        return;
      }
      var fields := EditFields(pickup, dropoff, rideType, passengers, notes, status);
      rides := rides[i := Assign(rides[i], fields)];
      SaveToStorage(RidesKey, rides, writeOk);
    }

    /** deleteRide: after a confirmation, every ride with that id goes and
        the rest keep their order. */
    method DeleteRide(id: string, confirmed: bool, writeOk: bool)
      modifies this
      ensures !confirmed ==> rides == old(rides) && persisted == old(persisted)
      ensures confirmed ==> && rides == WithoutId(old(rides), id)
                            && persisted == if writeOk then old(persisted)[RidesKey := Parsed(rides)] else old(persisted)
      ensures drivers == old(drivers) && currentView == old(currentView)
    {
      if !confirmed {
        return;
      }
      rides := WithoutId(rides, id);
      SaveToStorage(RidesKey, rides, writeOk);
    }

    /** saveDriver: with a blank required field nothing happens. With an id
        the form is merged into the first driver with that id (none: no
        change), without one a new driver with the generated id is appended;
        either way the list is then saved. */
    method SaveDriver(id: string, name: string, phone: string, vehicle: string, plate: string,
                      rating: real, status: string, newId: string, writeOk: bool)
      modifies this
      ensures !DriverFormComplete(name, phone, vehicle, plate) ==>
                drivers == old(drivers) && persisted == old(persisted)
      ensures DriverFormComplete(name, phone, vehicle, plate) ==>
                && drivers == SavedDrivers(old(drivers), id, DriverForm(name, phone, vehicle, plate, rating, status), newId)
                && persisted == if writeOk then old(persisted)[DriversKey := Parsed(drivers)] else old(persisted)
      ensures rides == old(rides) && currentView == old(currentView)
    {
      if !DriverFormComplete(name, phone, vehicle, plate) {
        return;
      }
      drivers := SavedDrivers(drivers, id, DriverForm(name, phone, vehicle, plate, rating, status), newId);
      SaveToStorage(DriversKey, drivers, writeOk);
    }

    /** deleteDriver: after a confirmation, every driver with that id goes. */
    method DeleteDriver(id: string, confirmed: bool, writeOk: bool)
      modifies this
      ensures !confirmed ==> drivers == old(drivers) && persisted == old(persisted)
      ensures confirmed ==> && drivers == WithoutId(old(drivers), id)
                            && persisted == if writeOk then old(persisted)[DriversKey := Parsed(drivers)] else old(persisted)
      ensures rides == old(rides) && currentView == old(currentView)
    {
      if !confirmed {
        return;
      }
      drivers := WithoutId(drivers, id);
      SaveToStorage(DriversKey, drivers, writeOk);
    }

    /** updateStats over the rides in memory. */
    function UpdateStats(): (s: AppStats)
      reads this
      ensures s.total == |rides| && s.active <= s.total
      ensures s.active == |Filter(rides, IsActive)|
      ensures s.active == s.total <==> forall i :: 0 <= i < |rides| ==> IsActive(rides[i])
    {
      RideCounts(rides)
    }
  }
}
