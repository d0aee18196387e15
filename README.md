# RideFlow ride booking: a Dafny model of its core

RideFlow is a browser application for booking rides and managing a pool of
drivers. This project models and proves properties of its core:

- The storage object (`storage.js`). This is a class, `Storage.Store`. It holds:
  - the part of the browser's key-value store under `rideflow_rides` and `rideflow_drivers`, as a map from key to entry (`Corrupt` or `Parsed(records)`; an absent key is a missing map key);
  - the stored ride counter (`Option<int>`; none reads as 1001).

  It offers load, save, add, update, delete and lookup, the counter, and `clearAll`.
- The DOM-free rules of the rides page (`rides.js`, module `Rides`):
  - booking validation;
  - the edit patch;
  - the status filter held in `RidesPage.currentFilter`;
  - the newest-first list;
  - the empty-list message;
  - the three statistics.
- The DOM-free rules of the drivers page (`drivers.js`, module `Drivers`):
  - the two checks before a driver is added;
  - the avatar initials;
  - the rating order of the list;
  - the confirmed delete.
- The string helpers of `ui.js` (module `Ui`): `capitalize`, `getStatusClass` and `getRideTypeIcon`.
- The earlier, self-contained generation of the app (`app.js`, module `LegacyApp`). Its class `RideBookingApp` keeps `rides` and `drivers` in memory and writes each list whole under the keys `rides` and `drivers`. It does not share anything with `Storage`.

The two sort calls (`rides.js:178`, `drivers.js:99`) are one in-place insertion sort over an `array<Record>` (module `Sorting`). It is proved to sort by the key, largest first, and to be a permutation.

## How values are modelled

- A JavaScript object is a `Record = map<string, Json>`, where `Json` is null, a boolean, a number (`real`), a string or a timestamp.
- Object spread `{...a, ...b}` and `Object.assign` are map union, with the right side winning.
- A timestamp `Timestamp(ms)` stands for the ISO text that `toISOString` writes for that instant. The clock is a parameter (`now`, `clock`).
- Ids from `generateId` are parameters.
- A form's values are parameters, and `confirm(...)` is the boolean `confirmed`.
- Whether a `localStorage.setItem` succeeds is the boolean `writeOk`. When it is false the store is unchanged.
- `Store` has a ghost field `issued`: the counter values `addRide` has used since the store was created or cleared. Its invariant `Valid()` says they increase and all lie below the next counter. `IssuedRideIdsDistinct` turns that into distinct ride ids.

## Model

| member | source | states |
|---|---|---|
| Values.Filter | storage.js:104 | the result holds exactly the elements that pass, and is never longer than the input |
| Values.FilterIsSubsequence | storage.js:104 | filtering keeps the surviving records in their stored order |
| Values.FilterConcat | storage.js:104 | filtering a concatenation is concatenating the filtered parts |
| Values.FilterMultiset | storage.js:104 | a filter keeps every copy of a passing element and drops every copy of the others |
| Values.FilterIdempotent | storage.js:104 | filtering twice by the same test is filtering once |
| Values.FilterKeepsAll | storage.js:103-104 | a filter every element passes returns the whole list |
| Values.FilterKeepsCountIff | app.js:418-421 | a filter keeps as many elements as there are exactly when every element passes |
| Values.FilterDisjointCounts | rides.js:329-335 | two disjoint status counts add up to at most the number of rides, and to exactly that number iff every ride passes one of them |
| Values.FindIndex | storage.js:65 | `findIndex` by id: -1 iff no record has the id, otherwise the first index that has it |
| Values.FindById | storage.js:95 | `find` by id: none iff no record has the id, otherwise the record at the first index that has it |
| Values.WithoutIdRemovesExactly | storage.js:85 | `WithoutId`, the id filter that deleteRide and deleteDriver (storage.js:156) and the app's deletes (app.js:221, app.js:315) all use: afterwards no record has the id, every other record is kept as many times as before, and the order is kept |
| Values.WithoutIdIdempotent | storage.js:85 | deleting an id twice is deleting it once |
| Values.WithoutAbsentId | storage.js:85 | deleting an id no record has changes nothing |
| Values.NatToString | storage.js:47 | the decimal text of a number: digits only, one digit iff below 10, no leading zero |
| Values.IntToString | storage.js:47 | the decimal text of an integer begins with '-' iff it is negative |
| Values.NatToStringRoundTrip | storage.js:47 | reading the digits back gives the number |
| Values.NatToStringInjective | storage.js:47 | two naturals with the same text are equal |
| Values.IntToStringInjective | storage.js:47 | two integers with the same text are equal |
| Storage.RideIdInjective | storage.js:47 | `RideId`, the text `RIDE-counter`: different counter values give different ride ids |
| Storage.DriverIdInjective | storage.js:140 | `DriverId`, the text `DRV-clock`: two driver ids are equal exactly when their clock readings are |
| Storage.NewRide | storage.js:46-51 | the new ride has the draft's keys plus id, createdAt and status; status is pending and createdAt is now whatever the draft says; the id is `RIDE-counter` unless the draft has one; every other draft field is copied |
| Storage.Merge | storage.js:68-72 | patch fields override, unmentioned fields keep their values, updatedAt is now |
| Storage.NewDriver | storage.js:139-143 | the new driver has the draft's keys plus id and createdAt; createdAt is now; the id is `DRV-clock` unless the draft has one; every other field is copied |
| Storage.Store.constructor | storage.js:6-12 | a store over the given entries and counter, with no ids issued yet |
| Storage.Store.GetRides | storage.js:16-24 | loading never fails: the parsed list under the rides key, or the empty list when the key is absent or does not parse |
| Storage.Store.GetDrivers | storage.js:110-118 | the same for the drivers key |
| Storage.Store.GetRideCounter | storage.js:164-171 | the stored counter, or 1001 when none is stored |
| Storage.Store.SaveRides | storage.js:29-37 | the result is the write outcome; on success the key holds the list and reads back as it, on failure nothing changes |
| Storage.Store.SaveDrivers | storage.js:123-131 | the same for the driver list |
| Storage.Store.IncrementRideCounter | storage.js:176-179 | stores exactly the current counter (1001 when none is stored) plus one, and keeps the store invariant |
| Storage.Store.AddRide | storage.js:42-58 | returns `NewRide` of the draft with the current counter; on success the stored list is the old one with it appended; the counter grows by one in any case, and that counter value is recorded as issued |
| Storage.Store.UpdateRide | storage.js:63-78 | an unknown id returns null and writes nothing; otherwise only the first matching index is replaced by the merge, the list is saved, and the stored record is returned |
| Storage.Store.DeleteRide | storage.js:83-88 | returns true; saves the list without the rides carrying the id; after a successful write no ride has the id |
| Storage.Store.GetRideById | storage.js:93-96 | null exactly when no stored ride has the id; otherwise the ride with the id that comes first in the list |
| Storage.Store.GetRidesByStatus | storage.js:101-105 | 'all' gives every ride; any other value gives a sublist in stored order that holds every copy of each ride with that status and nothing else |
| Storage.Store.AddDriver | storage.js:136-149 | returns `NewDriver` of the draft; on success the stored drivers are the old ones with it appended |
| Storage.Store.DeleteDriver | storage.js:154-159 | returns true and saves the drivers without those carrying the id |
| Storage.Store.ClearAll | storage.js:184-188 | removes the ride and driver keys and the counter, so the next ride is RIDE-1001 again |
| Storage.IssuedRideIdsDistinct | storage.js:44-55 | increasing counter values below the next one give pairwise distinct ids, each different from the next id |
| Storage.TwoBookingsOnEmptyStore | storage.js:164-171 | on an empty store the first two bookings get RIDE-1001 and RIDE-1002 |
| Sorting.InsertIntoPrefix | rides.js:178 | moving one record into a sorted prefix leaves the prefix one longer and sorted, the rest untouched, and the same records |
| Sorting.SortDescending | rides.js:178 | the array ends up sorted by the key, largest first, and is a permutation of what it held |
| Ui.Capitalize | ui.js:107-109 | same length; the first character upper-cased; every later character unchanged |
| Ui.CapitalizeEmpty | ui.js:108 | the empty string stays empty |
| Ui.CapitalizeIdempotent | ui.js:108 | capitalizing twice is capitalizing once |
| Ui.IndexOf | ui.js:128 | the first position of the character, or -1 iff it does not occur |
| Ui.ReplaceFirstAtIndexOf | ui.js:128 | `ReplaceFirst`, `replace` with a one-character pattern: changes only the character at its first occurrence, and nothing when there is none |
| Ui.GetStatusClass | ui.js:127-129 | "status-" followed by the lower-cased status, whose first space (and only that one) becomes '-' |
| Ui.LowerKeepsSpaces | ui.js:128 | lower-casing moves no space |
| Ui.StatusClassKeepsLaterSpaces | ui.js:128 | every space after the first one stays a space |
| Ui.GetRideTypeIcon | ui.js:114-122 | the listed icon for economy, comfort, premium and xl; the economy icon for anything else |
| Ui.RideTypeIconsDistinct | ui.js:114-122 | the economy icon is returned exactly for types other than comfort, premium and xl |
| Rides.RideStats | rides.js:326-335 | total is the number of rides, active counts pending, confirmed and in-progress, completed counts completed; active plus completed is at most total, with equality iff every ride has one of the four statuses |
| Rides.BookingData | rides.js:53-60 | the booking draft has no id, createdAt or status, so addRide decides them |
| Rides.HandleBooking | rides.js:48-86 | an empty pickup, dropoff or ride type (`BookingComplete`, the test at rides.js:63, where only the empty string is falsy) is rejected with the store untouched; otherwise exactly one addRide happens, and the reported ride is its result with the id of the old counter |
| Rides.EditData | rides.js:123-131 | the edit patch never carries id, createdAt or updatedAt |
| Rides.HandleEditSubmit | rides.js:118-143 | an unknown id changes nothing; otherwise the first matching ride is merged and saved, keeps its id and createdAt, and gets the form's status |
| Rides.DeleteRide | rides.js:309-321 | the store deletes only after a confirmation; without one nothing changes |
| Rides.EmptyStateFor | rides.js:242-251 | the whole message (icon, title, text) of each of the four statuses, and the 'all' message for every other filter |
| Rides.RidesPage.constructor | rides.js:10 | the filter starts at 'all' |
| Rides.RidesPage.SelectFilter | rides.js:158-160 | a filter click sets the filter to the button's value |
| Rides.RidesPage.RenderRides | rides.js:168-184 | no selected rides gives the empty message of the filter; otherwise a permutation of the selected rides, newest first |
| Rides.AllFilterCountsTotal | rides.js:329 | the 'all' list is as long as the total count |
| Drivers.CheckDriverForm | drivers.js:62-71 | missing fields iff a required field is empty; accepted iff all are filled and the rating is within [1, 5], ends included |
| Drivers.DriverData | drivers.js:52-59 | the draft has no id or createdAt, and carries the rating |
| Drivers.HandleAddDriver | drivers.js:51-84 | a rejected form leaves the store as it was; an accepted one appends the new driver with id `DRV-clock` |
| Drivers.RatingBoundsInclusive | drivers.js:68 | ratings 1 and 5 are accepted, 6 is out of range |
| Drivers.DeleteDriver | drivers.js:186-197 | the store deletes only after a confirmation |
| Drivers.SplitOnSpace | drivers.js:150 | `split(' ')` always gives at least one word, and no word holds a space |
| Drivers.SplitJoinRoundTrip | drivers.js:150 | joining the split words with single spaces gives back the text |
| Drivers.FirstLettersConcat | drivers.js:151-152 | first letters of joined word lists are the joined first letters |
| Drivers.FirstLettersOfSplit | drivers.js:149-152 | the first letters of the split words are the characters that start a word |
| Drivers.GetInitials | drivers.js:148-155 | at most two characters: the upper-cased word starts, cut to two |
| Drivers.RenderDrivers | drivers.js:89-105 | no drivers gives the empty view; otherwise a permutation of the stored drivers, highest rating first |
| LegacyApp.TrimStartSpec | app.js:164 | trimming the start keeps a suffix and drops only whitespace, up to a character that is not whitespace |
| LegacyApp.TrimEndSpec | app.js:164 | trimming the end keeps a prefix and drops only whitespace, back to a character that is not whitespace |
| LegacyApp.TrimSpec | app.js:164 | `trim` gives the slice between the leading and trailing whitespace, which neither begins nor ends with whitespace |
| LegacyApp.TrimEmptyIff | app.js:174 | a trimmed field is empty exactly when it held only whitespace |
| LegacyApp.TrimIdempotent | app.js:164 | trimming twice is trimming once |
| LegacyApp.LoadFromStorage | app.js:69-76 | null exactly when the key is absent, empty or does not parse |
| LegacyApp.LoadOr | app.js:7-8 | a parsed list, even an empty one, is kept; otherwise the fallback is used |
| LegacyApp.SaveThenLoad | app.js:61-76 | a saved list loads back as itself, and other keys load as before |
| LegacyApp.DefaultDrivers | app.js:21-51 | three demo drivers, each rated within [1, 5] |
| LegacyApp.Assign | app.js:268 | the assigned fields take their new values, and every other field, including the id, stays |
| LegacyApp.SavedDrivers | app.js:264-276 | with an id, the first matching driver is merged and no other changes, or nothing changes when none matches; without an id, one driver with the generated id is appended |
| LegacyApp.CreatedRideFields | app.js:162-171 | `RideForm`: a new ride is pending and has its id and booking time; its pickup, dropoff and notes are `trim` of the form values, so none begins or ends with whitespace; its ride type and passenger count are the form's |
| LegacyApp.EditKeepsIdentity | app.js:204-209 | `EditFields` assigned to a ride: exactly the six form fields are written, status and the trimmed pickup among them; id and bookedAt stay |
| LegacyApp.DriverFormFields | app.js:249-256 | `DriverForm`: exactly name, phone, vehicle, plate, rating and status, the first four trimmed, and no id |
| LegacyApp.DriverFormCompleteIff | app.js:259-262 | `DriverFormComplete`: the driver form is accepted exactly when each of the four required fields has a character that is not whitespace |
| LegacyApp.SavedDriverIds | app.js:264-276 | an edited driver keeps their id; an added one has the generated id |
| LegacyApp.RideCounts | app.js:417-425 | total is the number of rides; active counts pending, confirmed and in-progress, is at most total, and equals it iff every ride is active |
| LegacyApp.GetRideIcon | app.js:431-439 | the file's icon for comfort, premium and xl; the economy icon for anything else |
| LegacyApp.LegacyRideIconsDistinct | app.js:431-439 | the economy icon is returned exactly for types other than comfort, premium and xl |
| LegacyApp.FormatElapsed | app.js:445-459 | "Just now" below a minute, negative times included; "Nm ago", "Nh ago" and "Nd ago" in their ranges, with N in range; the date fallback from a week on |
| LegacyApp.RideBookingApp.constructor | app.js:6-11 | rides load or fall back to none, drivers load or fall back to the demo drivers, the view is 'book', nothing is written |
| LegacyApp.RideBookingApp.SwitchView | app.js:134-135 | the current view becomes the requested one |
| LegacyApp.RideBookingApp.SaveToStorage | app.js:61-67 | on success the key holds the list; on failure nothing changes |
| LegacyApp.RideBookingApp.CreateRide | app.js:161-189 | a blank pickup or dropoff after trimming, or no ride type, changes and saves nothing; otherwise the new pending ride is put in front, the list saved and the view switched to rides |
| LegacyApp.RideBookingApp.ReadRide | app.js:191-193 | none exactly when no ride has the id; otherwise the ride with the id that comes first in the list |
| LegacyApp.RideBookingApp.UpdateRide | app.js:195-216 | an unknown id changes and saves nothing; otherwise only the first matching ride gets the six edited fields, and the list is saved |
| LegacyApp.RideBookingApp.DeleteRide | app.js:218-226 | after a confirmation every ride with the id goes, the rest keep their order, and the list is saved; without one nothing changes |
| LegacyApp.RideBookingApp.SaveDriver | app.js:247-281 | a blank required field changes and saves nothing; otherwise the drivers become `SavedDrivers` of the form and are saved, even when no driver matched the id |
| LegacyApp.RideBookingApp.DeleteDriver | app.js:312-319 | after a confirmation every driver with the id goes and the list is saved |
| LegacyApp.RideBookingApp.UpdateStats | app.js:417-425 | total is the number of rides in memory; active counts those pending, confirmed or in progress, is at most total, and equals it iff every ride is active |

## Left out

- All DOM work: event wiring, `innerHTML` templates and cards, modals, toasts, `setTimeout`, form resets, scrolling. The rides tab switch after booking (rides.js:80-82) is part of this. main.js (tabs and keyboard shortcuts) is not part of this model.
- `localStorage` and JSON: serialisation is not modelled. A stored value is absent, unparsable or a parsed list. A stored JSON value that parses to something other than a list is not modelled.
- Write failures: a failing write leaves the store unchanged. Storage.Store.IncrementRideCounter always succeeds, although its `setItem` (storage.js:178) could throw.
- Callers report success whatever the write did, because `addRide` and the delete methods return a value regardless. The model returns those same values.
- Number parsing: `parseInt` and `parseFloat` of form values and of the counter are not modelled. Numbers arrive as `int`/`real`. NaN is not modelled, including a NaN rating slipping past the bounds check.
- Floating point: prices and ratings are `real`. `toFixed`, `formatCurrency`, star counts and `formatPhone` are not modelled.
- Clock and randomness: `Date.now()`, `toISOString` and `generateId` are parameters. Their uniqueness is not promised by the code and not assumed here. `DRV-` ids can repeat, and ride ids repeat after ClearAll.
- LegacyApp.FormatElapsed returns none where formatDate falls back to `toLocaleDateString`; locale date formatting is not modelled. ui.js `formatDate` is not modelled for the same reason.
- Unicode: case mapping is ASCII only (`Ui.UpperChar`, `Ui.LowerChar`). Strings are sequences of code points, so UTF-16 surrogate halves (what `word[0]` would give for an emoji) are not modelled.
- Property lookups such as `messages[filter]` and `icons[type]` consult the object prototype for keys like "constructor". The model treats only the listed keys as present.
- Number-to-text for values of 1e21 and above (exponent form) is not modelled. Counters are plain integers.
- Sorting.SortDescending: the order of records with equal keys is not stated, although `Array.prototype.sort` keeps it.
- Rides.RidesPage.RenderRides and Drivers.RenderDrivers require every listed record to carry its sort key. A missing key gives NaN in the comparator, and that case is not modelled.
- `formatRideType` in app.js (app.js:441-443) is the same expression as `capitalize` and is covered by Ui.Capitalize.
- `openEditModal`, `openDriverModal` and `closeModals` only move values between the DOM and the form.
- Concurrency and multi-tab last-writer-wins behaviour are not modelled.
