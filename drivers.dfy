/** The DOM-free rules of the drivers page (drivers.js): the checks before
    a driver is added, the avatar initials, the rating order of the list and
    the confirmed delete. */
module Drivers {
  import opened Values
  import opened Storage
  import opened Sorting
  import opened Ui

  // ---------------------------------------------------------------------
  // Adding a driver (handleAddDriver)

  datatype DriverCheck = MissingFields | RatingOutOfRange | Accepted

  /** The two checks of handleAddDriver, in their order: every required
      field non-empty, then the rating within [1, 5], both ends included. */
  function CheckDriverForm(name: string, phone: string, vehicle: string, plate: string, rating: real)
    : (c: DriverCheck)
    ensures c == MissingFields <==> name == "" || phone == "" || vehicle == "" || plate == ""
    ensures c == Accepted <==> name != "" && phone != "" && vehicle != "" && plate != "" && 1.0 <= rating <= 5.0
  {
    if name == "" || phone == "" || vehicle == "" || plate == "" then MissingFields
    else if rating < 1.0 || rating > 5.0 then RatingOutOfRange
    else Accepted
  }

  /** The draft that handleAddDriver hands to addDriver. */
  function DriverData(name: string, phone: string, vehicle: string, plate: string, rating: real,
                      status: string): (d: Record)
    ensures "id" !in d && "createdAt" !in d
    ensures "rating" in d && d["rating"] == Num(rating)
  {
    map["name" := Str(name), "phone" := Str(phone), "vehicle" := Str(vehicle), "plate" := Str(plate),
        "rating" := Num(rating), "status" := Str(status)]
  }

  datatype DriverOutcome = Rejected(reason: DriverCheck) | Added(driver: Record)

  /** handleAddDriver: a rejected form leaves the store as it was; an
      accepted one is appended with id `DRV-clock` and reported as added
      whether or not the save worked. */
  method HandleAddDriver(store: Store, name: string, phone: string, vehicle: string, plate: string,
                         rating: real, status: string, clock: int, now: int, writeOk: bool)
    returns (outcome: DriverOutcome)
    modifies store
    ensures var check := CheckDriverForm(name, phone, vehicle, plate, rating);
            check != Accepted ==> outcome == Rejected(check) && store.entries == old(store.entries)
    ensures var check := CheckDriverForm(name, phone, vehicle, plate, rating);
            check == Accepted ==>
              && outcome == Added(NewDriver(DriverData(name, phone, vehicle, plate, rating, status), clock, now))
              && outcome.driver["id"] == Str(DriverId(clock))
              && store.entries == if writeOk then old(store.entries)[DriversKey := Parsed(old(store.GetDrivers()) + [outcome.driver])]
                                  else old(store.entries)
    ensures store.counter == old(store.counter) && store.issued == old(store.issued)
  {
    var driverData := DriverData(name, phone, vehicle, plate, rating, status);
    var check := CheckDriverForm(name, phone, vehicle, plate, rating);
    if check != Accepted {
      return Rejected(check);
    }
    var newDriver := store.AddDriver(driverData, clock, now, writeOk);
    return Added(newDriver);
  }

  /** A rating of exactly 1 or exactly 5 passes; a rating of 6 does not. */
  lemma RatingBoundsInclusive(name: string, phone: string, vehicle: string, plate: string)
    requires name != "" && phone != "" && vehicle != "" && plate != ""
    ensures CheckDriverForm(name, phone, vehicle, plate, 1.0) == Accepted
    ensures CheckDriverForm(name, phone, vehicle, plate, 5.0) == Accepted
    ensures CheckDriverForm(name, phone, vehicle, plate, 6.0) == RatingOutOfRange
  {
  }

  /** deleteDriver: the store is asked to delete only after a confirmation. */
  method DeleteDriver(store: Store, driverId: string, confirmed: bool, writeOk: bool)
    modifies store
    ensures !confirmed ==> store.entries == old(store.entries)
    ensures confirmed ==> store.entries == if writeOk then old(store.entries)[DriversKey := Parsed(WithoutId(old(store.GetDrivers()), driverId))]
                                           else old(store.entries)
    ensures store.counter == old(store.counter) && store.issued == old(store.issued)
  {
    if confirmed {
      var _ := store.DeleteDriver(driverId, writeOk);
    }
  }

  // ---------------------------------------------------------------------
  // Initials (getInitials)

  /** `s.split(' ')`: "" gives [""], and neighbouring spaces give empty
      words. */
  function SplitOnSpace(s: string): (words: seq<string>)
    ensures |words| >= 1
    ensures forall w :: w in words ==> ' ' !in w
  {
    if s == [] then [""]
    else
      var rest := SplitOnSpace(s[1..]);
      if s[0] == ' ' then [""] + rest else [[s[0]] + rest[0]] + rest[1..]
  }

  /** `words.join(' ')`: the first word, then a space before each later one. */
  function JoinOnSpace(words: seq<string>): string {
    if words == [] then "" else words[0] + SpaceBeforeEach(words[1..])
  }

  function SpaceBeforeEach(words: seq<string>): string {
    if words == [] then "" else " " + words[0] + SpaceBeforeEach(words[1..])
  }

  /** An empty first word joins as a leading space. */
  lemma JoinAfterEmptyWord(words: seq<string>)
    requires words != []
    ensures JoinOnSpace([""] + words) == " " + JoinOnSpace(words)
  {
    var ws := [""] + words;
    assert ws[0] == "" && ws[1..] == words;
    assert SpaceBeforeEach(words) == " " + words[0] + SpaceBeforeEach(words[1..]);
  }

  /** A character put in front of the first word comes first in the join. */
  lemma JoinAfterCharacter(c: char, words: seq<string>)
    requires words != []
    ensures JoinOnSpace([[c] + words[0]] + words[1..]) == [c] + JoinOnSpace(words)
  {
    var ws := [[c] + words[0]] + words[1..];
    assert ws[0] == [c] + words[0] && ws[1..] == words[1..];
  }

  /** Joining the split words with a space gives back the text: split drops
      the separators and nothing else. */
  lemma {:induction false} SplitJoinRoundTrip(s: string)
    ensures JoinOnSpace(SplitOnSpace(s)) == s
  {
    if s != [] {
      SplitJoinRoundTrip(s[1..]);
      var rest := SplitOnSpace(s[1..]);
      if s[0] == ' ' {
        JoinAfterEmptyWord(rest);
      } else {
        JoinAfterCharacter(s[0], rest);
      }
      assert s == [s[0]] + s[1..];
    }
  }

  /** `words.map(word => word[0]).join('')`: `""[0]` is undefined, which
      join writes as nothing. */
  function FirstLetters(words: seq<string>): string {
    if words == [] then ""
    else (if words[0] == "" then "" else [words[0][0]]) + FirstLetters(words[1..])
  }

  /** The characters that begin a word: non-spaces at the start or right
      after a space (`afterSpace` says whether the previous one was). */
  function WordStarts(s: string, afterSpace: bool): string {
    if s == [] then ""
    else (if s[0] != ' ' && afterSpace then [s[0]] else "") + WordStarts(s[1..], s[0] == ' ')
  }

  lemma {:induction false} FirstLettersConcat(a: seq<string>, b: seq<string>)
    ensures FirstLetters(a + b) == FirstLetters(a) + FirstLetters(b)
  {
    if a == [] {
      assert a + b == b;
    } else {
      assert (a + b)[0] == a[0];
      assert (a + b)[1..] == a[1..] + b;
      FirstLettersConcat(a[1..], b);
    }
  }

  /** The first letters of the split words are the word starts; dropping the
      first word drops the start of the text. */
  lemma {:induction false} FirstLettersOfSplit(s: string)
    ensures FirstLetters(SplitOnSpace(s)) == WordStarts(s, true)
    ensures FirstLetters(SplitOnSpace(s)[1..]) == WordStarts(s, false)
  {
    if s != [] {
      FirstLettersOfSplit(s[1..]);
      var rest := SplitOnSpace(s[1..]);
      if s[0] == ' ' {
        assert SplitOnSpace(s) == [""] + rest;
        FirstLettersConcat([""], rest);
        assert SplitOnSpace(s)[1..] == rest;
      } else {
        var first := [s[0]] + rest[0];
        assert SplitOnSpace(s) == [first] + rest[1..];
        FirstLettersConcat([first], rest[1..]);
        assert SplitOnSpace(s)[1..] == rest[1..];
      }
    }
  }

  /** `.slice(0, 2)` */
  function FirstTwo(s: string): string {
    if |s| <= 2 then s else s[..2]
  }

  /** getInitials: the upper-cased first letter of every space-separated
      word, at most two of them. */
  function GetInitials(name: string): (r: string)
    ensures |r| <= 2
    ensures r == FirstTwo(ToUpperCase(WordStarts(name, true)))
  {
    FirstLettersOfSplit(name);
    FirstTwo(ToUpperCase(FirstLetters(SplitOnSpace(name))))
  }

  // ---------------------------------------------------------------------
  // The list (renderDrivers)

  /** The sort key `driver.rating`. */
  function RatingKey(d: Record): real {
    if "rating" in d && d["rating"].Num? then d["rating"].n else 0.0
  }

  predicate HasRating(d: Record) {
    "rating" in d && d["rating"].Num?
  }

  datatype DriverListView = NoDrivers | DriverCards(drivers: seq<Record>)

  /** renderDrivers: nothing to list, or every stored driver, highest
      rating first. */
  method RenderDrivers(store: Store) returns (view: DriverListView)
    requires forall d :: d in store.GetDrivers() ==> HasRating(d)
    ensures store.GetDrivers() == [] ==> view == NoDrivers
    ensures store.GetDrivers() != [] ==>
              && view.DriverCards?
              && multiset(view.drivers) == multiset(store.GetDrivers())
              && SortedDescending(view.drivers, RatingKey)
  {
    var drivers := store.GetDrivers();
    if |drivers| == 0 {
      return NoDrivers;
    }
    var a := new Record[|drivers|](i requires 0 <= i < |drivers| => drivers[i]);
    assert a[..] == drivers;
    SortDescending(a, RatingKey);
    return DriverCards(a[..]);
  }
}
