/**
 * The two read-only tool handlers (`check_availability`,
 * `get_restaurant_info`) and the registration that routes each tool call
 * of the language model to its handler.
 */
module Tools {
  import opened Wrappers
  import opened Format
  import opened Bookings

  /** What `check_availability` hands back: the query echoed, and a sentence. */
  datatype AvailabilityResult = AvailabilityResult(
    available: bool,
    date: Option<string>,
    time: Option<string>,
    guests: Option<int>,
    message: string)

  const NoTablesMessage := "No tables available"

  /**
   * `check_availability`: a stub that accepts every query. Whatever the
   * arguments, or their absence, the answer is "available" and the date,
   * time and party size come back unchanged, spelled into the sentence
   * "Table for {guests} is available on {date} at {time}".
   */
  function CheckAvailability(date: Option<string>, time: Option<string>, guests: Option<int>)
    : (r: AvailabilityResult)
    ensures r.available
    ensures r.date == date && r.time == time && r.guests == guests
    ensures r.message == "Table for " + ShowInt(guests) + " is available on " + ShowText(date)
                         + " at " + ShowText(time)
  {
    var available := true;
    AvailabilityResult(
      available, date, time, guests,
      if available then
        "Table for " + ShowInt(guests) + " is available on " + ShowText(date) + " at " + ShowText(time)
      else NoTablesMessage)
  }

  /**
   * The party size can be read back from the sentence: it is the run of
   * non-space characters right after "Table for ", ended by a space.
   */
  lemma AvailabilityMessageGuests(date: Option<string>, time: Option<string>, guests: int)
    ensures var m, g := CheckAvailability(date, time, Some(guests)).message, IntToString(guests);
      |m| > 10 + |g| && m[..10] == "Table for "
      && (forall j :: 10 <= j < 10 + |g| ==> m[j] != ' ') && m[10 + |g|] == ' '
      && ParseInt(m[10..10 + |g|]) == Some(guests)
  {
    var m, g := CheckAvailability(date, time, Some(guests)).message, IntToString(guests);
    var rest := " is available on " + ShowText(date) + " at " + ShowText(time);
    assert m == "Table for " + g + rest;
    assert m[10..10 + |g|] == g;
    assert m[10 + |g|] == rest[0];
    NoSpaceInIntToString(guests);
    assert forall j :: 10 <= j < 10 + |g| ==> m[j] == g[j - 10];
    IntToStringRoundTrip(guests);
  }

  const GeneralInfo := "The Golden Spoon Restaurant is open Tuesday to Sunday, 11 AM to 10 PM. We are closed on Mondays."
  const HoursInfo := "Lunch: 11 AM - 3 PM, Dinner: 5 PM - 10 PM. Closed Mondays."
  const MenuInfo := "We offer Italian and Mediterranean cuisine with vegetarian, vegan, and gluten-free options."
  const LocationInfo := "123 Main Street, Downtown. Free parking available."
  const CapacityInfo := "We can accommodate parties up to 12 guests."

  /** The fixed information table, keyed by category. */
  function InfoTable(): map<string, string> {
    map["general" := GeneralInfo, "hours" := HoursInfo, "menu" := MenuInfo,
        "location" := LocationInfo, "capacity" := CapacityInfo]
  }

  /**
   * `get_restaurant_info`: total over every key. A known category gives its
   * own text; an unknown category, or none at all, gives the general text.
   */
  function GetRestaurantInfo(infoType: Option<string>): (info: string)
    ensures info in InfoTable().Values
    ensures infoType.Some? && infoType.value in InfoTable() ==> info == InfoTable()[infoType.value]
    ensures infoType.None? || infoType.value !in InfoTable() ==> info == GeneralInfo
  {
    var key := infoType.GetOr("general");
    var table := InfoTable();
    if key in table then table[key] else table["general"]
  }

  /**
   * The general text comes back exactly for the "general" category, an
   * unknown category or a missing one: every other category has its own text.
   */
  lemma {:induction false} GeneralInfoExactly(infoType: Option<string>)
    ensures GetRestaurantInfo(infoType) == GeneralInfo <==>
      infoType.None? || infoType.value == "general" || infoType.value !in InfoTable()
  {
    assert |GeneralInfo| != |HoursInfo|;
    assert |GeneralInfo| != |MenuInfo|;
    assert |GeneralInfo| != |LocationInfo|;
    assert |GeneralInfo| != |CapacityInfo|;
  }

  /** A tool call of the language model, one variant per registered tool. */
  datatype ToolCall =
    | CheckAvailabilityCall(date: Option<string>, time: Option<string>, guests: Option<int>)
    | CreateBookingCall(args: BookingArgs)
    | GetRestaurantInfoCall(infoType: Option<string>)

  /** The result a handler delivers for a tool call. */
  datatype ToolResult =
    | Availability(availability: AvailabilityResult)
    | Booked(confirmation: BookingConfirmation)
    | Info(info: string)

  /** The name each handler is registered under. */
  function ToolName(call: ToolCall): string {
    match call
    case CheckAvailabilityCall(_, _, _) => "check_availability"
    case CreateBookingCall(_) => "create_booking"
    case GetRestaurantInfoCall(_) => "get_restaurant_info"
  }

  /** Each registered name selects exactly one tool. */
  lemma ToolNamesDistinct(c1: ToolCall, c2: ToolCall)
    ensures ToolName(c1) == ToolName(c2) <==>
      (c1.CheckAvailabilityCall? && c2.CheckAvailabilityCall?)
      || (c1.CreateBookingCall? && c2.CreateBookingCall?)
      || (c1.GetRestaurantInfoCall? && c2.GetRestaurantInfoCall?)
  {
    assert |"check_availability"| != |"get_restaurant_info"|;
    assert |"create_booking"| != |"get_restaurant_info"|;
    assert |"check_availability"| != |"create_booking"|;
  }

  /**
   * Runs the handler registered under `ToolName(call)` for one tool call,
   * against the shared store, with `now` as the clock reading. Only
   * `create_booking` changes the store; the other two leave it exactly as
   * it was.
   */
  method HandleToolCall(store: BookingStore, call: ToolCall, now: string) returns (r: ToolResult)
    requires store.Valid()
    modifies store
    ensures store.Valid()
    ensures !call.CreateBookingCall? ==>
      store.bookings == old(store.bookings) && store.history == old(store.history)
    ensures call.CheckAvailabilityCall? ==>
      r == Availability(CheckAvailability(call.date, call.time, call.guests))
    ensures call.GetRestaurantInfoCall? ==> r == Info(GetRestaurantInfo(call.infoType))
    ensures call.CreateBookingCall? ==>
      store.history == old(store.history) + [BookingRequest(call.args, now)]
      && store.bookings ==
         old(store.bookings) + [NewBooking(|old(store.bookings)|, BookingRequest(call.args, now))]
      && r == Booked(Confirmation(store.bookings[|store.bookings| - 1]))
  {
    match call
    case CheckAvailabilityCall(date, time, guests) =>
      r := Availability(CheckAvailability(date, time, guests));
    case CreateBookingCall(args) =>
      var confirmation := store.CreateBooking(args, now);
      r := Booked(confirmation);
    case GetRestaurantInfoCall(infoType) =>
      r := Info(GetRestaurantInfo(infoType));
  }
}
