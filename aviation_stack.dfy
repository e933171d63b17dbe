/** The flight lookup of services/aviationStack.ts: the provider's loosely
    typed records are normalised into `Flight`s, the upcoming ones are kept
    and sorted by departure, and when none is upcoming one broadened query
    supplies a single `nextAvailableFlight`.

    What the app gets from outside is a parameter here: the API key from
    the environment, the clock (`now`, in milliseconds), the date parser
    (`parse`, standing for `new Date(s).getTime()`, `None` for an invalid
    date) and the network (`fetch`, from a request URL to what came back). */
module AviationStack {
  import opened Wrappers
  import opened Text

  // ---------------------------------------------------------------------
  // The normalised flight record

  datatype Endpoint = Endpoint(
    airport: string,
    iata: string,
    scheduled: string,
    estimated: Option<string>,
    actual: Option<string>,
    terminal: Option<string>,
    gate: Option<string>)

  datatype Airline = Airline(name: string, iata: string)

  datatype Designator = Designator(number: string, iata: string)

  /** `flightDate` and `flightStatus` are copied from the provider without a
      default, so they may be missing. */
  datatype Flight = Flight(
    flightDate: Option<string>,
    flightStatus: Option<string>,
    departure: Endpoint,
    arrival: Endpoint,
    airline: Airline,
    flight: Designator)

  /** What `getFlights` resolves to. */
  datatype FlightSearchResult = FlightSearchResult(
    flights: seq<Flight>,
    error: Option<string>,
    nextAvailableFlight: Option<Flight>)

  // ---------------------------------------------------------------------
  // The provider's JSON, every field optional

  datatype RawEndpoint = RawEndpoint(
    airport: Option<string>,
    iata: Option<string>,
    scheduled: Option<string>,
    estimated: Option<string>,
    actual: Option<string>,
    terminal: Option<string>,
    gate: Option<string>)

  datatype RawAirline = RawAirline(name: Option<string>, iata: Option<string>)

  datatype RawDesignator = RawDesignator(number: Option<string>, iata: Option<string>)

  datatype RawFlight = RawFlight(
    flightDate: Option<string>,
    flightStatus: Option<string>,
    departure: Option<RawEndpoint>,
    arrival: Option<RawEndpoint>,
    airline: Option<RawAirline>,
    flight: Option<RawDesignator>)

  /** The `error` object of a provider reply. */
  datatype ProviderError = ProviderError(message: Option<string>)

  /** A parsed provider reply: `{ error?, data? }`. */
  datatype ProviderBody = ProviderBody(error: Option<ProviderError>, data: Option<seq<RawFlight>>)

  /** One request: the parsed body, or the exception `fetch` or `json()`
      threw (`Some(message)` for an `Error`, `None` for anything else). */
  datatype Reply = Received(body: ProviderBody) | Threw(message: Option<string>)

  // ---------------------------------------------------------------------
  // Constants

  const BaseUrl :=
    "http://api.aviationstack."
    + "com/v1"

  const MissingKeyMessage :=
    "AviationStack API key not "
    + "configured. Please set "
    + "EXPO_PUBLIC_AVIATIONSTACK_"
    + "API_KEY in your "
    + "environment."

  const FetchFailedMessage := "Failed to fetch flight data"

  const NetworkErrorMessage := "Network error occurred"

  /** `!AVIATIONSTACK_API_KEY` is false: the key is set and not empty. */
  predicate KeyConfigured(apiKey: Option<string>) {
    Truthy(apiKey)
  }

  /** The request URL; the first query asks for scheduled flights only. */
  function FlightsUrl(apiKey: string, depIata: string, arrIata: string, scheduledOnly: bool): string {
    BaseUrl + "/flights?access_key=" + apiKey + "&dep_iata=" + depIata + "&arr_iata=" + arrIata
    + (if scheduledOnly then "&flight_status=scheduled" else "")
  }

  /** The message an exception turns into. */
  function ThrownMessage(message: Option<string>): string {
    message.GetOr(NetworkErrorMessage)
  }

  /** The result of every failed branch: no flights, an error. */
  function Failed(message: string): (r: FlightSearchResult)
    ensures r.flights == [] && r.error == Some(message) && r.nextAvailableFlight.None?
  {
    FlightSearchResult([], Some(message), None)
  }

  // ---------------------------------------------------------------------
  // Normalisation (`mapFlightData`)

  /** `f.departure?.x || default` and friends, for one endpoint. */
  function NormalizeEndpoint(e: Option<RawEndpoint>, fallbackIata: string): Endpoint {
    match e
    case None => Endpoint("Unknown", fallbackIata, "", None, None, None, None)
    case Some(x) =>
      Endpoint(OrElse(x.airport, "Unknown"), OrElse(x.iata, fallbackIata), OrElse(x.scheduled, ""),
               x.estimated, x.actual, x.terminal, x.gate)
  }

  /** `got` is `value || fallback`: a provided non-empty value is kept,
      a missing or empty one gives the fallback. */
  predicate CopiedOrDefault(value: Option<string>, got: string, fallback: string) {
    if Truthy(value) then got == value.value else got == fallback
  }

  /** The normalised endpoint `got` keeps what the provider sent in `e`,
      with the defaults `"Unknown"`, the queried code and `""`. */
  predicate EndpointFrom(e: Option<RawEndpoint>, got: Endpoint, fallbackIata: string) {
    match e
    case None => got == Endpoint("Unknown", fallbackIata, "", None, None, None, None)
    case Some(x) =>
      && CopiedOrDefault(x.airport, got.airport, "Unknown")
      && CopiedOrDefault(x.iata, got.iata, fallbackIata)
      && CopiedOrDefault(x.scheduled, got.scheduled, "")
      && got.estimated == x.estimated && got.actual == x.actual
      && got.terminal == x.terminal && got.gate == x.gate
  }

  /** `mapFlightData`: every missing or empty name and code gets a default,
      the departure and arrival codes fall back to the queried ones, every
      provided non-empty value is kept, and it never fails. */
  function MapFlightData(f: RawFlight, depIata: string, arrIata: string): (r: Flight)
    ensures r.departure.airport != "" && r.arrival.airport != "" && r.airline.name != ""
    ensures depIata != "" ==> r.departure.iata != ""
    ensures arrIata != "" ==> r.arrival.iata != ""
    ensures EndpointFrom(f.departure, r.departure, depIata)
    ensures EndpointFrom(f.arrival, r.arrival, arrIata)
    ensures f.airline.Some? ==>
      CopiedOrDefault(f.airline.value.name, r.airline.name, "Unknown Airline")
      && CopiedOrDefault(f.airline.value.iata, r.airline.iata, "")
    ensures f.airline.None? ==> r.airline == Airline("Unknown Airline", "")
    ensures f.flight.Some? ==>
      CopiedOrDefault(f.flight.value.number, r.flight.number, "")
      && CopiedOrDefault(f.flight.value.iata, r.flight.iata, "")
    ensures f.flight.None? ==> r.flight == Designator("", "")
    ensures r.flightDate == f.flightDate && r.flightStatus == f.flightStatus
  {
    Flight(
      f.flightDate,
      f.flightStatus,
      NormalizeEndpoint(f.departure, depIata),
      NormalizeEndpoint(f.arrival, arrIata),
      Airline(
        OrElse(if f.airline.Some? then f.airline.value.name else None, "Unknown Airline"),
        OrElse(if f.airline.Some? then f.airline.value.iata else None, "")),
      Designator(
        OrElse(if f.flight.Some? then f.flight.value.number else None, ""),
        OrElse(if f.flight.Some? then f.flight.value.iata else None, "")))
  }

  /** `(data.data || []).map(mapFlightData)`. */
  function NormalizeAll(raws: seq<RawFlight>, depIata: string, arrIata: string): (r: seq<Flight>)
    ensures |r| == |raws|
    ensures forall i :: 0 <= i < |raws| ==> r[i] == MapFlightData(raws[i], depIata, arrIata)
  {
    seq(|raws|, i requires 0 <= i < |raws| => MapFlightData(raws[i], depIata, arrIata))
  }

  /** The record a provider would send for `x`, every field present. */
  function ToRaw(x: Flight): RawFlight {
    RawFlight(
      x.flightDate, x.flightStatus,
      Some(RawEndpoint(Some(x.departure.airport), Some(x.departure.iata), Some(x.departure.scheduled),
                       x.departure.estimated, x.departure.actual, x.departure.terminal, x.departure.gate)),
      Some(RawEndpoint(Some(x.arrival.airport), Some(x.arrival.iata), Some(x.arrival.scheduled),
                       x.arrival.estimated, x.arrival.actual, x.arrival.terminal, x.arrival.gate)),
      Some(RawAirline(Some(x.airline.name), Some(x.airline.iata))),
      Some(RawDesignator(Some(x.flight.number), Some(x.flight.iata))))
  }

  /** A flight whose defaulted fields are all non-empty. */
  predicate FullyPopulated(x: Flight) {
    && x.departure.airport != "" && x.departure.iata != "" && x.departure.scheduled != ""
    && x.arrival.airport != "" && x.arrival.iata != "" && x.arrival.scheduled != ""
    && x.airline.name != "" && x.airline.iata != ""
    && x.flight.number != "" && x.flight.iata != ""
  }

  /** Normalising a record with every field present and non-empty copies
      every field unchanged, whatever the queried codes. */
  lemma MapFlightDataKeepsProvidedValues(x: Flight, depIata: string, arrIata: string)
    requires FullyPopulated(x)
    ensures MapFlightData(ToRaw(x), depIata, arrIata) == x
  {
  }

  /** Normalising `{}` gives the defaults. */
  lemma MapFlightDataOfEmptyRecord(depIata: string, arrIata: string)
    ensures var r := MapFlightData(RawFlight(None, None, None, None, None, None), depIata, arrIata);
      && r.departure == Endpoint("Unknown", depIata, "", None, None, None, None)
      && r.arrival == Endpoint("Unknown", arrIata, "", None, None, None, None)
      && r.airline == Airline("Unknown Airline", "")
      && r.flight == Designator("", "")
      && r.flightDate.None? && r.flightStatus.None?
  {
  }

  // ---------------------------------------------------------------------
  // Departure times

  /** `new Date(f.departure.scheduled)` as an instant; the empty string is
      always an invalid date. */
  function DepartureInstant(f: Flight, parse: string -> Option<int>): (t: Option<int>)
    ensures f.departure.scheduled == "" ==> t.None?
  {
    if f.departure.scheduled == "" then None else parse(f.departure.scheduled)
  }

  /** `new Date(f.departure.scheduled) > now`: false for an invalid date. */
  predicate IsUpcoming(f: Flight, now: int, parse: string -> Option<int>) {
    var t := DepartureInstant(f, parse);
    t.Some? && t.value > now
  }

  /** The order flights are sorted in: ascending departure, with invalid
      dates last. JavaScript's comparator yields NaN for an invalid date,
      which makes the whole order implementation-defined; this model fixes
      one consistent order instead. */
  predicate DepartsNoLater(f: Flight, g: Flight, parse: string -> Option<int>) {
    var a := DepartureInstant(f, parse);
    var b := DepartureInstant(g, parse);
    b.None? || (a.Some? && a.value <= b.value)
  }

  predicate SortedByDeparture(s: seq<Flight>, parse: string -> Option<int>) {
    forall i, j :: 0 <= i < j < |s| ==> DepartsNoLater(s[i], s[j], parse)
  }

  /** `allFlights.filter(isUpcoming)`. */
  function Upcoming(s: seq<Flight>, now: int, parse: string -> Option<int>): seq<Flight>
    decreases |s|
  {
    if |s| == 0 then []
    else if IsUpcoming(s[0], now, parse) then [s[0]] + Upcoming(s[1..], now, parse)
    else Upcoming(s[1..], now, parse)
  }

  /** The filter keeps exactly the upcoming flights, each as often as it
      occurs in the input. */
  lemma {:induction false} UpcomingCounts(s: seq<Flight>, now: int, parse: string -> Option<int>, f: Flight)
    ensures multiset(Upcoming(s, now, parse))[f] == if IsUpcoming(f, now, parse) then multiset(s)[f] else 0
    decreases |s|
  {
    if |s| > 0 {
      UpcomingCounts(s[1..], now, parse, f);
      assert s == [s[0]] + s[1..];
    }
  }

  /** Every kept flight is upcoming. */
  lemma {:induction false} UpcomingAllUpcoming(s: seq<Flight>, now: int, parse: string -> Option<int>)
    ensures forall i :: 0 <= i < |Upcoming(s, now, parse)| ==> IsUpcoming(Upcoming(s, now, parse)[i], now, parse)
  {
    var r := Upcoming(s, now, parse);
    forall i | 0 <= i < |r| ensures IsUpcoming(r[i], now, parse) {
      UpcomingCounts(s, now, parse, r[i]);
      assert r[i] in multiset(r);
    }
  }

  /** The filter finds nothing exactly when no flight is upcoming. */
  lemma UpcomingEmpty(s: seq<Flight>, now: int, parse: string -> Option<int>)
    ensures Upcoming(s, now, parse) == [] <==> forall i :: 0 <= i < |s| ==> !IsUpcoming(s[i], now, parse)
  {
    if Upcoming(s, now, parse) == [] {
      forall i | 0 <= i < |s| ensures !IsUpcoming(s[i], now, parse) {
        UpcomingCounts(s, now, parse, s[i]);
        assert s[i] in multiset(s);
      }
    } else {
      var r := Upcoming(s, now, parse);
      UpcomingCounts(s, now, parse, r[0]);
      assert r[0] in multiset(r);
      var k :| 0 <= k < |s| && s[k] == r[0];
    }
  }

  /** `allFlights.find(isUpcoming)`, as an index. */
  function FindUpcoming(s: seq<Flight>, now: int, parse: string -> Option<int>): (r: Option<nat>)
    ensures r.Some? ==> r.value < |s| && IsUpcoming(s[r.value], now, parse)
    ensures r.Some? ==> forall j :: 0 <= j < r.value ==> !IsUpcoming(s[j], now, parse)
    ensures r.None? ==> forall j :: 0 <= j < |s| ==> !IsUpcoming(s[j], now, parse)
    decreases |s|
  {
    if |s| == 0 then None
    else if IsUpcoming(s[0], now, parse) then Some(0)
    else
      match FindUpcoming(s[1..], now, parse)
      case None => None
      case Some(k) => Some(k + 1)
  }

  /** In a list sorted by departure the first upcoming flight departs no
      later than any other upcoming one. */
  lemma {:induction false} FirstUpcomingIsEarliest(s: seq<Flight>, now: int, parse: string -> Option<int>, k: nat)
    requires SortedByDeparture(s, parse)
    requires k < |s| && IsUpcoming(s[k], now, parse)
    requires forall j :: 0 <= j < k ==> !IsUpcoming(s[j], now, parse)
    ensures forall j :: 0 <= j < |s| && IsUpcoming(s[j], now, parse) ==>
      DepartureInstant(s[k], parse).value <= DepartureInstant(s[j], parse).value
  {
    forall j | 0 <= j < |s| && IsUpcoming(s[j], now, parse)
      ensures DepartureInstant(s[k], parse).value <= DepartureInstant(s[j], parse).value
    {
      if j != k {
        assert k < j;
        assert DepartsNoLater(s[k], s[j], parse);
      }
    }
  }

  // ---------------------------------------------------------------------
  // The departure order, on values

  /** Puts `x` after the last flight of `t` that departs no later, as one
      step of an insertion sort that takes the flights from left to right. */
  function InsertByDeparture(t: seq<Flight>, x: Flight, parse: string -> Option<int>): (r: seq<Flight>)
    ensures multiset(r) == multiset(t) + multiset{x}
    ensures |r| == |t| + 1
    decreases |t|
  {
    if |t| == 0 || DepartsNoLater(t[|t| - 1], x, parse) then t + [x]
    else
      assert t == t[..|t| - 1] + [t[|t| - 1]];
      InsertByDeparture(t[..|t| - 1], x, parse) + [t[|t| - 1]]
  }

  /** Inserting into a sorted list keeps it sorted. */
  lemma {:induction false} InsertByDepartureSorted(t: seq<Flight>, x: Flight, parse: string -> Option<int>)
    requires SortedByDeparture(t, parse)
    ensures SortedByDeparture(InsertByDeparture(t, x, parse), parse)
    decreases |t|
  {
    var r := InsertByDeparture(t, x, parse);
    if |t| == 0 || DepartsNoLater(t[|t| - 1], x, parse) {
      forall p, q | 0 <= p < q < |r|
        ensures DepartsNoLater(r[p], r[q], parse)
      {
        if q == |t| && p < |t| - 1 {
          DepartsNoLaterTransitive(t[p], t[|t| - 1], x, parse);
        }
      }
    } else {
      var init := t[..|t| - 1];
      var last := t[|t| - 1];
      var front := InsertByDeparture(init, x, parse);
      assert SortedByDeparture(init, parse) by {
        forall p, q | 0 <= p < q < |init|
          ensures DepartsNoLater(init[p], init[q], parse)
        {
          assert init[p] == t[p] && init[q] == t[q];
        }
      }
      InsertByDepartureSorted(init, x, parse);
      DepartsNoLaterTotal(last, x, parse);
      forall p | 0 <= p < |front|
        ensures DepartsNoLater(front[p], last, parse)
      {
        assert front[p] in multiset(init) + multiset{x} by {
          assert front[p] in multiset(front);
        }
        if front[p] != x {
          assert front[p] in init;
          var m :| 0 <= m < |init| && init[m] == front[p];
          assert t[m] == init[m];
        }
      }
      assert r == front + [last];
    }
  }

  /** `.sort((a, b) => new Date(a.departure.scheduled).getTime() -
      new Date(b.departure.scheduled).getTime())`: ascending departure,
      invalid dates last. `Array.prototype.sort` is stable, and so is this. */
  function SortByDepartureSeq(s: seq<Flight>, parse: string -> Option<int>): (r: seq<Flight>)
    ensures SortedByDeparture(r, parse)
    ensures multiset(r) == multiset(s)
    ensures |r| == |s|
    decreases |s|
  {
    if |s| == 0 then []
    else
      var init := s[..|s| - 1];
      assert s == init + [s[|s| - 1]];
      var sortedInit := SortByDepartureSeq(init, parse);
      InsertByDepartureSorted(sortedInit, s[|s| - 1], parse);
      InsertByDeparture(sortedInit, s[|s| - 1], parse)
  }

  /** The flights of `s` whose departure instant is `k`, in order. */
  function WithDeparture(s: seq<Flight>, k: Option<int>, parse: string -> Option<int>): seq<Flight>
    decreases |s|
  {
    if |s| == 0 then []
    else
      WithDeparture(s[..|s| - 1], k, parse)
      + (if DepartureInstant(s[|s| - 1], parse) == k then [s[|s| - 1]] else [])
  }

  lemma {:induction false} WithDepartureAppend(a: seq<Flight>, b: seq<Flight>, k: Option<int>, parse: string -> Option<int>)
    ensures WithDeparture(a + b, k, parse) == WithDeparture(a, k, parse) + WithDeparture(b, k, parse)
    decreases |b|
  {
    if |b| == 0 {
      assert a + b == a;
    } else {
      var b' := b[..|b| - 1];
      assert (a + b)[..|a + b| - 1] == a + b';
      assert (a + b)[|a + b| - 1] == b[|b| - 1];
      WithDepartureAppend(a, b', k, parse);
    }
  }

  /** Inserting `x` keeps the order of each departure instant's flights,
      with `x` after the earlier ones of its own instant. */
  lemma {:induction false} InsertByDepartureStable(t: seq<Flight>, x: Flight, k: Option<int>, parse: string -> Option<int>)
    ensures WithDeparture(InsertByDeparture(t, x, parse), k, parse) == WithDeparture(t + [x], k, parse)
    decreases |t|
  {
    if |t| > 0 && !DepartsNoLater(t[|t| - 1], x, parse) {
      var init := t[..|t| - 1];
      var last := t[|t| - 1];
      var front := InsertByDeparture(init, x, parse);
      InsertByDepartureStable(init, x, k, parse);
      assert DepartureInstant(last, parse) != DepartureInstant(x, parse);
      assert (front + [last])[..|front|] == front;
      assert (init + [x])[..|init|] == init;
      assert (t + [x])[..|t|] == t;
      assert t[..|t| - 1] == init;
    }
  }

  /** Flights with the same departure instant keep their relative order. */
  lemma {:induction false} SortByDepartureSeqStable(s: seq<Flight>, k: Option<int>, parse: string -> Option<int>)
    ensures WithDeparture(SortByDepartureSeq(s, parse), k, parse) == WithDeparture(s, k, parse)
    decreases |s|
  {
    if |s| > 0 {
      var init := s[..|s| - 1];
      var x := s[|s| - 1];
      SortByDepartureSeqStable(init, k, parse);
      InsertByDepartureStable(SortByDepartureSeq(init, parse), x, k, parse);
      WithDepartureAppend(SortByDepartureSeq(init, parse), [x], k, parse);
      WithDepartureAppend(init, [x], k, parse);
      assert s == init + [x];
    }
  }

  /** Any two flights are ordered one way or the other. */
  lemma DepartsNoLaterTotal(f: Flight, g: Flight, parse: string -> Option<int>)
    ensures DepartsNoLater(f, g, parse) || DepartsNoLater(g, f, parse)
  {
  }

  lemma DepartsNoLaterTransitive(f: Flight, g: Flight, h: Flight, parse: string -> Option<int>)
    requires DepartsNoLater(f, g, parse) && DepartsNoLater(g, h, parse)
    ensures DepartsNoLater(f, h, parse)
  {
  }

  // ---------------------------------------------------------------------
  // Sorting in place (`flights.sort(...)`, `allFlights.sort(...)`)

  /** Sorts `a` by departure, invalid dates last; a stable insertion sort
      by adjacent swaps. */
  method SortByDeparture(a: array<Flight>, parse: string -> Option<int>)
    modifies a
    ensures a[..] == SortByDepartureSeq(old(a[..]), parse)
    ensures SortedByDeparture(a[..], parse)
    ensures multiset(a[..]) == multiset(old(a[..]))
  {
    ghost var original := a[..];
    var i := 0;
    assert original[..0] == [] && original[0..] == original;
    while i < a.Length
      invariant 0 <= i <= a.Length == |original|
      invariant a[..] == SortByDepartureSeq(original[..i], parse) + original[i..]
    {
      SortingStep(a[..], original, i, parse);
      InsertIntoSorted(a, i, parse);
      i := i + 1;
    }
    assert original[..a.Length] == original && original[a.Length..] == [];
  }

  /** Before the `i`th insertion the array holds the sorted first `i`
      flights and then the rest; inserting the next one sorts `i + 1`. */
  lemma SortingStep(s: seq<Flight>, original: seq<Flight>, i: nat, parse: string -> Option<int>)
    requires i < |original| && s == SortByDepartureSeq(original[..i], parse) + original[i..]
    ensures s[..i] == SortByDepartureSeq(original[..i], parse)
    ensures s[i] == original[i] && s[i + 1..] == original[i + 1..]
    ensures SortByDepartureSeq(original[..i + 1], parse)
      == InsertByDeparture(SortByDepartureSeq(original[..i], parse), original[i], parse)
  {
    assert original[..i + 1][..i] == original[..i];
    assert original[..i + 1][i] == original[i];
  }

  /** Moves `a[i]` left past the flights of `a[..i]` that depart strictly
      later; the rest of the array is untouched. */
  method InsertIntoSorted(a: array<Flight>, i: nat, parse: string -> Option<int>)
    requires i < a.Length
    modifies a
    ensures a[..] == InsertByDeparture(old(a[..i]), old(a[i]), parse) + old(a[i + 1..])
  {
    ghost var prefix := a[..i];
    ghost var x := a[i];
    ghost var rest := a[i + 1..];
    assert prefix[..i] == prefix && prefix[i..] == [];
    assert a[..] == prefix[..i] + [x] + prefix[i..] + rest by {
      assert a[..] == a[..i] + [a[i]] + a[i + 1..];
    }
    var j := i;
    InsertionLayout(a[..], prefix, x, rest, j);
    while j > 0 && !DepartsNoLater(a[j - 1], a[j], parse)
      invariant 0 <= j <= i == |prefix|
      invariant a[..] == prefix[..j] + [x] + prefix[j..] + rest
      invariant a[j] == x && (j > 0 ==> a[j - 1] == prefix[j - 1])
      invariant InsertByDeparture(prefix, x, parse) == InsertByDeparture(prefix[..j], x, parse) + prefix[j..]
    {
      ghost var before := a[..];
      InsertionStep(prefix, x, j, parse);
      InsertionSwap(before, prefix, x, rest, j);
      a[j - 1], a[j] := a[j], a[j - 1];
      assert a[..] == before[j - 1 := before[j]][j := before[j - 1]];
      j := j - 1;
      InsertionLayout(a[..], prefix, x, rest, j);
    }
    InsertionDone(a[..], prefix, x, rest, j, parse);
  }

  /** Where the moving flight and its left neighbour sit. */
  lemma InsertionLayout(s: seq<Flight>, prefix: seq<Flight>, x: Flight, rest: seq<Flight>, j: nat)
    requires j <= |prefix| && s == prefix[..j] + [x] + prefix[j..] + rest
    ensures s[j] == x && (j > 0 ==> s[j - 1] == prefix[j - 1])
  {
  }

  /** Swapping the moving flight with its left neighbour moves it one place. */
  lemma InsertionSwap(s: seq<Flight>, prefix: seq<Flight>, x: Flight, rest: seq<Flight>, j: nat)
    requires 0 < j <= |prefix| && s == prefix[..j] + [x] + prefix[j..] + rest
    ensures s[j - 1 := s[j]][j := s[j - 1]] == prefix[..j - 1] + [x] + prefix[j - 1..] + rest
  {
    var t := s[j - 1 := s[j]][j := s[j - 1]];
    var u := prefix[..j - 1] + [x] + prefix[j - 1..] + rest;
    assert |t| == |u|;
    forall k | 0 <= k < |t|
      ensures t[k] == u[k]
    {
      if k < j - 1 {
        assert t[k] == prefix[k];
      } else if k > j {
        assert t[k] == s[k];
      }
    }
  }

  /** The loop stops where `InsertByDeparture` stops. */
  lemma InsertionDone(s: seq<Flight>, prefix: seq<Flight>, x: Flight, rest: seq<Flight>, j: nat, parse: string -> Option<int>)
    requires j <= |prefix| && s == prefix[..j] + [x] + prefix[j..] + rest
    requires j == 0 || DepartsNoLater(prefix[j - 1], x, parse)
    requires InsertByDeparture(prefix, x, parse) == InsertByDeparture(prefix[..j], x, parse) + prefix[j..]
    ensures s == InsertByDeparture(prefix, x, parse) + rest
  {
    assert InsertByDeparture(prefix[..j], x, parse) == prefix[..j] + [x];
  }

  /** One swap of the insertion: moving `x` left past `prefix[j - 1]`,
      which departs strictly later, is what `InsertByDeparture` does. */
  lemma InsertionStep(prefix: seq<Flight>, x: Flight, j: nat, parse: string -> Option<int>)
    requires 0 < j <= |prefix| && !DepartsNoLater(prefix[j - 1], x, parse)
    ensures InsertByDeparture(prefix[..j], x, parse) + prefix[j..]
      == InsertByDeparture(prefix[..j - 1], x, parse) + prefix[j - 1..]
  {
    assert prefix[..j][..j - 1] == prefix[..j - 1];
    assert prefix[j - 1..] == [prefix[j - 1]] + prefix[j..];
  }

  // ---------------------------------------------------------------------
  // The lookup (`getFlights`)

  /** The data of a reply body, `data.data || []`. */
  function DataOf(body: ProviderBody): seq<RawFlight> {
    body.data.GetOr([])
  }

  predicate HasUpcoming(s: seq<Flight>, now: int, parse: string -> Option<int>) {
    exists i :: 0 <= i < |s| && IsUpcoming(s[i], now, parse)
  }

  /** What every result of the lookup satisfies: the flights are upcoming
      and sorted, and a non-empty list, a next flight and an error never
      come together. */
  predicate WellFormedResult(r: FlightSearchResult, now: int, parse: string -> Option<int>) {
    && (forall i :: 0 <= i < |r.flights| ==> IsUpcoming(r.flights[i], now, parse))
    && SortedByDeparture(r.flights, parse)
    && (r.flights != [] ==> r.error.None? && r.nextAvailableFlight.None?)
    && (r.nextAvailableFlight.Some? ==> r.flights == [] && r.error.None?)
  }

  /** The choice of the next available flight among the broadened query's
      flights `all`: the earliest upcoming one, else the last one in
      departure order, else none. */
  predicate ChosenNext(all: seq<Flight>, now: int, parse: string -> Option<int>, next: Option<Flight>) {
    && (all == [] <==> next.None?)
    && (next.Some? ==> next.value in all)
    && (HasUpcoming(all, now, parse) ==>
          && next.Some? && IsUpcoming(next.value, now, parse)
          && forall i :: 0 <= i < |all| && IsUpcoming(all[i], now, parse) ==>
               DepartureInstant(next.value, parse).value <= DepartureInstant(all[i], parse).value)
    && (!HasUpcoming(all, now, parse) && next.Some? ==>
          forall i :: 0 <= i < |all| ==> DepartsNoLater(all[i], next.value, parse))
    // the exact pick: the first upcoming flight of the stably sorted list,
    // else its last flight
    && var sorted := SortByDepartureSeq(all, parse);
       match FindUpcoming(sorted, now, parse)
       case Some(k) => next == Some(sorted[k])
       case None => next == (if sorted == [] then None else Some(sorted[|sorted| - 1]))
  }

  /** How the reply to the scheduled-only query decides the result; the
      broadened query is made (`queries == 2`) exactly when that reply
      carried no error and nothing in it was upcoming. */
  predicate FirstReplyHandled(first: Reply, depIata: string, arrIata: string, now: int,
                              parse: string -> Option<int>, result: FlightSearchResult, queries: nat)
  {
    && (first.Threw? ==> result == Failed(ThrownMessage(first.message)) && queries == 1)
    && (first.Received? && first.body.error.Some? ==>
          result == Failed(OrElse(first.body.error.value.message, FetchFailedMessage)) && queries == 1)
    && (first.Received? && first.body.error.None? ==>
          var upcoming := Upcoming(NormalizeAll(DataOf(first.body), depIata, arrIata), now, parse);
          && result.flights == SortByDepartureSeq(upcoming, parse)
          && multiset(result.flights) == multiset(upcoming)
          && (queries == 2 <==> upcoming == []))
  }

  /** How the reply to the broadened query decides the result. */
  predicate SecondReplyHandled(second: Reply, depIata: string, arrIata: string, now: int,
                               parse: string -> Option<int>, result: FlightSearchResult)
  {
    && result.flights == []
    && (second.Threw? ==> result == Failed(ThrownMessage(second.message)))
    && (second.Received? && (second.body.error.Some? || second.body.data.None?) ==>
          result == FlightSearchResult([], None, None))
    && (second.Received? && second.body.error.None? && second.body.data.Some? ==>
          && result.error.None?
          && ChosenNext(NormalizeAll(second.body.data.value, depIata, arrIata), now, parse,
                        result.nextAvailableFlight))
  }

  /** `getFlights(depIata, arrIata)`. `requested` lists the URLs fetched,
      in order. */
  method GetFlights(
    apiKey: Option<string>, depIata: string, arrIata: string,
    now: int, parse: string -> Option<int>, fetch: string -> Reply)
    returns (result: FlightSearchResult, requested: seq<string>)
    ensures WellFormedResult(result, now, parse)
    ensures !KeyConfigured(apiKey) ==> result == Failed(MissingKeyMessage) && requested == []
    ensures KeyConfigured(apiKey) ==>
      && 1 <= |requested| <= 2
      && requested[0] == FlightsUrl(apiKey.value, depIata, arrIata, true)
      && FirstReplyHandled(fetch(requested[0]), depIata, arrIata, now, parse, result, |requested|)
    ensures |requested| == 2 ==>
      && requested[1] == FlightsUrl(apiKey.value, depIata, arrIata, false)
      && SecondReplyHandled(fetch(requested[1]), depIata, arrIata, now, parse, result)
  {
    requested := [];
    if !KeyConfigured(apiKey) {
      return Failed(MissingKeyMessage), requested;
    }
    var key := apiKey.value;

    // First try with scheduled flights.
    var url := FlightsUrl(key, depIata, arrIata, true);
    requested := requested + [url];
    var response := fetch(url);
    if response.Threw? {
      return Failed(ThrownMessage(response.message)), requested;
    }
    var data := response.body;
    if data.error.Some? {
      return Failed(OrElse(data.error.value.message, FetchFailedMessage)), requested;
    }

    var allFlights := NormalizeAll(DataOf(data), depIata, arrIata);
    var flights := Upcoming(allFlights, now, parse);
    UpcomingAllUpcoming(allFlights, now, parse);
    ghost var kept := flights;
    flights := SortedCopy(flights, parse);
    SameElements(kept, flights);

    if |flights| == 0 {
      // Broaden: no flight_status filter.
      url := FlightsUrl(key, depIata, arrIata, false);
      requested := requested + [url];
      response := fetch(url);
      result := LookupBroadened(response, depIata, arrIata, now, parse);
      return;
    }
    result := FlightSearchResult(flights, None, None);
  }

  /** The broadened half of `getFlights`, from the reply to the query
      without a status filter. */
  method LookupBroadened(response: Reply, depIata: string, arrIata: string,
                         now: int, parse: string -> Option<int>)
    returns (result: FlightSearchResult)
    ensures WellFormedResult(result, now, parse)
    ensures SecondReplyHandled(response, depIata, arrIata, now, parse, result)
  {
    if response.Threw? {
      return Failed(ThrownMessage(response.message));
    }
    var data := response.body;
    if data.error.None? && data.data.Some? {
      var allFlights := NormalizeAll(data.data.value, depIata, arrIata);
      var next := NextAvailable(allFlights, now, parse);
      if next.Some? {
        return FlightSearchResult([], None, next);
      }
    }
    result := FlightSearchResult([], None, None);
  }

  /** Sorts the broadened query's flights and picks the closest upcoming
      one, or else the latest one. */
  method NextAvailable(all: seq<Flight>, now: int, parse: string -> Option<int>)
    returns (next: Option<Flight>)
    ensures ChosenNext(all, now, parse, next)
  {
    var sorted := SortedCopy(all, parse);
    SameElements(all, sorted);
    var closest := FindUpcoming(sorted, now, parse);
    if closest.Some? {
      FirstUpcomingIsEarliest(sorted, now, parse, closest.value);
      return Some(sorted[closest.value]);
    }
    if |sorted| > 0 {
      return Some(sorted[|sorted| - 1]);
    }
    next := None;
  }

  /** Sorts a copy of `s` in an array, as JavaScript sorts the array that
      `filter`/`map` produced. */
  method SortedCopy(s: seq<Flight>, parse: string -> Option<int>) returns (r: seq<Flight>)
    ensures r == SortByDepartureSeq(s, parse)
    ensures SortedByDeparture(r, parse)
    ensures multiset(r) == multiset(s)
    ensures |r| == |s|
  {
    var buffer := new Flight[|s|](i requires 0 <= i < |s| => s[i]);
    assert buffer[..] == s;
    SortByDeparture(buffer, parse);
    r := buffer[..];
    assert |multiset(r)| == |multiset(s)|;
  }

  /** Two lists with the same multiset hold the same elements. */
  lemma SameElements(s: seq<Flight>, t: seq<Flight>)
    requires multiset(s) == multiset(t)
    ensures forall i :: 0 <= i < |t| ==> t[i] in s
    ensures forall i :: 0 <= i < |s| ==> s[i] in t
  {
    forall i | 0 <= i < |t| ensures t[i] in s {
      assert t[i] in multiset(t);
    }
    forall i | 0 <= i < |s| ensures s[i] in t {
      assert s[i] in multiset(s);
    }
  }

  // ---------------------------------------------------------------------
  // Display formatting

  /** `formatFlightTime` / `formatFlightDate`: "N/A" for an empty string;
      otherwise the locale rendering `format` gives, or the input itself
      when formatting throws (`None`). The locale rendering is outside the
      model. */
  function FormatFlightInstant(isoString: string, format: string -> Option<string>): (r: string)
    ensures isoString == "" ==> r == "N/A"
    ensures isoString != "" && format(isoString).Some? ==> r == format(isoString).value
    ensures isoString != "" && format(isoString).None? ==> r == isoString
    ensures isoString != "" && format(isoString) != Some("") ==> r != ""
  {
    if isoString == "" then "N/A" else format(isoString).GetOr(isoString)
  }
}
