# Flight search app — a Dafny model of its core

This project models the core of a React Native flight search app in Dafny.
The app has a chat assistant that looks up flights between two airports.
It shows them as cards with booking links and lists amenities near an airport.

The model covers these parts of the app:

- **The flight lookup** (`services/aviationStack.ts`). It normalises the
  provider's loosely typed records. It keeps the upcoming flights and sorts
  them by departure. When nothing is upcoming it broadens the query and
  picks the next available flight.
- **The airport table** (`constants/airports.ts`). This holds 53 airports,
  the six closed Ukrainian airports with their closure notes, and the
  lookups by code, city and country.
- **The static amenity table** (`constants/airportAmenities.ts`). It stores
  food, restrooms and reviews per airport, with a generic default.
- **The flight card** (`components/FlightCard.tsx`). This covers the status
  badge colour, the booking parameters, and the URL each of the five booking
  sites is opened with.
- **The Google Places service** (`services/googlePlaces.ts`) and its
  server-side counterpart (`backend/trpc/routes/places.ts`). These run
  nearby searches, keep the best-rated food places, and build the lounge,
  restroom and shop lists and the photo URLs.
- **The chat panel** (`components/ChatInterface.tsx`). This covers how the
  flight tool's reply to the assistant is shaped, the send guard, the
  found-flights box and the closed-airport lines in the assistant's
  instructions.

Modules and their files:

| module | file |
|---|---|
| `Wrappers` | `wrappers.dfy` |
| `Text` | `text.dfy` |
| `Sequences` | `sequences.dfy` |
| `Airports` | `airports.dfy` |
| `Amenities` | `amenities.dfy` |
| `AviationStack` | `aviation_stack.dfy` |
| `FlightCard` | `flight_card.dfy` |
| `Places` | `places.dfy` |
| `GooglePlaces` | `google_places.dfy` |
| `PlacesRoute` | `places_route.dfy` |
| `ChatInterface` | `chat_interface.dfy` |

`Places` holds what the client service and the server procedures share: the
URLs, the rating filter and the rating sort. `Text` and `Sequences` are
helpers for JavaScript's string and array operations.

Conventions of the model:

- The outside world is passed in as parameters:
  - the network is a function `fetch` from a request URL to the reply that
    came back, or the exception raised;
  - `new Date(s)` is `parse`, which gives `None` for an invalid date;
  - `toISOString` is `toIso`;
  - the clock is `now` or `nowIso`;
  - `encodeURIComponent` is `encode`;
  - locale formatting is `format`;
  - API keys are `Option<string>`, and an unset key renders as
    `undefined` in a URL.
- Place ratings are kept as integer tenths, so 3.5 is 35 and 4.0 is 40.
- Coordinates in the airport table are integer ten-thousandths of a degree.
  The URLs take coordinates as the text the caller supplies.
- `getFlights` is a method. Its loop-based steps are modelled imperatively:
  the sort is an insertion sort on an array, and the panel is a class
  whose fields record what the component sets and what it hands to its
  callbacks.

## Model

| member | source | states |
|---|---|---|
| Airports.FindAirportByIata | constants/airports.ts:78-80 | The result is the first airport whose code equals the query once both are upper-cased. Nothing is found exactly when no code matches. |
| Airports.IataCodesUnique | constants/airports.ts:22-76 | No two rows of `MAJOR_AIRPORTS` share a code, even ignoring case. |
| Airports.ClosureInvariants | constants/airports.ts:13-76 | An operational airport has no closure reason. A closed one has a reason and is listed in `CLOSED_AIRPORTS_INFO`. |
| Airports.FindAirportByIataFindsRow | constants/airports.ts:78-80 | Looking up any table code, in any letter case, returns that code's own row. |
| Airports.FindAirportByIataIgnoresCase | constants/airports.ts:78-80 | A lower-cased table code finds the same airport as the code itself. |
| Airports.FindAirportsByCityMatches | constants/airports.ts:82-86 | The city search keeps every airport whose lower-cased city contains the lower-cased query, each as often as the table has it. It keeps no other airport and keeps table order. |
| Airports.FindAirportsByCountryMatches | constants/airports.ts:88-92 | The same as the city search, for the country. |
| Airports.EmptyQueriesReturnTable | constants/airports.ts:82-92 | An empty city or country query returns the whole table. |
| Amenities.GetAirportAmenities | constants/airportAmenities.ts:299-317 | A code with no entry gets the default. Otherwise the result is the default or the value stored under exactly that code. |
| Amenities.GetAirportAmenitiesOfKey | constants/airportAmenities.ts:299-317 | Looking up an entry's own code returns that entry. |
| Amenities.AmenityKeysAreAirports | constants/airportAmenities.ts:30-297 | Every code in the amenity table is an airport of `MAJOR_AIRPORTS`. |
| Amenities.GetAirportAmenitiesShape | constants/airportAmenities.ts:30-317 | Any lookup gives either four places to eat, four restrooms and three reviews, or the default's three, three and two. Every restroom returned is accessible. |
| Amenities.DefaultAmenitiesShape | constants/airportAmenities.ts:299-317 | The default has three places to eat, three accessible restrooms and two reviews. |
| Amenities.GetAirportAmenitiesCaseSensitive | constants/airportAmenities.ts:299-317 | The lookup does not fold case: a code that is not all upper-case letters gets the default. |
| AviationStack.MapFlightData | services/aviationStack.ts:76-105 | Field by field, for records with any fields missing: every value the provider sent that is present and non-empty is kept, and every missing or empty one gets its default ("Unknown", the queried code, "Unknown Airline" or ""). A missing endpoint, airline or flight object gets all defaults. Estimated and actual times, terminal, gate, date and status are copied unchanged. So names are never empty, and a non-empty query gives non-empty codes. |
| AviationStack.MapFlightDataKeepsProvidedValues | services/aviationStack.ts:76-105 | A record with every field present and non-empty is copied unchanged, whatever the queried codes. |
| AviationStack.MapFlightDataOfEmptyRecord | services/aviationStack.ts:76-105 | An empty record normalises to "Unknown" airports with the queried codes and "Unknown Airline". |
| AviationStack.UpcomingCounts | services/aviationStack.ts:110-117 | The filter keeps each flight departing after now, as often as it occurs, and drops every other flight, including those with invalid dates. |
| AviationStack.UpcomingAllUpcoming | services/aviationStack.ts:110-117 | Every kept flight departs after now. |
| AviationStack.UpcomingEmpty | services/aviationStack.ts:110-128 | The filter comes back empty exactly when no flight is upcoming, which is the condition for broadening. |
| AviationStack.FindUpcoming | services/aviationStack.ts:149-152 | The result is the first upcoming flight, or none exactly when no flight is upcoming. |
| AviationStack.FirstUpcomingIsEarliest | services/aviationStack.ts:142-152 | In a list sorted by departure, the first upcoming flight departs no later than any other upcoming one. |
| AviationStack.SortByDepartureSeq | services/aviationStack.ts:119-123 | The departure-order sort is sorted (earlier instants first, invalid dates last) and is a permutation of its input. |
| AviationStack.InsertByDepartureSorted | services/aviationStack.ts:119-123 | Inserting a flight into a list sorted by departure keeps it sorted. |
| AviationStack.InsertByDepartureStable | services/aviationStack.ts:119-123 | Inserting a flight puts it after the flights with the same departure instant and changes no other instant's order. |
| AviationStack.SortByDepartureSeqStable | services/aviationStack.ts:119-123 | Flights with equal departure instants keep their relative order, as JavaScript's stable `sort` keeps them. |
| AviationStack.SortByDeparture | services/aviationStack.ts:119-123 | The array ends as exactly the stable departure-order sort of its old contents. So it is sorted by departure time, holds the same flights, and keeps flights with equal departure times in their input order. |
| AviationStack.InsertIntoSorted | services/aviationStack.ts:119-123 | One insertion step puts the next flight after the last flight of the prefix that departs no later, and leaves the rest of the array untouched. |
| AviationStack.SortedCopy | services/aviationStack.ts:142-146 | The sorted copy is exactly the stable departure-order sort of its input: sorted, a permutation, equal departure times in input order. |
| AviationStack.NextAvailable | services/aviationStack.ts:142-164 | The result is exactly the first upcoming flight of the stably sorted list, else its last flight, else none. So it is the earliest upcoming flight when there is one, otherwise the flight departing last, and none only for an empty list. |
| AviationStack.LookupBroadened | services/aviationStack.ts:128-175 | After the broadened query: an exception gives its message. An error or missing data gives nothing. Otherwise the result is the next available flight as above. |
| AviationStack.GetFlights | services/aviationStack.ts:41-176 | Without a key: the configuration error and no request. Otherwise the first request is the scheduled-only query. An exception or provider error becomes the result's error. The flights are exactly the upcoming ones in stable departure order. The broadened query is sent exactly when nothing was upcoming, and its next flight is picked as above. A result never combines flights, a next flight and an error. |
| AviationStack.FormatFlightInstant | services/aviationStack.ts:178-208 | An empty string shows "N/A". Otherwise the result is the formatted text, or the input itself when formatting throws, and it is never blank unless the formatter returns blank. |
| FlightCard.BookingOptionsDistinct | components/FlightCard.tsx:26-70 | The booking sheet lists five sites under five different names, each site once. |
| FlightCard.BookingUrl | components/FlightCard.tsx:26-70 | Each URL starts with its site's base URL, and the codes and date read back from what follows. Kiwi gives `DEP/ARR/DATE`. Skyscanner gives the lower-cased codes and `YYMMDD`, with a trailing slash. Google Flights decodes to "flights from DEP to ARR on DATE". Kayak and Momondo give `DEP-ARR/DATE`. This holds when the fields contain none of the separators. |
| FlightCard.ReplaceDashByDash | components/FlightCard.tsx:31-34 | Kiwi's dash-for-dash replacement leaves the date unchanged. |
| FlightCard.KiwiUrlRoundTrip | components/FlightCard.tsx:31-34 | Kiwi's path splits back into the departure code, the arrival code and the date. |
| FlightCard.SkyscannerDateOfParts | components/FlightCard.tsx:39-42 | A date YEAR-MONTH-DAY whose year has four characters and whose parts hold no dash is sent as the last two characters of the year, then the month, then the day. |
| FlightCard.SkyscannerDateOfIsoDate | components/FlightCard.tsx:39-42 | For a `YYYY-MM-DD` date, Skyscanner's date is `YYMMDD`. |
| FlightCard.SkyscannerUrlFields | components/FlightCard.tsx:39-42 | Skyscanner's path splits into the lower-cased codes and the `YYMMDD` date. |
| FlightCard.GoogleFlightsQuery | components/FlightCard.tsx:47-49 | Google's query decodes to "flights from DEP to ARR on DATE". |
| FlightCard.KayakMomondoUrlRoundTrip | components/FlightCard.tsx:54-63 | Kayak's and Momondo's paths split back into the route "DEP-ARR" and the date, and the route into the two codes. |
| FlightCard.GetBookingParams | components/FlightCard.tsx:74-84 | There are no parameters exactly when the scheduled departure is an invalid date. Otherwise the codes, flight number and airline come from the flight, and with no departure scheduled the date is today's. |
| FlightCard.GetBookingParamsDate | components/FlightCard.tsx:74-84 | The booking date is the date part of the ISO timestamp. |
| FlightCard.StatusColor | components/FlightCard.tsx:106-121 | The colour is one of six badge colours. A missing status is grey. |
| FlightCard.KnownStatusColor | components/FlightCard.tsx:107-117 | The statuses scheduled, active, landed, cancelled and delayed get #00D4FF, #4ADE80, #A78BFA, #F87171 and #FBBF24 respectively. |
| FlightCard.UnknownStatusIsGrey | components/FlightCard.tsx:107-120 | A status gets the grey #94A3B8 exactly when its lower case is none of the five known statuses. |
| FlightCard.StatusColorIgnoresCase | components/FlightCard.tsx:106-121 | The colour does not depend on letter case. |
| FlightCard.StatusColorsDistinct | components/FlightCard.tsx:106-121 | The five known statuses get five different colours, none of them grey. A status is grey exactly when its lower case is not a known status. |
| Places.NearbySearchUrl | services/googlePlaces.ts:35-39 | The URL starts with the nearby-search endpoint. |
| Places.NearbySearchUrlParameters | services/googlePlaces.ts:35-39 | The query string splits back into location, radius (as its decimal digits), type and key, plus the keyword exactly when one was given. |
| Places.PhotoUrl | services/googlePlaces.ts:115-117 | The URL starts with the photo endpoint. |
| Places.PhotoUrlParameters | services/googlePlaces.ts:115-117 | The query string splits back into the width, the photo reference and the key. |
| Places.KeepRatedAtLeastSpec | services/googlePlaces.ts:71 | The rating filter keeps exactly the places rated at least the threshold (a zero rating is falsy), each as often as given, in order. |
| Places.SortByRatingDesc | services/googlePlaces.ts:72 | The sort leaves places best-rated first (a missing rating counts as 0) and is a permutation of its input. |
| Places.InsertByRatingSorted | services/googlePlaces.ts:72 | Inserting into a sorted list keeps it sorted. |
| Places.SortByRatingDescStable | services/googlePlaces.ts:72 | Places with equal ratings keep their relative order. |
| Places.TopRatedSpec | services/googlePlaces.ts:72-73 | The sorted and sliced list is sorted, has `min(limit, n)` places and draws them from the input. |
| Places.TopRatedLeavesOutNoBetter | services/googlePlaces.ts:72-73 | Every place the slice drops is rated no higher than every place it keeps. |
| Places.BestRated | services/googlePlaces.ts:70-73 | Filter, sort and slice give exactly `min(limit, number that pass the filter)` places. They are sorted best first, all rated at least the threshold, and drawn from the input. |
| Places.BestRatedIsBest | services/googlePlaces.ts:70-73 | Every well-rated place that is left out is rated no higher than every place kept. When at most `limit` places are well rated, all of them are kept. Together with the exact length in `BestRated`, the result is the top `limit`. |
| Places.BestRatedTakeTwice | services/googlePlaces.ts:101-108 | Cutting the best ten down to eight gives the best eight. |
| GooglePlaces.SearchNearbyPlaces | services/googlePlaces.ts:27-56 | The provider's list is returned exactly for an `OK` or `ZERO_RESULTS` reply with results. Any other status, and any exception, gives the empty list. |
| GooglePlaces.GetAirportFood | services/googlePlaces.ts:58-74 | Exactly `min(10, number rated 3.5 or more)` places, best-rated first, all rated 3.5 or more, all from the restaurant search. |
| GooglePlaces.GetAirportRestrooms | services/googlePlaces.ts:76-89 | The first ten results of the restroom search, in order. |
| GooglePlaces.GetAirportAmenities | services/googlePlaces.ts:91-113 | At most eight places to eat, restrooms and shops, and at most five lounges, each lounge rated 4.0 or more. |
| GooglePlaces.GetAirportAmenitiesLists | services/googlePlaces.ts:91-113 | The lists are exactly the food search's eight best, the first eight restrooms and shops found, and the first five lounges rated 4.0 or more, in the order found. |
| GooglePlaces.GetPhotoUrl | services/googlePlaces.ts:115-117 | The photo URL embeds the given width, or 400 pixels when none is given. `PhotoUrlParameters` reads the width back. |
| GooglePlaces.GetPriceLevel | services/googlePlaces.ts:119-122 | As many dollar signs as the price level; none for a missing level or level 0. |
| PlacesRoute.ServerKey | backend/trpc/routes/places.ts:4 | The key every procedure sends is the server key when that is set and non-empty, otherwise the public one. A usable key results exactly when either is set. |
| PlacesRoute.SearchNearby | backend/trpc/routes/places.ts:7-38 | The provider's status is passed on. A rejected status gives no results and the provider's error message. An exception gives no results, status "ERROR" and the exception's text. |
| PlacesRoute.SearchNearbyAgreesWithService | backend/trpc/routes/places.ts:15-38 | The procedure returns the same places as the client service for the same request. It reports an error only when the service returns none. |
| PlacesRoute.GetAirportAmenities | backend/trpc/routes/places.ts:40-91 | At most 8/8/5/8 places, with the food rated 3.5 or more. When any of the four requests throws, all four lists are empty. |
| PlacesRoute.GetAirportAmenitiesAgreesWithService | backend/trpc/routes/places.ts:40-91 | When no request throws, the procedure returns exactly the client service's lists. |
| PlacesRoute.GetPhotoUrl | backend/trpc/routes/places.ts:93-100 | The photo URL embeds the given width, or 400 pixels when none is given. |
| PlacesRoute.GetPhotoUrlAgreesWithService | backend/trpc/routes/places.ts:93-100 | The procedure builds the same photo URL as the client service. |
| ChatInterface.ShapeReply | components/ChatInterface.tsx:86-145 | Success holds exactly when the lookup completed without an error. A failure hands nothing to the panel. At most five flights are described. Whatever is handed over extends the panel's list. |
| ChatInterface.ShapeReplyOfError | components/ChatInterface.tsx:88-95 | An error is passed on with the "Error searching flights" message, and nothing is handed over. |
| ChatInterface.ShapeReplyOfNextFlight | components/ChatInterface.tsx:99-113 | With no flights but a next available one, that flight alone is described and appended to the panel's list. The message is the "found the next available flight" text for that flight. |
| ChatInterface.ShapeReplyOfNoFlights | components/ChatInterface.tsx:114-119 | With neither flights nor a next one, the reply is a success with an empty flight list and the "No scheduled flights found from ORIGIN to DESTINATION" message. Nothing is handed to the panel. |
| ChatInterface.ShapeReplyOfFlights | components/ChatInterface.tsx:122-137 | The reply carries the total and one summary for each of the first five flights, in order. All flights are appended to the panel's list. The message is "Found N flights from ORIGIN to DESTINATION" for the total N, which `FoundMessageCount` reads back. |
| ChatInterface.FoundMessageCount | components/ChatInterface.tsx:136 | The number in "Found N flights" reads back as the number of flights. |
| ChatInterface.FoundFlightsBox | components/ChatInterface.tsx:321-333 | The box shows exactly when there are flights. The title is "Next available flight" exactly for one flight. It draws the first five as cards and shows "+N more" exactly when there are more than five, with cards plus N equal to the total. |
| ChatInterface.ReplyMatchesCards | components/ChatInterface.tsx:122-137 | Starting from an empty panel, the flights described to the assistant are exactly those drawn as cards, in the same order. |
| ChatInterface.ClosedAirportsListLines | components/ChatInterface.tsx:30-32 | The closed-airport list splits back into one "CODE: note" line per closed airport, in table order. |
| ChatInterface.ChatPanel.HandleSend | components/ChatInterface.tsx:185-191 | Blank input changes nothing. Otherwise the flights are cleared, the input is sent as typed and the box is emptied. Either way the box ends blank. |
| ChatInterface.ChatPanel.ExecuteFlightTool | components/ChatInterface.tsx:76-146 | The codes are upper-cased for the lookup. The searching indicator is off afterwards. The reply and the list handed to `onFlightsFound` are the shaped ones, and `result` and the requested URLs are the lookup's for the upper-cased codes. That covers the first request for scheduled flights and how its reply decides the result, plus the broadened second request and how its reply decides. |

## Left out

- The network, the clock, date parsing, `toISOString`,
  `encodeURIComponent` and locale formatting are parameters. What they
  return is not modelled.
- `Promise.all` concurrency is not modelled. The four amenity searches are
  evaluated as independent calls.
- Console logging is not modelled.
- AviationStack.NextAvailable: an invalid date anywhere in the broadened
  reply makes JavaScript's comparator yield `NaN`. That makes the whole
  sort order implementation-defined, not just the place of the invalid
  dates. So the source's pick need not be the earliest upcoming flight.
  For example, an engine may leave `[t+5h, invalid, t+3h]` as it is, and
  `find` then returns the t+5h flight. The model sorts invalid dates last
  and picks the earliest upcoming flight.
- AviationStack.SortByDeparture: for the same reason, the model's order is
  one consistent order, invalid dates last. It is not whatever order a
  JavaScript engine produces from an inconsistent comparator.
- Floating-point ratings are integer tenths. `formatRating`
  (`toFixed(1)`) is not modelled because it formats floating point.
- GooglePlaces.GetPriceLevel: a negative or fractional price level is not
  modelled; levels are natural numbers.
- GooglePlaces.GetPhotoUrl: a negative or fractional width is not
  modelled; widths are natural numbers.
- Case mapping covers ASCII letters only. `toUpperCase`/`toLowerCase` on
  other scripts is not modelled. The affected members are listed below.
- Airports.FindAirportsByCity: a query such as "SÃO PAULO" does not match
  "São Paulo" in the model, while the source's `toLowerCase` matches it.
- Airports.FindAirportsByCountry: the same non-ASCII case difference.
- Airports.FindAirportByIata: a code with non-ASCII letters is compared
  without case folding.
- FlightCard.StatusColor: a status with non-ASCII letters is compared
  without case folding.
- ChatInterface.ChatPanel.ExecuteFlightTool: airport codes are
  upper-cased for ASCII letters only before the lookup.
- FlightCard.BookingUrl: the Skyscanner codes are lower-cased for ASCII
  letters only.
- PlacesRoute.SearchNearby: the radius is a natural number. The negative
  or fractional numbers `z.number()` also accepts are not modelled.
- GooglePlaces.SearchNearbyPlaces: the radius is a natural number. A
  negative or fractional radius is not modelled.
- Text.IsBlank uses the ECMAScript white-space and line-terminator set as
  `trim` does. Surrogate pairs are not distinguished from other
  characters.
- Coordinates in URLs are the caller's text. JavaScript's number-to-string
  rendering is not modelled.
- Amenities.GetAirportAmenities: a lookup by an `Object.prototype` key
  such as `"constructor"` is not modelled. The model treats the table as a
  plain map.
- AviationStack.MapFlightData: a `null` element in the provider's list is
  not modelled (the source would throw there). Missing nested objects are
  modelled.
- The provider reply's `status` may be absent (`None`), which counts as an
  error status, as the strict `!==` comparison in the source makes it.
- ChatInterface: the assistant framework, the system prompt text apart
  from the closed-airport lines, the prompt prefill, scrolling and the
  keyboard are not modelled.
- ChatInterface.ChatPanel.ExecuteFlightTool: the `catch` branch of
  `execute` is kept only in `ShapeReply`, because the modelled
  `getFlights` never throws.
- Map and globe views, routing, theming and layout components are not
  part of this model.
