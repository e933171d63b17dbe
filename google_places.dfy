/** The client-side Google Places service, services/googlePlaces.ts: a
    nearby search that swallows every failure into an empty list, and the
    airport food, restroom and amenity lists built from it.

    The API key (`EXPO_PUBLIC_GOOGLE_PLACES_API_KEY`, possibly unset),
    `encodeURIComponent` (`encode`) and the network (`fetch`, from a
    request URL to what came back) are parameters. */
module GooglePlaces {
  import opened Wrappers
  import opened Text
  import Sequences
  import opened Places

  /** The radius `searchNearbyPlaces` uses when none is given. */
  const DefaultRadius: nat := 2000

  /** The radius the airport lists search within. */
  const AirportRadius: nat := 1500

  /** The width `getPhotoUrl` asks for when none is given. */
  const DefaultPhotoWidth: nat := 400

  const FoodThreshold: nat := 35
  const LoungeThreshold: nat := 40

  /** The request `searchNearbyPlaces` sends. */
  function SearchUrl(latitude: string, longitude: string, placeType: string, keyword: Option<string>,
                     radius: Option<nat>, key: Option<string>, encode: string -> string): string {
    NearbySearchUrl(latitude, longitude, radius.GetOr(DefaultRadius), placeType, keyword, key, encode)
  }

  /** `searchNearbyPlaces`: the provider's results when it answers `OK` or
      `ZERO_RESULTS` (none when it sends no list), otherwise, and on any
      exception, the empty list. */
  function SearchNearbyPlaces(latitude: string, longitude: string, placeType: string, keyword: Option<string>,
                              radius: Option<nat>, key: Option<string>, encode: string -> string,
                              fetch: string -> PlacesReply): (r: seq<PlaceResult>)
    ensures var reply := fetch(SearchUrl(latitude, longitude, placeType, keyword, radius, key, encode));
      && (r != [] ==> reply.Answered? && StatusAccepted(reply.status) && reply.results == Some(r))
      && (reply.Answered? && StatusAccepted(reply.status) && reply.results.Some? ==> r == reply.results.value)
  {
    match fetch(SearchUrl(latitude, longitude, placeType, keyword, radius, key, encode))
    case Threw(_) => []
    case Answered(status, results, _) =>
      if !StatusAccepted(status) then [] else results.GetOr([])
  }

  /** The search a list of the airport page runs. */
  function AirportSearch(latitude: string, longitude: string, placeType: string, keyword: string,
                         key: Option<string>, encode: string -> string, fetch: string -> PlacesReply): seq<PlaceResult> {
    SearchNearbyPlaces(latitude, longitude, placeType, Some(keyword), Some(AirportRadius), key, encode, fetch)
  }

  const FoodSearch := ("restaurant", "airport food restaurant cafe")
  const RestroomSearch := ("point_of_interest", "restroom toilet " + "bathroom airport")
  const LoungeSearch := ("point_of_interest", "airport lounge vip")
  const ShopSearch := ("store", "airport shop duty free")

  /** `getAirportFood`: the ten best rated places rated 3.5 or more. */
  function GetAirportFood(latitude: string, longitude: string, key: Option<string>,
                          encode: string -> string, fetch: string -> PlacesReply): (r: seq<PlaceResult>)
    ensures var found := AirportSearch(latitude, longitude, FoodSearch.0, FoodSearch.1, key, encode, fetch);
      |r| == Sequences.Min(10, |KeepRatedAtLeast(found, FoodThreshold)|)
    ensures SortedByRatingDesc(r)
    ensures forall i :: 0 <= i < |r| ==> RatedAtLeast(r[i], FoodThreshold)
    ensures multiset(r) <= multiset(AirportSearch(latitude, longitude, FoodSearch.0, FoodSearch.1, key, encode, fetch))
  {
    BestRated(AirportSearch(latitude, longitude, FoodSearch.0, FoodSearch.1, key, encode, fetch), FoodThreshold, 10)
  }

  /** `getAirportRestrooms`: the first ten results. */
  function GetAirportRestrooms(latitude: string, longitude: string, key: Option<string>,
                               encode: string -> string, fetch: string -> PlacesReply): (r: seq<PlaceResult>)
    ensures var found := AirportSearch(latitude, longitude, RestroomSearch.0, RestroomSearch.1, key, encode, fetch);
      |r| == Sequences.Min(10, |found|) && r <= found
  {
    Sequences.Take(AirportSearch(latitude, longitude, RestroomSearch.0, RestroomSearch.1, key, encode, fetch), 10)
  }

  datatype AmenityLists = AmenityLists(
    food: seq<PlaceResult>,
    restrooms: seq<PlaceResult>,
    lounges: seq<PlaceResult>,
    shops: seq<PlaceResult>)

  /** `getAirportAmenities`: four searches; at most eight places to eat,
      restrooms and shops, and at most five lounges rated 4.0 or more.
      A failed search only empties its own list. */
  function GetAirportAmenities(latitude: string, longitude: string, key: Option<string>,
                               encode: string -> string, fetch: string -> PlacesReply): (r: AmenityLists)
    ensures |r.food| <= 8 && |r.restrooms| <= 8 && |r.lounges| <= 5 && |r.shops| <= 8
    ensures forall i :: 0 <= i < |r.lounges| ==> RatedAtLeast(r.lounges[i], LoungeThreshold)
  {
    var food := GetAirportFood(latitude, longitude, key, encode, fetch);
    var restrooms := GetAirportRestrooms(latitude, longitude, key, encode, fetch);
    var lounges := AirportSearch(latitude, longitude, LoungeSearch.0, LoungeSearch.1, key, encode, fetch);
    var shops := AirportSearch(latitude, longitude, ShopSearch.0, ShopSearch.1, key, encode, fetch);
    var keptLounges := KeepRatedAtLeast(lounges, LoungeThreshold);
    Sequences.FilterAllPass(lounges, (p: PlaceResult) => RatedAtLeast(p, LoungeThreshold));
    AmenityLists(
      Sequences.Take(food, 8),
      Sequences.Take(restrooms, 8),
      Sequences.Take(keptLounges, 5),
      Sequences.Take(shops, 8))
  }

  /** The amenity lists are the food search's eight best, the first eight
      restrooms and shops found, and the first five lounges rated 4.0 or
      more, in the order found. */
  lemma GetAirportAmenitiesLists(latitude: string, longitude: string, key: Option<string>,
                                 encode: string -> string, fetch: string -> PlacesReply)
    ensures var r := GetAirportAmenities(latitude, longitude, key, encode, fetch);
      && r.food == BestRated(AirportSearch(latitude, longitude, FoodSearch.0, FoodSearch.1, key, encode, fetch), FoodThreshold, 8)
      && r.restrooms == Sequences.Take(AirportSearch(latitude, longitude, RestroomSearch.0, RestroomSearch.1, key, encode, fetch), 8)
      && r.lounges == Sequences.Take(KeepRatedAtLeast(AirportSearch(latitude, longitude, LoungeSearch.0, LoungeSearch.1, key, encode, fetch), LoungeThreshold), 5)
      && Sequences.IsSubsequence(r.lounges, AirportSearch(latitude, longitude, LoungeSearch.0, LoungeSearch.1, key, encode, fetch))
      && r.shops == Sequences.Take(AirportSearch(latitude, longitude, ShopSearch.0, ShopSearch.1, key, encode, fetch), 8)
  {
    var r := GetAirportAmenities(latitude, longitude, key, encode, fetch);
    var found := AirportSearch(latitude, longitude, FoodSearch.0, FoodSearch.1, key, encode, fetch);
    assert r.food == Sequences.Take(BestRated(found, FoodThreshold, 10), 8);
    BestRatedTakeTwice(found, FoodThreshold, 10, 8);
    var lounges := AirportSearch(latitude, longitude, LoungeSearch.0, LoungeSearch.1, key, encode, fetch);
    assert r.lounges == Sequences.Take(KeepRatedAtLeast(lounges, LoungeThreshold), 5);
    Sequences.FilterIsSubsequence(lounges, (p: PlaceResult) => RatedAtLeast(p, LoungeThreshold));
    Sequences.TakeOfSubsequence(KeepRatedAtLeast(lounges, LoungeThreshold), 5, lounges);
  }

  /** `getPhotoUrl(photoReference, maxWidth = 400)`. */
  function GetPhotoUrl(photoReference: string, maxWidth: Option<nat>, key: Option<string>): (r: string)
    ensures maxWidth.None? ==> r == PhotoUrl(photoReference, DefaultPhotoWidth, key)
    ensures maxWidth.Some? ==> r == PhotoUrl(photoReference, maxWidth.value, key)
  {
    PhotoUrl(photoReference, maxWidth.GetOr(DefaultPhotoWidth), key)
  }

  /** `'$'.repeat(n)`. */
  function Dollars(n: nat): (r: string)
    ensures |r| == n && forall i :: 0 <= i < n ==> r[i] == '$'
  {
    if n == 0 then "" else Dollars(n - 1) + "$"
  }

  /** `getPriceLevel`: as many dollar signs as the price level; nothing for
      a missing level or level 0. */
  function GetPriceLevel(level: Option<nat>): (r: string)
    ensures |r| == level.GetOr(0)
    ensures forall i :: 0 <= i < |r| ==> r[i] == '$'
  {
    if level.None? || level.value == 0 then "" else Dollars(level.value)
  }
}
