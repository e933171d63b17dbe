/** The server-side places procedures, backend/trpc/routes/places.ts.
    They build the same requests as the client service but report errors
    differently: `searchNearby` passes the provider's status and error on,
    and `getAirportAmenities` empties all four lists when any of its four
    requests throws.

    Every procedure is given the two environment variables (`env`) and
    sends `ServerKey(env)` as the key; they, `encodeURIComponent`
    (`encode`) and the network (`fetch`) are parameters. */
module PlacesRoute {
  import opened Wrappers
  import opened Text
  import Sequences
  import opened Places
  import GooglePlaces

  /** `GOOGLE_PLACES_API_KEY` and `EXPO_PUBLIC_GOOGLE_PLACES_API_KEY`. */
  datatype Environment = Environment(serverKey: Option<string>, publicKey: Option<string>)

  /** `GOOGLE_PLACES_API_KEY || EXPO_PUBLIC_GOOGLE_PLACES_API_KEY`, the key
      the procedures send. */
  function ServerKey(env: Environment): (r: Option<string>)
    ensures Truthy(r) <==> Truthy(env.serverKey) || Truthy(env.publicKey)
    ensures Truthy(env.serverKey) ==> r == env.serverKey
    ensures !Truthy(env.serverKey) ==> r == env.publicKey
  {
    if Truthy(env.serverKey) then env.serverKey else env.publicKey
  }

  /** The input of `searchNearby`; a missing radius defaults to 2000. */
  datatype SearchNearbyInput = SearchNearbyInput(
    latitude: string,
    longitude: string,
    placeType: string,
    keyword: Option<string>,
    radius: Option<nat>)

  /** What `searchNearby` answers; `error` is absent on success. */
  datatype SearchNearbyOutput = SearchNearbyOutput(
    results: seq<PlaceResult>,
    status: Option<string>,
    error: Option<string>)

  const ErrorStatus := "ERROR"

  function SearchNearbyUrl(input: SearchNearbyInput, key: Option<string>, encode: string -> string): string {
    NearbySearchUrl(input.latitude, input.longitude, input.radius.GetOr(GooglePlaces.DefaultRadius),
                    input.placeType, input.keyword, key, encode)
  }

  /** `searchNearby`: the provider's results and status; on a status other
      than `OK` or `ZERO_RESULTS` no results, that status and the
      provider's error message; on an exception no results, the status
      `ERROR` and the exception's text. */
  function SearchNearby(input: SearchNearbyInput, env: Environment, encode: string -> string,
                        fetch: string -> PlacesReply): (r: SearchNearbyOutput)
    ensures var reply := fetch(SearchNearbyUrl(input, ServerKey(env), encode));
      && (reply.Threw? ==> r == SearchNearbyOutput([], Some(ErrorStatus), Some(reply.message)))
      && (reply.Answered? ==> r.status == reply.status)
      && (reply.Answered? && !StatusAccepted(reply.status) ==> r.results == [] && r.error == reply.errorMessage)
      && (reply.Answered? && StatusAccepted(reply.status) ==> r.results == reply.results.GetOr([]) && r.error.None?)
  {
    match fetch(SearchNearbyUrl(input, ServerKey(env), encode))
    case Threw(message) => SearchNearbyOutput([], Some(ErrorStatus), Some(message))
    case Answered(status, results, errorMessage) =>
      if !StatusAccepted(status) then SearchNearbyOutput([], status, errorMessage)
      else SearchNearbyOutput(results.GetOr([]), status, None)
  }

  /** The procedure hands over the same places the client service returns
      for the same request; an error is reported exactly when no place is
      accepted from the provider. */
  lemma SearchNearbyAgreesWithService(input: SearchNearbyInput, env: Environment, encode: string -> string,
                                      fetch: string -> PlacesReply)
    ensures SearchNearby(input, env, encode, fetch).results
      == GooglePlaces.SearchNearbyPlaces(input.latitude, input.longitude, input.placeType, input.keyword,
                                         input.radius, ServerKey(env), encode, fetch)
    ensures SearchNearby(input, env, encode, fetch).error.Some?
      ==> GooglePlaces.SearchNearbyPlaces(input.latitude, input.longitude, input.placeType, input.keyword,
                                          input.radius, ServerKey(env), encode, fetch) == []
  {
  }

  /** The request `fetchPlaces` sends. */
  function FetchUrl(latitude: string, longitude: string, search: (string, string), key: Option<string>,
                    encode: string -> string): string {
    NearbySearchUrl(latitude, longitude, GooglePlaces.AirportRadius, search.0, Some(search.1), key, encode)
  }

  /** `fetchPlaces` for a request that did not throw: the results of an
      accepted reply, otherwise none. */
  function AcceptedResults(reply: PlacesReply): seq<PlaceResult>
    requires reply.Answered?
  {
    if StatusAccepted(reply.status) then reply.results.GetOr([]) else []
  }

  const NoAmenities := GooglePlaces.AmenityLists([], [], [], [])

  /** `getAirportAmenities`: the four searches of the client service, the
      food cut to eight; when any of the four throws, `Promise.all` fails
      and all four lists come back empty. */
  function GetAirportAmenities(latitude: string, longitude: string, env: Environment,
                               encode: string -> string, fetch: string -> PlacesReply): (r: GooglePlaces.AmenityLists)
    ensures |r.food| <= 8 && |r.restrooms| <= 8 && |r.lounges| <= 5 && |r.shops| <= 8
    ensures forall i :: 0 <= i < |r.food| ==> RatedAtLeast(r.food[i], GooglePlaces.FoodThreshold)
    ensures (fetch(FetchUrl(latitude, longitude, GooglePlaces.FoodSearch, ServerKey(env), encode)).Threw?
      || fetch(FetchUrl(latitude, longitude, GooglePlaces.RestroomSearch, ServerKey(env), encode)).Threw?
      || fetch(FetchUrl(latitude, longitude, GooglePlaces.LoungeSearch, ServerKey(env), encode)).Threw?
      || fetch(FetchUrl(latitude, longitude, GooglePlaces.ShopSearch, ServerKey(env), encode)).Threw?)
      ==> r == NoAmenities
  {
    var key := ServerKey(env);
    var foodReply := fetch(FetchUrl(latitude, longitude, GooglePlaces.FoodSearch, key, encode));
    var restroomReply := fetch(FetchUrl(latitude, longitude, GooglePlaces.RestroomSearch, key, encode));
    var loungeReply := fetch(FetchUrl(latitude, longitude, GooglePlaces.LoungeSearch, key, encode));
    var shopReply := fetch(FetchUrl(latitude, longitude, GooglePlaces.ShopSearch, key, encode));
    if foodReply.Threw? || restroomReply.Threw? || loungeReply.Threw? || shopReply.Threw? then NoAmenities
    else
      GooglePlaces.AmenityLists(
        BestRated(AcceptedResults(foodReply), GooglePlaces.FoodThreshold, 8),
        Sequences.Take(AcceptedResults(restroomReply), 8),
        Sequences.Take(KeepRatedAtLeast(AcceptedResults(loungeReply), GooglePlaces.LoungeThreshold), 5),
        Sequences.Take(AcceptedResults(shopReply), 8))
  }

  /** When no request throws, the procedure returns exactly the lists of
      the client service, given the same key. */
  lemma GetAirportAmenitiesAgreesWithService(latitude: string, longitude: string, env: Environment,
                                             encode: string -> string, fetch: string -> PlacesReply)
    requires !fetch(FetchUrl(latitude, longitude, GooglePlaces.FoodSearch, ServerKey(env), encode)).Threw?
    requires !fetch(FetchUrl(latitude, longitude, GooglePlaces.RestroomSearch, ServerKey(env), encode)).Threw?
    requires !fetch(FetchUrl(latitude, longitude, GooglePlaces.LoungeSearch, ServerKey(env), encode)).Threw?
    requires !fetch(FetchUrl(latitude, longitude, GooglePlaces.ShopSearch, ServerKey(env), encode)).Threw?
    ensures GetAirportAmenities(latitude, longitude, env, encode, fetch)
      == GooglePlaces.GetAirportAmenities(latitude, longitude, ServerKey(env), encode, fetch)
  {
    var key := ServerKey(env);
    assert GetAirportAmenities(latitude, longitude, env, encode, fetch).food
      == BestRated(AcceptedResults(fetch(FetchUrl(latitude, longitude, GooglePlaces.FoodSearch, key, encode))),
                   GooglePlaces.FoodThreshold, 8);
    GooglePlaces.GetAirportAmenitiesLists(latitude, longitude, key, encode, fetch);
  }

  /** `getPhotoUrl`: the photo URL, 400 pixels wide unless asked otherwise. */
  function GetPhotoUrl(photoReference: string, maxWidth: Option<nat>, env: Environment): (r: string)
    ensures maxWidth.None? ==> r == PhotoUrl(photoReference, GooglePlaces.DefaultPhotoWidth, ServerKey(env))
    ensures maxWidth.Some? ==> r == PhotoUrl(photoReference, maxWidth.value, ServerKey(env))
  {
    PhotoUrl(photoReference, maxWidth.GetOr(GooglePlaces.DefaultPhotoWidth), ServerKey(env))
  }

  /** The procedure builds the same photo URL as the client service. */
  lemma GetPhotoUrlAgreesWithService(photoReference: string, maxWidth: Option<nat>, env: Environment)
    ensures GetPhotoUrl(photoReference, maxWidth, env) == GooglePlaces.GetPhotoUrl(photoReference, maxWidth, ServerKey(env))
  {
  }
}
