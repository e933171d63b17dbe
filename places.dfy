/** What services/googlePlaces.ts and backend/trpc/routes/places.ts share:
    the place record of the Google Places nearby search, the reply the
    search comes back with, the request URLs, and the list pipeline both
    apply to a search's results (keep the well rated, best first, the
    first few).

    Ratings are kept in tenths of a star (the provider reports one
    decimal), so the thresholds 3.5 and 4.0 are 35 and 40. Coordinates
    enter the URLs as the text JavaScript renders them with. */
module Places {
  import opened Wrappers
  import opened Text
  import Sequences

  datatype Photo = Photo(photoReference: string, height: nat, width: nat)

  /** `PlaceResult`; the optional fields stay optional. */
  datatype PlaceResult = PlaceResult(
    placeId: string,
    name: string,
    ratingTenths: Option<nat>,
    userRatingsTotal: Option<nat>,
    vicinity: Option<string>,
    types: seq<string>,
    openNow: Option<bool>,
    priceLevel: Option<nat>,
    photos: Option<seq<Photo>>)

  /** What one nearby-search request yields: the parsed JSON body, or the
      exception `fetch` or `response.json()` raised (its text). */
  datatype PlacesReply =
    | Answered(status: Option<string>, results: Option<seq<PlaceResult>>, errorMessage: Option<string>)
    | Threw(message: string)

  /** The statuses the app accepts; every other one is an error. */
  predicate StatusAccepted(status: Option<string>) {
    status == Some("OK") || status == Some("ZERO_RESULTS")
  }

  const NearbySearchBase :=
    "https://maps.googleapis."
    + "com/maps/api/place/"
    + "nearbysearch/json?"
  const PhotoBase :=
    "https://maps.googleapis."
    + "com/maps/api/place/photo?"

  /** A configured key, or the text an unset one renders as. */
  function KeyText(key: Option<string>): string {
    key.GetOr("undefined")
  }

  /** The query parameters of a nearby search, in the order the URL
      carries them; the keyword (already percent-encoded) only when it is
      non-empty. */
  function NearbySearchParams(latitude: string, longitude: string, radius: nat, placeType: string,
                              keyword: Option<string>, key: Option<string>,
                              encode: string -> string): (r: seq<string>)
    ensures |r| == if Truthy(keyword) then 5 else 4
  {
    var fixed := ["location=" + latitude + "," + longitude, "radius=" + NatToString(radius),
                  "type=" + placeType, "key=" + KeyText(key)];
    if Truthy(keyword) then fixed + ["keyword=" + encode(keyword.value)] else fixed
  }

  /** The nearby-search URL both files build. `encode` stands for
      `encodeURIComponent`. */
  function NearbySearchUrl(latitude: string, longitude: string, radius: nat, placeType: string,
                           keyword: Option<string>, key: Option<string>,
                           encode: string -> string): (r: string)
    ensures NearbySearchBase <= r
  {
    NearbySearchBase + Join(NearbySearchParams(latitude, longitude, radius, placeType, keyword, key, encode), "&")
  }

  /** No parameter text holds `&`. */
  predicate NoAmpersand(params: seq<string>) {
    forall i :: 0 <= i < |params| ==> '&' !in params[i]
  }

  /** The query string splits back into its parameters, so the provider
      sees each one as written, the radius as its decimal digits. */
  lemma NearbySearchUrlParameters(latitude: string, longitude: string, radius: nat, placeType: string,
                                  keyword: Option<string>, key: Option<string>, encode: string -> string)
    requires NoAmpersand(NearbySearchParams(latitude, longitude, radius, placeType, keyword, key, encode))
    ensures var params := NearbySearchParams(latitude, longitude, radius, placeType, keyword, key, encode);
      && Split(NearbySearchUrl(latitude, longitude, radius, placeType, keyword, key, encode)[|NearbySearchBase|..], '&') == params
      && params[1] == "radius=" + NatToString(radius)
      && (Truthy(keyword) <==> |params| == 5)
  {
    var params := NearbySearchParams(latitude, longitude, radius, placeType, keyword, key, encode);
    SplitJoin(params, '&');
  }

  /** The photo URL both files build. */
  function PhotoUrl(photoReference: string, maxWidth: nat, key: Option<string>): (r: string)
    ensures PhotoBase <= r
  {
    PhotoBase + Join(["maxwidth=" + NatToString(maxWidth), "photo_reference=" + photoReference, "key=" + KeyText(key)], "&")
  }

  /** The photo URL splits back into the width, the reference and the key. */
  lemma PhotoUrlParameters(photoReference: string, maxWidth: nat, key: Option<string>)
    requires '&' !in photoReference && '&' !in KeyText(key)
    ensures Split(PhotoUrl(photoReference, maxWidth, key)[|PhotoBase|..], '&')
      == ["maxwidth=" + NatToString(maxWidth), "photo_reference=" + photoReference, "key=" + KeyText(key)]
  {
    NatToStringRoundTrip(maxWidth);
    var params := ["maxwidth=" + NatToString(maxWidth), "photo_reference=" + photoReference, "key=" + KeyText(key)];
    assert '&' !in params[0] by {
      assert forall i :: 0 <= i < |NatToString(maxWidth)| ==> IsDigit(NatToString(maxWidth)[i]);
      assert params[0] == "maxwidth=" + NatToString(maxWidth);
    }
    assert '&' !in params[1] by {
      assert params[1] == "photo_reference=" + photoReference;
    }
    assert '&' !in params[2] by {
      assert params[2] == "key=" + KeyText(key);
    }
    SplitJoin(params, '&');
  }

  // ---------------------------------------------------------------------
  // The list pipeline

  /** `p.rating && p.rating >= threshold`: a rating of zero is falsy. */
  predicate RatedAtLeast(p: PlaceResult, threshold: nat) {
    p.ratingTenths.Some? && p.ratingTenths.value != 0 && p.ratingTenths.value >= threshold
  }

  /** `.filter(p => p.rating && p.rating >= threshold)`. */
  function KeepRatedAtLeast(s: seq<PlaceResult>, threshold: nat): seq<PlaceResult> {
    Sequences.Filter(s, (p: PlaceResult) => RatedAtLeast(p, threshold))
  }

  /** The filter keeps exactly the places rated at least `threshold`, as
      often as they occur, in their order. */
  lemma KeepRatedAtLeastSpec(s: seq<PlaceResult>, threshold: nat, x: PlaceResult)
    ensures multiset(KeepRatedAtLeast(s, threshold))[x] == if RatedAtLeast(x, threshold) then multiset(s)[x] else 0
    ensures Sequences.IsSubsequence(KeepRatedAtLeast(s, threshold), s)
    ensures forall i :: 0 <= i < |KeepRatedAtLeast(s, threshold)| ==> RatedAtLeast(KeepRatedAtLeast(s, threshold)[i], threshold)
  {
    var keep := (p: PlaceResult) => RatedAtLeast(p, threshold);
    Sequences.FilterCounts(s, keep, x);
    Sequences.FilterIsSubsequence(s, keep);
    Sequences.FilterAllPass(s, keep);
  }

  /** `p.rating || 0`, the key the comparator sorts by. */
  function RatingOrZero(p: PlaceResult): nat {
    p.ratingTenths.GetOr(0)
  }

  predicate SortedByRatingDesc(s: seq<PlaceResult>) {
    forall i, j :: 0 <= i < j < |s| ==> RatingOrZero(s[i]) >= RatingOrZero(s[j])
  }

  /** Puts `x` in front of the first place rated no higher. */
  function InsertByRating(x: PlaceResult, t: seq<PlaceResult>): (r: seq<PlaceResult>)
    ensures multiset(r) == multiset(t) + multiset{x}
    ensures |r| == |t| + 1
    decreases |t|
  {
    if |t| == 0 || RatingOrZero(t[0]) <= RatingOrZero(x) then [x] + t
    else
      assert t == [t[0]] + t[1..];
      [t[0]] + InsertByRating(x, t[1..])
  }

  /** Inserting into a sorted list keeps it sorted. */
  lemma {:induction false} InsertByRatingSorted(x: PlaceResult, t: seq<PlaceResult>)
    requires SortedByRatingDesc(t)
    ensures SortedByRatingDesc(InsertByRating(x, t))
    ensures InsertByRating(x, t)[0] == x || (|t| > 0 && InsertByRating(x, t)[0] == t[0])
    decreases |t|
  {
    if |t| > 0 && RatingOrZero(t[0]) > RatingOrZero(x) {
      var rest := InsertByRating(x, t[1..]);
      InsertByRatingSorted(x, t[1..]);
      var r := [t[0]] + rest;
      assert RatingOrZero(t[0]) >= RatingOrZero(rest[0]);
      forall i, j | 0 <= i < j < |r|
        ensures RatingOrZero(r[i]) >= RatingOrZero(r[j])
      {
        if i > 0 {
          assert r[i] == rest[i - 1] && r[j] == rest[j - 1];
        } else if j > 1 {
          assert r[j] == rest[j - 1];
          assert RatingOrZero(rest[0]) >= RatingOrZero(rest[j - 1]);
        }
      }
    }
  }

  /** `.sort((a, b) => (b.rating || 0) - (a.rating || 0))`: best rated
      first. `Array.prototype.sort` is stable, and so is this. */
  function SortByRatingDesc(s: seq<PlaceResult>): (r: seq<PlaceResult>)
    ensures SortedByRatingDesc(r)
    ensures multiset(r) == multiset(s)
    ensures |r| == |s|
    decreases |s|
  {
    if |s| == 0 then []
    else
      assert s == [s[0]] + s[1..];
      var rest := SortByRatingDesc(s[1..]);
      InsertByRatingSorted(s[0], rest);
      InsertByRating(s[0], rest)
  }

  /** The places of `s` whose rating key is `k`, in order. */
  function WithRating(s: seq<PlaceResult>, k: nat): seq<PlaceResult> {
    Sequences.Filter(s, (p: PlaceResult) => RatingOrZero(p) == k)
  }

  lemma {:induction false} InsertByRatingStable(x: PlaceResult, t: seq<PlaceResult>, k: nat)
    requires SortedByRatingDesc(t)
    ensures WithRating(InsertByRating(x, t), k)
      == if RatingOrZero(x) == k then [x] + WithRating(t, k) else WithRating(t, k)
    decreases |t|
  {
    if |t| == 0 || RatingOrZero(t[0]) <= RatingOrZero(x) {
      assert ([x] + t)[0] == x && ([x] + t)[1..] == t;
    } else {
      InsertByRatingStable(x, t[1..], k);
      var r := [t[0]] + InsertByRating(x, t[1..]);
      assert r[0] == t[0] && r[1..] == InsertByRating(x, t[1..]);
    }
  }

  /** Places with the same rating keep their relative order. */
  lemma {:induction false} SortByRatingDescStable(s: seq<PlaceResult>, k: nat)
    ensures WithRating(SortByRatingDesc(s), k) == WithRating(s, k)
    decreases |s|
  {
    if |s| > 0 {
      SortByRatingDescStable(s[1..], k);
      InsertByRatingStable(s[0], SortByRatingDesc(s[1..]), k);
    }
  }

  /** The `limit` best rated places of `s`, best first. */
  function TopRated(s: seq<PlaceResult>, limit: nat): seq<PlaceResult> {
    Sequences.Take(SortByRatingDesc(s), limit)
  }

  /** The best rated places are sorted, come from `s`, and hold all of
      `s` when it is no longer than the limit. */
  lemma TopRatedSpec(s: seq<PlaceResult>, limit: nat)
    ensures SortedByRatingDesc(TopRated(s, limit))
    ensures |TopRated(s, limit)| == Sequences.Min(limit, |s|)
    ensures multiset(TopRated(s, limit)) <= multiset(s)
    ensures |s| <= limit ==> TopRated(s, limit) == SortByRatingDesc(s)
  {
    var t := SortByRatingDesc(s);
    var m := Sequences.Min(limit, |s|);
    assert t == t[..m] + t[m..];
    assert multiset(t) == multiset(t[..m]) + multiset(t[m..]);
  }

  /** Every place the limit leaves out is rated no higher than every
      place kept. */
  lemma TopRatedLeavesOutNoBetter(s: seq<PlaceResult>, limit: nat, x: PlaceResult, y: PlaceResult)
    requires x in TopRated(s, limit)
    requires multiset(TopRated(s, limit))[y] < multiset(s)[y]
    ensures RatingOrZero(y) <= RatingOrZero(x)
  {
    var t := SortByRatingDesc(s);
    SortedPrefixDominates(t, Sequences.Min(limit, |s|), x, y);
  }

  lemma SortedPrefixDominates(t: seq<PlaceResult>, m: nat, x: PlaceResult, y: PlaceResult)
    requires SortedByRatingDesc(t) && m <= |t|
    requires x in t[..m] && multiset(t[..m])[y] < multiset(t)[y]
    ensures RatingOrZero(y) <= RatingOrZero(x)
  {
    var kept, dropped := t[..m], t[m..];
    assert t == kept + dropped;
    assert multiset(t) == multiset(kept) + multiset(dropped);
    assert y in dropped;
    var j :| 0 <= j < |dropped| && dropped[j] == y;
    var i :| 0 <= i < |kept| && kept[i] == x;
    assert t[i] == x && t[m + j] == y;
  }

  /** The filter returns part of its input. */
  lemma KeepRatedAtLeastWithin(s: seq<PlaceResult>, threshold: nat)
    ensures multiset(KeepRatedAtLeast(s, threshold)) <= multiset(s)
  {
    forall x {
      KeepRatedAtLeastSpec(s, threshold, x);
    }
  }

  /** Whatever is drawn from the filter's output passes the filter. */
  lemma DrawnFromKeptIsRated(s: seq<PlaceResult>, threshold: nat, t: seq<PlaceResult>)
    requires multiset(t) <= multiset(KeepRatedAtLeast(s, threshold))
    ensures forall i :: 0 <= i < |t| ==> RatedAtLeast(t[i], threshold)
  {
    forall i | 0 <= i < |t|
      ensures RatedAtLeast(t[i], threshold)
    {
      assert t[i] in multiset(t);
      KeepRatedAtLeastSpec(s, threshold, t[i]);
    }
  }

  /** `.filter(rated at least threshold).sort(best first).slice(0, limit)`,
      the food pipeline of both files. */
  function BestRated(s: seq<PlaceResult>, threshold: nat, limit: nat): (r: seq<PlaceResult>)
    ensures |r| == Sequences.Min(limit, |KeepRatedAtLeast(s, threshold)|)
    ensures SortedByRatingDesc(r)
    ensures forall i :: 0 <= i < |r| ==> RatedAtLeast(r[i], threshold)
    ensures multiset(r) <= multiset(s)
  {
    var kept := KeepRatedAtLeast(s, threshold);
    TopRatedSpec(kept, limit);
    KeepRatedAtLeastWithin(s, threshold);
    DrawnFromKeptIsRated(s, threshold, TopRated(kept, limit));
    TopRated(kept, limit)
  }

  /** Every well-rated place that `BestRated` leaves out is rated no
      higher than each place it keeps, and when no more than `limit`
      places pass the filter it keeps them all. */
  lemma BestRatedIsBest(s: seq<PlaceResult>, threshold: nat, limit: nat, x: PlaceResult, y: PlaceResult)
    ensures x in BestRated(s, threshold, limit) && RatedAtLeast(y, threshold)
      && multiset(BestRated(s, threshold, limit))[y] < multiset(s)[y]
      ==> RatingOrZero(y) <= RatingOrZero(x)
    ensures |KeepRatedAtLeast(s, threshold)| <= limit
      ==> multiset(BestRated(s, threshold, limit)) == multiset(KeepRatedAtLeast(s, threshold))
  {
    var kept := KeepRatedAtLeast(s, threshold);
    KeepRatedAtLeastSpec(s, threshold, y);
    TopRatedSpec(kept, limit);
    if x in BestRated(s, threshold, limit) && RatedAtLeast(y, threshold)
      && multiset(BestRated(s, threshold, limit))[y] < multiset(s)[y] {
      TopRatedLeavesOutNoBetter(kept, limit, x, y);
    }
  }

  /** Cutting the best `first` down to `second` gives the best `second`. */
  lemma BestRatedTakeTwice(s: seq<PlaceResult>, threshold: nat, first: nat, second: nat)
    requires second <= first
    ensures Sequences.Take(BestRated(s, threshold, first), second) == BestRated(s, threshold, second)
  {
  }
}
