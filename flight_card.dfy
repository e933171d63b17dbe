/** The flight card of components/FlightCard.tsx: the status badge
    colour, the parameters handed to the booking sites and the search
    URL each of the five sites is opened with. */
module FlightCard {
  import opened Wrappers
  import opened Text
  import AviationStack

  // ---------------------------------------------------------------------
  // Booking sites

  datatype BookingSite = Kiwi | Skyscanner | GoogleFlights | Kayak | Momondo

  datatype BookingParams = BookingParams(
    departureCode: string,
    arrivalCode: string,
    departureDate: string,
    flightNumber: string,
    airlineName: string)

  /** One entry of the booking sheet; `site` selects its URL builder. */
  datatype BookingOption = BookingOption(name: string, icon: string, color: string, site: BookingSite)

  /** `BOOKING_OPTIONS`, in the order the sheet lists them. */
  const BookingOptions: seq<BookingOption> := [
    BookingOption("Kiwi.com", "\U{1F95D}", "#00A991", Kiwi),
    BookingOption("Skyscanner", "\U{1F50D}", "#0770E3", Skyscanner),
    BookingOption("Google Flights", "\U{2708}\U{FE0F}", "#4285F4", GoogleFlights),
    BookingOption("Kayak", "\U{1F6E9}\U{FE0F}", "#FF690F", Kayak),
    BookingOption("Momondo", "\U{1F30D}", "#FF6B00", Momondo)
  ]

  /** The sheet lists five sites under five different names, each site
      once. */
  lemma BookingOptionsDistinct()
    ensures |BookingOptions| == 5
    ensures forall i, j :: 0 <= i < j < |BookingOptions| ==>
      BookingOptions[i].name != BookingOptions[j].name && BookingOptions[i].site != BookingOptions[j].site
  {
    assert BookingOptions[0].name[0] == 'K' && BookingOptions[1].name[0] == 'S';
    assert BookingOptions[2].name[0] == 'G' && BookingOptions[3].name[0] == 'K';
    assert BookingOptions[4].name[0] == 'M';
    assert |BookingOptions[0].name| == 8 && |BookingOptions[3].name| == 5;
  }

  /** `s.replace(/c/g, with)`: every `c` replaced by `with`. */
  function ReplaceAll(s: string, c: char, with: string): (r: string)
    ensures c !in with ==> c !in r
    decreases |s|
  {
    if |s| == 0 then ""
    else (if s[0] == c then with else [s[0]]) + ReplaceAll(s[1..], c, with)
  }

  lemma {:induction false} ReplaceAllAppend(a: string, b: string, c: char, with: string)
    ensures ReplaceAll(a + b, c, with) == ReplaceAll(a, c, with) + ReplaceAll(b, c, with)
    decreases |a|
  {
    if |a| > 0 {
      assert (a + b)[1..] == a[1..] + b;
      ReplaceAllAppend(a[1..], b, c, with);
    } else {
      assert a + b == b;
    }
  }

  /** A string without `c` is left alone. */
  lemma {:induction false} ReplaceAllAbsent(s: string, c: char, with: string)
    requires c !in s
    ensures ReplaceAll(s, c, with) == s
    decreases |s|
  {
    if |s| > 0 {
      ReplaceAllAbsent(s[1..], c, with);
      assert [s[0]] + s[1..] == s;
    }
  }

  /** Kiwi's `replace(/-/g, '-')` changes nothing. */
  lemma {:induction false} ReplaceDashByDash(s: string)
    ensures ReplaceAll(s, '-', "-") == s
    decreases |s|
  {
    if |s| > 0 {
      ReplaceDashByDash(s[1..]);
      assert [s[0]] + s[1..] == s;
    }
  }

  /** A calendar date as `toISOString` writes it: `YYYY-MM-DD`. */
  predicate IsIsoDate(d: string) {
    && |d| == 10
    && d[4] == '-' && d[7] == '-'
    && forall i :: 0 <= i < 10 && i != 4 && i != 7 ==> IsDigit(d[i])
  }

  /** The date Skyscanner's URL carries: dashes removed, century dropped. */
  function SkyscannerDate(departureDate: string): string {
    var compact := ReplaceAll(departureDate, '-', "");
    if |compact| <= 2 then "" else compact[2..]
  }

  /** A date written `YEAR-MONTH-DAY` with a four-character year is sent
      as the last two characters of the year, the month and the day. */
  lemma SkyscannerDateOfParts(year: string, month: string, day: string)
    requires |year| == 4 && '-' !in year && '-' !in month && '-' !in day
    ensures SkyscannerDate(year + "-" + month + "-" + day) == year[2..] + month + day
  {
    var a := year + "-";
    assert ReplaceAll(a, '-', "") == year by {
      ReplaceAllAppend(year, "-", '-', "");
      ReplaceAllAbsent(year, '-', "");
      assert ReplaceAll("-", '-', "") == "";
    }
    var b := a + month;
    assert ReplaceAll(b, '-', "") == year + month by {
      ReplaceAllAppend(a, month, '-', "");
      ReplaceAllAbsent(month, '-', "");
    }
    var c := b + "-";
    assert ReplaceAll(c, '-', "") == year + month by {
      ReplaceAllAppend(b, "-", '-', "");
      assert ReplaceAll("-", '-', "") == "";
    }
    var e := c + day;
    assert ReplaceAll(e, '-', "") == year + month + day by {
      ReplaceAllAppend(c, day, '-', "");
      ReplaceAllAbsent(day, '-', "");
    }
    assert e == year + "-" + month + "-" + day;
    assert (year + month + day)[2..] == year[2..] + month + day;
  }

  /** For a `YYYY-MM-DD` date that is `YYMMDD`. */
  lemma SkyscannerDateOfIsoDate(d: string)
    requires IsIsoDate(d)
    ensures SkyscannerDate(d) == d[2..4] + d[5..7] + d[8..10]
  {
    var year, month, day := d[..4], d[5..7], d[8..];
    assert '-' !in year && '-' !in month && '-' !in day by {
      forall i | 0 <= i < 10 && i != 4 && i != 7
        ensures d[i] != '-'
      {
        assert IsDigit(d[i]);
      }
    }
    assert d == year + "-" + month + "-" + day;
    SkyscannerDateOfParts(year, month, day);
  }

  const KiwiBase :=
    "https://www.kiwi.com/en/"
    + "search/results/"
  const SkyscannerBase :=
    "https://www.skyscanner."
    + "com/transport/flights/"
  const GoogleFlightsBase :=
    "https://www.google.com/"
    + "travel/flights?q="
  const KayakBase :=
    "https://www.kayak.com/"
    + "flights/"
  const MomondoBase :=
    "https://www.momondo.com/"
    + "flight-search/"

  function SiteBase(site: BookingSite): string {
    match site
    case Kiwi => KiwiBase
    case Skyscanner => SkyscannerBase
    case GoogleFlights => GoogleFlightsBase
    case Kayak => KayakBase
    case Momondo => MomondoBase
  }

  /** The words of the Google Flights query, which the URL joins with
      escaped spaces. */
  function GoogleQueryWords(p: BookingParams): seq<string> {
    ["flights", "from", p.departureCode, "to", p.arrivalCode, "on", p.departureDate]
  }

  /** What each site's `getUrl` puts after the site's base URL. */
  function BookingPath(site: BookingSite, p: BookingParams): string {
    match site
    case Kiwi =>
      p.departureCode + "/" + p.arrivalCode + "/" + ReplaceAll(p.departureDate, '-', "-")
    case Skyscanner =>
      Lower(p.departureCode) + "/" + Lower(p.arrivalCode) + "/" + SkyscannerDate(p.departureDate) + "/"
    case GoogleFlights =>
      Join(GoogleQueryWords(p), "%20")
    case Kayak =>
      p.departureCode + "-" + p.arrivalCode + "/" + p.departureDate
    case Momondo =>
      p.departureCode + "-" + p.arrivalCode + "/" + p.departureDate
  }

  /** The `getUrl` of each booking option: the site's base URL, after
      which the two codes and the date read back (when they hold none of
      the separators). */
  function BookingUrl(site: BookingSite, p: BookingParams): (r: string)
    ensures SiteBase(site) <= r
    ensures site == Kiwi && FieldsFree(p, '/') ==>
      Split(r[|KiwiBase|..], '/') == [p.departureCode, p.arrivalCode, p.departureDate]
    ensures site == Skyscanner && FieldsFree(p, '/') && IsIsoDate(p.departureDate) ==>
      Split(r[|SkyscannerBase|..], '/')
        == [Lower(p.departureCode), Lower(p.arrivalCode), p.departureDate[2..4] + p.departureDate[5..7] + p.departureDate[8..10], ""]
    ensures site == GoogleFlights && FieldsFree(p, '%') ==>
      DecodeSpaces(r[|GoogleFlightsBase|..]) == Join(GoogleQueryWords(p), " ")
    ensures (site == Kayak || site == Momondo) && FieldsFree(p, '/') && '-' !in p.departureCode && '-' !in p.arrivalCode ==>
      && Split(r[|SiteBase(site)|..], '/') == [p.departureCode + "-" + p.arrivalCode, p.departureDate]
      && Split(p.departureCode + "-" + p.arrivalCode, '-') == [p.departureCode, p.arrivalCode]
  {
    var r := SiteBase(site) + BookingPath(site, p);
    assert r[|SiteBase(site)|..] == BookingPath(site, p);
    if site == Kiwi && FieldsFree(p, '/') then
      KiwiUrlRoundTrip(p); r
    else if site == Skyscanner && FieldsFree(p, '/') && IsIsoDate(p.departureDate) then
      SkyscannerUrlFields(p); r
    else if site == GoogleFlights && FieldsFree(p, '%') then
      GoogleFlightsQuery(p); r
    else if (site == Kayak || site == Momondo) && FieldsFree(p, '/') && '-' !in p.departureCode && '-' !in p.arrivalCode then
      KayakMomondoUrlRoundTrip(site, p); r
    else r
  }

  /** Neither code nor the date holds `c`. */
  predicate FieldsFree(p: BookingParams, c: char) {
    c !in p.departureCode && c !in p.arrivalCode && c !in p.departureDate
  }

  /** The path Kiwi is sent to splits back into the two codes and the
      date. */
  lemma KiwiUrlRoundTrip(p: BookingParams)
    requires FieldsFree(p, '/')
    ensures Split(BookingPath(Kiwi, p), '/') == [p.departureCode, p.arrivalCode, p.departureDate]
  {
    ReplaceDashByDash(p.departureDate);
    var parts := [p.departureCode, p.arrivalCode, p.departureDate];
    assert parts[1..] == [p.arrivalCode, p.departureDate] && parts[1..][1..] == [p.departureDate];
    assert Join(parts[1..][1..], "/") == p.departureDate;
    assert Join(parts[1..], "/") == p.arrivalCode + "/" + p.departureDate;
    assert Join(parts, "/") == p.departureCode + "/" + p.arrivalCode + "/" + p.departureDate;
    assert BookingPath(Kiwi, p) == Join(parts, "/");
    SplitJoin(parts, '/');
  }

  /** The path Kayak and Momondo are sent to splits back into the route
      and the date, and the route into the two codes. */
  lemma KayakMomondoUrlRoundTrip(site: BookingSite, p: BookingParams)
    requires site == Kayak || site == Momondo
    requires FieldsFree(p, '/') && '-' !in p.departureCode && '-' !in p.arrivalCode
    ensures var path := Split(BookingPath(site, p), '/');
      && path == [p.departureCode + "-" + p.arrivalCode, p.departureDate]
      && Split(path[0], '-') == [p.departureCode, p.arrivalCode]
  {
    var route := p.departureCode + "-" + p.arrivalCode;
    assert Join([p.departureCode, p.arrivalCode], "-") == route;
    SplitJoin([p.departureCode, p.arrivalCode], '-');
    assert '/' !in route by {
      assert route == p.departureCode + "-" + p.arrivalCode;
    }
    assert Join([route, p.departureDate], "/") == route + "/" + p.departureDate;
    assert BookingPath(site, p) == route + "/" + p.departureDate;
    SplitJoin([route, p.departureDate], '/');
  }

  /** Skyscanner is sent the lower-cased codes and, for a `YYYY-MM-DD`
      date, `YYMMDD`. */
  lemma SkyscannerUrlFields(p: BookingParams)
    requires FieldsFree(p, '/') && IsIsoDate(p.departureDate)
    ensures Split(BookingPath(Skyscanner, p), '/')
      == [Lower(p.departureCode), Lower(p.arrivalCode), p.departureDate[2..4] + p.departureDate[5..7] + p.departureDate[8..10], ""]
  {
    SkyscannerDateOfIsoDate(p.departureDate);
    var date := SkyscannerDate(p.departureDate);
    var parts := [Lower(p.departureCode), Lower(p.arrivalCode), date, ""];
    LowerKeepsAbsent(p.departureCode, '/');
    LowerKeepsAbsent(p.arrivalCode, '/');
    assert parts[1..] == [Lower(p.arrivalCode), date, ""] && parts[1..][1..] == [date, ""];
    assert parts[1..][1..][1..] == [""];
    assert Join(parts[1..][1..][1..], "/") == "";
    assert Join(parts[1..][1..], "/") == date + "/" + "";
    assert Join(parts[1..], "/") == Lower(p.arrivalCode) + "/" + date + "/" + "";
    assert Join(parts, "/") == Lower(p.departureCode) + "/" + Lower(p.arrivalCode) + "/" + date + "/";
    assert BookingPath(Skyscanner, p) == Join(parts, "/");
    SplitJoin(parts, '/');
  }

  /** Undoing the `%20` escapes of a URL query. */
  function DecodeSpaces(s: string): string
    decreases |s|
  {
    if |s| == 0 then ""
    else if |s| >= 3 && s[..3] == "%20" then " " + DecodeSpaces(s[3..])
    else [s[0]] + DecodeSpaces(s[1..])
  }

  lemma {:induction false} DecodeSpacesPlain(a: string, b: string)
    requires '%' !in a
    ensures DecodeSpaces(a + b) == a + DecodeSpaces(b)
    decreases |a|
  {
    if |a| > 0 {
      assert (a + b)[0] == a[0] && (a + b)[1..] == a[1..] + b;
      DecodeSpacesPlain(a[1..], b);
    } else {
      assert a + b == b;
    }
  }

  /** A word without `%` followed by an escaped space. */
  lemma DecodeSpacesWord(w: string, rest: string)
    requires '%' !in w
    ensures DecodeSpaces(w + "%20" + rest) == w + " " + DecodeSpaces(rest)
  {
    assert w + "%20" + rest == w + ("%20" + rest);
    DecodeSpacesPlain(w, "%20" + rest);
    assert ("%20" + rest)[..3] == "%20" && ("%20" + rest)[3..] == rest;
  }

  /** Words without `%` joined by escaped spaces decode to the words
      joined by spaces. */
  lemma {:induction false} DecodeSpacesJoin(words: seq<string>)
    requires forall i :: 0 <= i < |words| ==> '%' !in words[i]
    ensures DecodeSpaces(Join(words, "%20")) == Join(words, " ")
    decreases |words|
  {
    if |words| == 1 {
      DecodeSpacesPlain(words[0], "");
      assert words[0] + "" == words[0];
    } else if |words| > 1 {
      DecodeSpacesJoin(words[1..]);
      DecodeSpacesWord(words[0], Join(words[1..], "%20"));
    }
  }

  /** Google Flights is sent the query "flights from DEP to ARR on DATE". */
  lemma GoogleFlightsQuery(p: BookingParams)
    requires FieldsFree(p, '%')
    ensures DecodeSpaces(BookingPath(GoogleFlights, p)) == Join(GoogleQueryWords(p), " ")
  {
    DecodeSpacesJoin(GoogleQueryWords(p));
  }

  /** `getBookingParams`. Missing values were already replaced by "" when
      the flight was normalised, so `x || ''` keeps each field. The date is
      the date part of the scheduled departure's `toISOString()`, or of the
      current instant's (`nowIso`) when none is scheduled; `toIso` stands
      for `new Date(s).toISOString()`, `None` where that throws for an
      invalid date, in which case no parameters are produced. */
  function GetBookingParams(f: AviationStack.Flight, toIso: string -> Option<string>, nowIso: string): (r: Option<BookingParams>)
    ensures r.None? <==> f.departure.scheduled != "" && toIso(f.departure.scheduled).None?
    ensures r.Some? ==> (r.value.departureCode == f.departure.iata && r.value.arrivalCode == f.arrival.iata
      && r.value.flightNumber == f.flight.iata && r.value.airlineName == f.airline.name)
    ensures r.Some? && f.departure.scheduled == "" ==> r.value.departureDate == Split(nowIso, 'T')[0]
  {
    var date :=
      if f.departure.scheduled != "" then toIso(f.departure.scheduled)
      else Some(nowIso);
    match date
    case None => None
    case Some(iso) =>
      Some(BookingParams(
        OrElse(Some(f.departure.iata), ""),
        OrElse(Some(f.arrival.iata), ""),
        Split(iso, 'T')[0],
        OrElse(Some(f.flight.iata), ""),
        OrElse(Some(f.airline.name), "")))
  }

  /** For an ISO timestamp `DATE` + "T" + `TIME` the booking date is
      `DATE`. */
  lemma GetBookingParamsDate(f: AviationStack.Flight, toIso: string -> Option<string>, nowIso: string, date: string, time: string)
    requires 'T' !in date
    requires if f.departure.scheduled != "" then toIso(f.departure.scheduled) == Some(date + "T" + time)
             else nowIso == date + "T" + time
    ensures GetBookingParams(f, toIso, nowIso).Some?
    ensures GetBookingParams(f, toIso, nowIso).value.departureDate == date
  {
    SplitAfterPiece(date, 'T', time);
    assert date + "T" + time == date + ['T'] + time;
  }

  // ---------------------------------------------------------------------
  // Status badge

  const DefaultStatusColor := "#94A3B8"

  /** `getStatusColor(status)`: the badge colour of a status, compared in
      lower case; a missing or unknown status is grey. */
  function StatusColor(status: Option<string>): (r: string)
    ensures r in {"#00D4FF", "#4ADE80", "#A78BFA", "#F87171", "#FBBF24", DefaultStatusColor}
    ensures status.None? ==> r == DefaultStatusColor
  {
    match status
    case None => DefaultStatusColor
    case Some(s) =>
      var key := Lower(s);
      if key == "scheduled" then "#00D4FF"
      else if key == "active" then "#4ADE80"
      else if key == "landed" then "#A78BFA"
      else if key == "cancelled" then "#F87171"
      else if key == "delayed" then "#FBBF24"
      else DefaultStatusColor
  }

  /** The statuses the badge knows, in lower case. */
  const KnownStatuses: seq<string> := ["scheduled", "active", "landed", "cancelled", "delayed"]

  /** The colour ignores letter case. */
  lemma StatusColorIgnoresCase(s: string)
    ensures StatusColor(Some(Upper(s))) == StatusColor(Some(s))
  {
    LowerOfUpper(s);
  }

  /** The colours of the known statuses, in the same order. */
  const KnownStatusColors: seq<string> := ["#00D4FF", "#4ADE80", "#A78BFA", "#F87171", "#FBBF24"]

  /** A known status, in lower case, gets its colour. */
  lemma KnownStatusColor(i: nat)
    requires i < |KnownStatuses|
    ensures StatusColor(Some(KnownStatuses[i])) == KnownStatusColors[i]
  {
    var k := KnownStatuses[i];
    assert Lower(k) == k by {
      forall n | 0 <= n < |k|
        ensures LowerChar(k[n]) == k[n]
      {
        assert 'a' <= k[n] <= 'z';
      }
    }
  }

  /** The five known statuses get five different colours, none of them
      the default grey; every other status gets the grey. */
  lemma StatusColorsDistinct(s: string)
    ensures forall i, j :: 0 <= i < j < |KnownStatuses| ==>
      StatusColor(Some(KnownStatuses[i])) != StatusColor(Some(KnownStatuses[j]))
    ensures forall i :: 0 <= i < |KnownStatuses| ==> StatusColor(Some(KnownStatuses[i])) != DefaultStatusColor
    ensures Lower(s) !in KnownStatuses <==> StatusColor(Some(s)) == DefaultStatusColor
  {
    forall i | 0 <= i < |KnownStatuses|
      ensures StatusColor(Some(KnownStatuses[i])) == KnownStatusColors[i]
    {
      KnownStatusColor(i);
    }
    KnownStatusColorsDistinct();
    UnknownStatusIsGrey(s);
  }

  lemma KnownStatusColorsDistinct()
    ensures forall i, j :: 0 <= i < j < |KnownStatusColors| ==> KnownStatusColors[i] != KnownStatusColors[j]
    ensures forall i :: 0 <= i < |KnownStatusColors| ==> KnownStatusColors[i] != DefaultStatusColor
  {
    forall i | 0 <= i < |KnownStatusColors|
      ensures KnownStatusColors[i] != DefaultStatusColor
    {
      assert KnownStatusColors[i][1] != DefaultStatusColor[1];
    }
    forall i, j | 0 <= i < j < |KnownStatusColors|
      ensures KnownStatusColors[i] != KnownStatusColors[j]
    {
      assert KnownStatusColors[i][2] != KnownStatusColors[j][2];
    }
  }

  lemma UnknownStatusIsGrey(s: string)
    ensures Lower(s) !in KnownStatuses <==> StatusColor(Some(s)) == DefaultStatusColor
  {
    var key := Lower(s);
    assert key in KnownStatuses <==>
      key == "scheduled" || key == "active" || key == "landed" || key == "cancelled" || key == "delayed";
  }
}
