/** The airport table the flight search and the map share, and the
    three lookups over it (constants/airports.ts). */
module Airports {
  import opened Wrappers
  import opened Text
  import Sequences

  /** One airport. Latitude and longitude are kept in units of 1e-4
      degrees, the precision the table is written with. */
  datatype Airport = Airport(
    iata: string,
    name: string,
    city: string,
    country: string,
    countryCode: string,
    latitudeE4: int,
    longitudeE4: int,
    operational: bool,
    closureReason: Option<string>)

  // The closure notes of `CLOSED_AIRPORTS_INFO` (the long texts are
  // written in pieces).

  /** The sentence every closure note carries. */
  const WarClosure :=
    "Closed since February 2022 "
    + "due to the ongoing war in "
    + "Ukraine."

  const KbpClosure :=
    WarClosure
    + " Ukrainian airspace "
    + "remains closed to civilian "
    + "traffic."

  const IevClosure := "Kyiv Zhuliany - " + WarClosure

  const OdsClosure := "Odesa International - " + WarClosure

  const HrkClosure := "Kharkiv International - " + WarClosure

  const DnkClosure := "Dnipro International - " + WarClosure

  const LwoClosure := "Lviv Danylo Halytskyi - " + WarClosure

  /** The closure reason the table's closed rows carry. */
  const RowClosureReason := "Closed since February 2022 " + "due to the ongoing war"

  /** `CLOSED_AIRPORTS_INFO`, entries in the order they are written. */
  const ClosedAirportsInfo: seq<(string, string)> := [
    ("KBP", KbpClosure),
    ("IEV", IevClosure),
    ("ODS", OdsClosure),
    ("HRK", HrkClosure),
    ("DNK", DnkClosure),
    ("LWO", LwoClosure)
  ]


  /** `code` is a key of `CLOSED_AIRPORTS_INFO`. */
  predicate IsClosedCode(code: string) {
    exists k | 0 <= k < |ClosedAirportsInfo| :: ClosedAirportsInfo[k].0 == code
  }

  /** `MAJOR_AIRPORTS`, in the order it is written, in four parts of
      fourteen, fourteen, fourteen and eleven rows. */
  const MajorAirports: seq<Airport> := MajorAirports0 + MajorAirports1 + MajorAirports2 + MajorAirports3

  const MajorAirports0: seq<Airport> :=
    [
      Airport("JFK", "John F. Kennedy International", "New York", "United States", "US", 406413, -737781, true, None),
      Airport("LAX", "Los Angeles International", "Los Angeles", "United States", "US", 339425, -1184081, true, None),
      Airport("ORD", "O'Hare International", "Chicago", "United States", "US", 419742, -879073, true, None),
      Airport("LHR", "Heathrow", "London", "United Kingdom", "GB", 514700, -4543, true, None),
      Airport("CDG", "Charles de Gaulle", "Paris", "France", "FR", 490097, 25479, true, None),
      Airport("FRA", "Frankfurt Airport", "Frankfurt", "Germany", "DE", 500379, 85622, true, None),
      Airport("AMS", "Schiphol", "Amsterdam", "Netherlands", "NL", 523105, 47683, true, None),
      Airport("DXB", "Dubai International", "Dubai", "UAE", "AE", 252532, 553657, true, None),
      Airport("SIN", "Changi", "Singapore", "Singapore", "SG", 13644, 1039915, true, None),
      Airport("HKG", "Hong Kong International", "Hong Kong", "China", "HK", 223080, 1139185, true, None),
      Airport("NRT", "Narita International", "Tokyo", "Japan", "JP", 357720, 1403929, true, None),
      Airport("HND", "Haneda", "Tokyo", "Japan", "JP", 355494, 1397798, true, None),
      Airport("ICN", "Incheon International", "Seoul", "South Korea", "KR", 374602, 1264407, true, None),
      Airport("PEK", "Beijing Capital", "Beijing", "China", "CN", 400799, 1166031, true, None)
    ]

  const MajorAirports1: seq<Airport> :=
    [Airport("PVG", "Pudong International", "Shanghai", "China", "CN", 311443, 1218083, true, None),
      Airport("SYD", "Sydney Airport", "Sydney", "Australia", "AU", -339399, 1511753, true, None),
      Airport("MEL", "Melbourne Airport", "Melbourne", "Australia", "AU", -376690, 1448410, true, None),
      Airport("WAW", "Warsaw Chopin", "Warsaw", "Poland", "PL", 521657, 209671, true, None),
      Airport("KBP", "Boryspil International", "Kyiv", "Ukraine", "UA", 503450, 308947, false, Some(RowClosureReason)),
      Airport("IEV", "Kyiv Zhuliany", "Kyiv", "Ukraine", "UA", 504019, 304519, false, Some(RowClosureReason)),
      Airport("LWO", "Lviv Danylo Halytskyi", "Lviv", "Ukraine", "UA", 498125, 239561, false, Some(RowClosureReason)),
      Airport("ODS", "Odesa International", "Odesa", "Ukraine", "UA", 464268, 306765, false, Some(RowClosureReason)),
      Airport("IST", "Istanbul Airport", "Istanbul", "Turkey", "TR", 412753, 287519, true, None),
      Airport("DOH", "Hamad International", "Doha", "Qatar", "QA", 252731, 516081, true, None),
      Airport("GRU", "Guarulhos International", "São Paulo", "Brazil", "BR", -234356, -464731, true, None),
      Airport("EZE", "Ministro Pistarini", "Buenos Aires", "Argentina", "AR", -348222, -585358, true, None),
      Airport("MEX", "Mexico City International", "Mexico City", "Mexico", "MX", 194363, -990721, true, None),
      Airport("YYZ", "Toronto Pearson", "Toronto", "Canada", "CA", 436777, -796248, true, None)
    ]

  const MajorAirports2: seq<Airport> :=
    [Airport("YVR", "Vancouver International", "Vancouver", "Canada", "CA", 491967, -1231815, true, None),
      Airport("MUC", "Munich Airport", "Munich", "Germany", "DE", 483537, 117750, true, None),
      Airport("FCO", "Leonardo da Vinci–Fiumicino", "Rome", "Italy", "IT", 418003, 122389, true, None),
      Airport("MAD", "Adolfo Suárez Madrid–Barajas", "Madrid", "Spain", "ES", 404983, -35676, true, None),
      Airport("BCN", "Barcelona–El Prat", "Barcelona", "Spain", "ES", 412974, 20833, true, None),
      Airport("ZRH", "Zurich Airport", "Zurich", "Switzerland", "CH", 474647, 85492, true, None),
      Airport("VIE", "Vienna International", "Vienna", "Austria", "AT", 481103, 165697, true, None),
      Airport("CPH", "Copenhagen Airport", "Copenhagen", "Denmark", "DK", 556180, 126508, true, None),
      Airport("ARN", "Stockholm Arlanda", "Stockholm", "Sweden", "SE", 596519, 179186, true, None),
      Airport("OSL", "Oslo Gardermoen", "Oslo", "Norway", "NO", 601939, 111004, true, None),
      Airport("HEL", "Helsinki-Vantaa", "Helsinki", "Finland", "FI", 603172, 249633, true, None),
      Airport("DUB", "Dublin Airport", "Dublin", "Ireland", "IE", 534264, -62499, true, None),
      Airport("BRU", "Brussels Airport", "Brussels", "Belgium", "BE", 509014, 44844, true, None),
      Airport("LIS", "Lisbon Airport", "Lisbon", "Portugal", "PT", 387756, -91354, true, None)
    ]

  const MajorAirports3: seq<Airport> :=
    [Airport("ATH", "Athens International", "Athens", "Greece", "GR", 379364, 239445, true, None),
      Airport("PRG", "Václav Havel Airport", "Prague", "Czech Republic", "CZ", 501008, 142600, true, None),
      Airport("BUD", "Budapest Ferenc Liszt", "Budapest", "Hungary", "HU", 474298, 192611, true, None),
      Airport("DEL", "Indira Gandhi International", "New Delhi", "India", "IN", 285562, 771000, true, None),
      Airport("BOM", "Chhatrapati Shivaji Maharaj", "Mumbai", "India", "IN", 190896, 728656, true, None),
      Airport("BKK", "Suvarnabhumi", "Bangkok", "Thailand", "TH", 136900, 1007501, true, None),
      Airport("KUL", "Kuala Lumpur International", "Kuala Lumpur", "Malaysia", "MY", 27456, 1017099, true, None),
      Airport("CGK", "Soekarno-Hatta", "Jakarta", "Indonesia", "ID", -61256, 1066559, true, None),
      Airport("MNL", "Ninoy Aquino International", "Manila", "Philippines", "PH", 145086, 1210194, true, None),
      Airport("JNB", "O.R. Tambo International", "Johannesburg", "South Africa", "ZA", -261392, 282460, true, None),
      Airport("CAI", "Cairo International", "Cairo", "Egypt", "EG", 301219, 314056, true, None)
    ]

  /** The comparison `findAirportByIata` makes: equal once upper-cased. */
  predicate SameCode(a: string, b: string) {
    Upper(a) == Upper(b)
  }

  /** The position of the first airport in `s` whose code matches `iata`. */
  function FirstWithCode(s: seq<Airport>, iata: string): (r: Option<nat>)
    ensures r.Some? ==> r.value < |s| && SameCode(s[r.value].iata, iata)
    ensures r.Some? ==> forall j :: 0 <= j < r.value ==> !SameCode(s[j].iata, iata)
    ensures r.None? <==> forall j :: 0 <= j < |s| ==> !SameCode(s[j].iata, iata)
    decreases |s|
  {
    if |s| == 0 then None
    else if SameCode(s[0].iata, iata) then Some(0)
    else match FirstWithCode(s[1..], iata)
      case None => None
      case Some(k) => Some(k + 1)
  }

  /** `findAirportByIata`: the first airport whose code matches
      regardless of case, or nothing. */
  function FindAirportByIata(iata: string): (r: Option<Airport>)
    ensures r.Some? ==> exists k :: (0 <= k < |MajorAirports| && MajorAirports[k] == r.value
      && SameCode(r.value.iata, iata)
      && forall j :: 0 <= j < k ==> !SameCode(MajorAirports[j].iata, iata))
    ensures r.None? <==> forall j :: 0 <= j < |MajorAirports| ==> !SameCode(MajorAirports[j].iata, iata)
  {
    match FirstWithCode(MajorAirports, iata)
      case None => None
      case Some(k) => Some(MajorAirports[k])
  }

  /** `findAirportsByCity`: the airports whose city contains the query,
      both lower-cased, in table order. */
  function FindAirportsByCity(city: string): seq<Airport>
  {
    Sequences.Filter(MajorAirports, (a: Airport) => Contains(Lower(a.city), Lower(city)))
  }

  /** `findAirportsByCountry`: the airports whose country contains the
      query, both lower-cased, in table order. */
  function FindAirportsByCountry(country: string): seq<Airport>
  {
    Sequences.Filter(MajorAirports, (a: Airport) => Contains(Lower(a.country), Lower(country)))
  }

  // ---- facts about the table ----

  /** The three letters of a code read as one base-256 number. */
  function CodeNumber(code: string): int
    requires |code| == 3
  {
    (code[0] as int) * 65536 + (code[1] as int) * 256 + code[2] as int
  }

  /** Which row of the table carries the code numbered `key`; -1 for none. */
  function TablePosition(key: int): int {
    if key == 4867659 then 0  // JFK
    else if key == 4997464 then 1  // LAX
    else if key == 5198404 then 2  // ORD
    else if key == 4999250 then 3  // LHR
    else if key == 4408391 then 4  // CDG
    else if key == 4608577 then 5  // FRA
    else if key == 4279635 then 6  // AMS
    else if key == 4479042 then 7  // DXB
    else if key == 5458254 then 8  // SIN
    else if key == 4737863 then 9  // HKG
    else if key == 5132884 then 10  // NRT
    else if key == 4738628 then 11  // HND
    else if key == 4801358 then 12  // ICN
    else if key == 5260619 then 13  // PEK
    else if key == 5264967 then 14  // PVG
    else if key == 5462340 then 15  // SYD
    else if key == 5064012 then 16  // MEL
    else if key == 5718359 then 17  // WAW
    else if key == 4932176 then 18  // KBP
    else if key == 4801878 then 19  // IEV
    else if key == 5003087 then 20  // LWO
    else if key == 5194835 then 21  // ODS
    else if key == 4805460 then 22  // IST
    else if key == 4476744 then 23  // DOH
    else if key == 4674133 then 24  // GRU
    else if key == 4545093 then 25  // EZE
    else if key == 5064024 then 26  // MEX
    else if key == 5855578 then 27  // YYZ
    else if key == 5854802 then 28  // YVR
    else if key == 5068099 then 29  // MUC
    else if key == 4604751 then 30  // FCO
    else if key == 5062980 then 31  // MAD
    else if key == 4342606 then 32  // BCN
    else if key == 5919304 then 33  // ZRH
    else if key == 5654853 then 34  // VIE
    else if key == 4411464 then 35  // CPH
    else if key == 4280910 then 36  // ARN
    else if key == 5198668 then 37  // OSL
    else if key == 4736332 then 38  // HEL
    else if key == 4478274 then 39  // DUB
    else if key == 4346453 then 40  // BRU
    else if key == 4999507 then 41  // LIS
    else if key == 4281416 then 42  // ATH
    else if key == 5263943 then 43  // PRG
    else if key == 4347204 then 44  // BUD
    else if key == 4474188 then 45  // DEL
    else if key == 4345677 then 46  // BOM
    else if key == 4344651 then 47  // BKK
    else if key == 4937036 then 48  // KUL
    else if key == 4409163 then 49  // CGK
    else if key == 5066316 then 50  // MNL
    else if key == 4869698 then 51  // JNB
    else if key == 4407625 then 52  // CAI
    else -1
  }

  /** What the table promises of row `i`: a three-letter upper-case code
      found at that row and no other, and a closure reason exactly when
      the airport is closed, for a code `CLOSED_AIRPORTS_INFO` knows. */
  predicate RowWellFormed(i: int)
    requires 0 <= i < |MajorAirports|
  {
    AirportWellFormed(MajorAirports[i], i)
  }

  predicate AirportWellFormed(a: Airport, i: int) {
    && |a.iata| == 3
    && IsUpperLetters(a.iata)
    && TablePosition(CodeNumber(a.iata)) == i
    && (a.operational <==> a.closureReason.None?)
    && (!a.operational ==> IsClosedCode(a.iata))
  }

  lemma ClosedCodesKnown()
    ensures IsClosedCode("KBP") && IsClosedCode("IEV") && IsClosedCode("LWO") && IsClosedCode("ODS")
  {
    assert ClosedAirportsInfo[0].0 == "KBP";
    assert ClosedAirportsInfo[1].0 == "IEV";
    assert ClosedAirportsInfo[2].0 == "ODS";
    assert ClosedAirportsInfo[5].0 == "LWO";
  }

  lemma ChunkWellFormed0a(j: int)
    requires 0 <= j < 7
    ensures AirportWellFormed(MajorAirports0[j], 0 + j)
  {
  }

  lemma ChunkWellFormed0b(j: int)
    requires 7 <= j < 14
    ensures AirportWellFormed(MajorAirports0[j], 0 + j)
  {
  }

  lemma ChunkWellFormed1a(j: int)
    requires 0 <= j < 4
    ensures AirportWellFormed(MajorAirports1[j], 14 + j)
  {
  }

  /** The closed airports of Kyiv. */
  lemma ChunkWellFormed1b(j: int)
    requires 4 <= j < 6
    ensures AirportWellFormed(MajorAirports1[j], 14 + j)
  {
    ClosedCodesKnown();
  }

  /** The closed airports of Lviv and Odesa. */
  lemma ChunkWellFormed1c(j: int)
    requires 6 <= j < 8
    ensures AirportWellFormed(MajorAirports1[j], 14 + j)
  {
    ClosedCodesKnown();
  }

  lemma ChunkWellFormed1d(j: int)
    requires 8 <= j < 14
    ensures AirportWellFormed(MajorAirports1[j], 14 + j)
  {
  }

  lemma ChunkWellFormed2a(j: int)
    requires 0 <= j < 7
    ensures AirportWellFormed(MajorAirports2[j], 28 + j)
  {
  }

  lemma ChunkWellFormed2b(j: int)
    requires 7 <= j < 14
    ensures AirportWellFormed(MajorAirports2[j], 28 + j)
  {
  }

  lemma ChunkWellFormed3a(j: int)
    requires 0 <= j < 7
    ensures AirportWellFormed(MajorAirports3[j], 42 + j)
  {
  }

  lemma ChunkWellFormed3b(j: int)
    requires 7 <= j < 11
    ensures AirportWellFormed(MajorAirports3[j], 42 + j)
  {
  }

  lemma RowsWellFormed(i: int)
    requires 0 <= i < |MajorAirports|
    ensures RowWellFormed(i)
  {
    var a0, a1, a2, a3 := MajorAirports0, MajorAirports1, MajorAirports2, MajorAirports3;
    assert MajorAirports == a0 + a1 + a2 + a3;
    if i < 14 {
      if i < 7 { ChunkWellFormed0a(i); } else { ChunkWellFormed0b(i); }
      assert MajorAirports[i] == a0[i];
    } else if i < 28 {
      if i < 18 {
        ChunkWellFormed1a(i - 14);
      } else if i < 20 {
        ChunkWellFormed1b(i - 14);
      } else if i < 22 {
        ChunkWellFormed1c(i - 14);
      } else {
        ChunkWellFormed1d(i - 14);
      }
      assert MajorAirports[i] == a1[i - 14];
    } else if i < 42 {
      if i < 35 { ChunkWellFormed2a(i - 28); } else { ChunkWellFormed2b(i - 28); }
      assert MajorAirports[i] == a2[i - 28];
    } else {
      if i < 49 { ChunkWellFormed3a(i - 42); } else { ChunkWellFormed3b(i - 42); }
      assert MajorAirports[i] == a3[i - 42];
    }
  }

  /** No two rows of the table share a code. */
  lemma IataCodesUnique(i: int, j: int)
    requires 0 <= i < |MajorAirports| && 0 <= j < |MajorAirports| && i != j
    ensures MajorAirports[i].iata != MajorAirports[j].iata
    ensures !SameCode(MajorAirports[i].iata, MajorAirports[j].iata)
  {
    RowsWellFormed(i);
    RowsWellFormed(j);
    var a, b := MajorAirports[i].iata, MajorAirports[j].iata;
    UpperOfUpperLetters(a);
    UpperOfUpperLetters(b);
  }

  /** Closed airports carry a reason and are listed in
      `CLOSED_AIRPORTS_INFO`; operational ones carry no reason. */
  lemma ClosureInvariants(i: int)
    requires 0 <= i < |MajorAirports|
    ensures MajorAirports[i].operational ==> MajorAirports[i].closureReason.None?
    ensures !MajorAirports[i].operational ==> MajorAirports[i].closureReason.Some? && IsClosedCode(MajorAirports[i].iata)
  {
    RowsWellFormed(i);
  }

  /** Looking a table code up, in any letter case, finds its own row. */
  lemma FindAirportByIataFindsRow(i: int, query: string)
    requires 0 <= i < |MajorAirports|
    requires SameCode(query, MajorAirports[i].iata)
    ensures FindAirportByIata(query) == Some(MajorAirports[i])
  {
    var r := FindAirportByIata(query);
    if r.Some? {
      var k :| 0 <= k < |MajorAirports| && MajorAirports[k] == r.value
        && SameCode(r.value.iata, query)
        && forall j :: 0 <= j < k ==> !SameCode(MajorAirports[j].iata, query);
      if k != i {
        IataCodesUnique(k, i);
      }
    }
  }

  /** A lower-case code finds the same airport as the upper-case one. */
  lemma FindAirportByIataIgnoresCase(i: int)
    requires 0 <= i < |MajorAirports|
    ensures FindAirportByIata(Lower(MajorAirports[i].iata)) == Some(MajorAirports[i])
  {
    RowsWellFormed(i);
    var code := MajorAirports[i].iata;
    UpperOfUpperLetters(code);
    UpperOfLower(code);
    FindAirportByIataFindsRow(i, Lower(code));
  }

  /** The city search returns the airports whose city matches, each as
      often as the table has it, in table order. */
  lemma FindAirportsByCityMatches(city: string, a: Airport)
    ensures multiset(FindAirportsByCity(city))[a]
      == if Contains(Lower(a.city), Lower(city)) then multiset(MajorAirports)[a] else 0
    ensures Sequences.IsSubsequence(FindAirportsByCity(city), MajorAirports)
    ensures forall b :: b in FindAirportsByCity(city) ==> Contains(Lower(b.city), Lower(city))
  {
    var keep := (x: Airport) => Contains(Lower(x.city), Lower(city));
    Sequences.FilterCounts(MajorAirports, keep, a);
    Sequences.FilterIsSubsequence(MajorAirports, keep);
    Sequences.FilterAllPass(MajorAirports, keep);
  }

  /** The country search returns the airports whose country matches,
      each as often as the table has it, in table order. */
  lemma FindAirportsByCountryMatches(country: string, a: Airport)
    ensures multiset(FindAirportsByCountry(country))[a]
      == if Contains(Lower(a.country), Lower(country)) then multiset(MajorAirports)[a] else 0
    ensures Sequences.IsSubsequence(FindAirportsByCountry(country), MajorAirports)
    ensures forall b :: b in FindAirportsByCountry(country) ==> Contains(Lower(b.country), Lower(country))
  {
    var keep := (x: Airport) => Contains(Lower(x.country), Lower(country));
    Sequences.FilterCounts(MajorAirports, keep, a);
    Sequences.FilterIsSubsequence(MajorAirports, keep);
    Sequences.FilterAllPass(MajorAirports, keep);
  }

  /** An empty query matches every airport. */
  lemma EmptyQueriesReturnTable()
    ensures FindAirportsByCity("") == MajorAirports
    ensures FindAirportsByCountry("") == MajorAirports
  {
    forall s: string {
      ContainsEmpty(s);
    }
    Sequences.FilterKeepsAll(MajorAirports, (x: Airport) => Contains(Lower(x.city), Lower("")));
    Sequences.FilterKeepsAll(MajorAirports, (x: Airport) => Contains(Lower(x.country), Lower("")));
  }
}
