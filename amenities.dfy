/** The hand-written amenities table shown on an airport's detail card,
    and its lookup with a generic fallback (constants/airportAmenities.ts). */
module Amenities {
  import opened Wrappers
  import opened Text
  import Airports

  /** A place to eat. The rating is kept in tenths of a star. */
  datatype FoodPlace = FoodPlace(
    name: string,
    kind: string,
    terminal: string,
    ratingTenths: nat,
    priceRange: string,
    hours: string)

  datatype RestroomLocation = RestroomLocation(location: string, accessible: bool, showers: bool)

  /** A traveller's review; the rating is in whole stars. */
  datatype Review = Review(author: string, rating: nat, date: string, text: string, helpful: nat)

  datatype AirportAmenities = AirportAmenities(
    food: seq<FoodPlace>,
    restrooms: seq<RestroomLocation>,
    reviews: seq<Review>)

  /** `AIRPORT_AMENITIES`, its entries in the order they are written. */
  const AmenityEntries: seq<(string, AirportAmenities)> := [
    ("JFK", AirportAmenities(
        [
          FoodPlace("Shake Shack", "Burgers", "Terminal 4", 43, "$$", "5:00 AM - 11:00 PM"),
          FoodPlace("Blue Ribbon Sushi Bar", "Japanese", "Terminal 5", 45, "$$$", "6:00 AM - 10:00 PM"),
          FoodPlace("Deep Blue Sushi", "Sushi", "Terminal 1", 42, "$$", "6:00 AM - 9:00 PM"),
          FoodPlace("Dunkin'", "Coffee & Donuts", "All Terminals", 40, "$", "4:30 AM - 11:00 PM")
        ],
        [
          RestroomLocation("Terminal 1 - Near Gate 1, after security checkpoint", true, false),
          RestroomLocation("Terminal 4 - Level 3, next to food court", true, true),
          RestroomLocation("Terminal 5 - Gates B20-B31, near Duty Free", true, false),
          RestroomLocation("Terminal 8 - Central area, opposite Gate 42", true, true)
        ],
        [
          Review("Michael T.", 4, "Dec 2025", "Terminal 5 is great for dining. Plenty of outlets and comfortable seating areas. TSA can be slow during peak hours.", 142),
          Review("Sarah K.", 3, "Nov 2025", "Navigating between terminals requires the AirTrain. Give yourself extra time for connections. Food options are decent but pricey.", 98),
          Review("James L.", 5, "Jan 2026", "Recently renovated Terminal 4 is excellent. Clean, modern, and the lounges are top-notch. Highly recommend arriving early to enjoy.", 67)
        ])),
    ("LAX", AirportAmenities(
        [
          FoodPlace("In-N-Out Burger", "Fast Food", "Terminal 2", 46, "$", "6:00 AM - 12:00 AM"),
          FoodPlace("Umami Burger", "Gourmet Burgers", "Terminal 7", 44, "$$", "6:00 AM - 10:00 PM"),
          FoodPlace("Lemonade", "California Cuisine", "Tom Bradley", 43, "$$", "5:30 AM - 11:00 PM"),
          FoodPlace("Ink.sack", "Sandwiches", "Terminal 4", 45, "$$", "6:00 AM - 9:00 PM")
        ],
        [
          RestroomLocation("Tom Bradley - Near Gate 155, next to Nike store", true, true),
          RestroomLocation("Terminal 1 - Post-security, left of food court", true, false),
          RestroomLocation("Terminal 4 - Gate 46 area, family restroom available", true, false),
          RestroomLocation("Terminal 7 - Near United Club, includes nursing room", true, true)
        ],
        [
          Review("David R.", 4, "Jan 2026", "LAX has improved a lot! The connector between terminals is a game changer. Still crowded but manageable.", 234),
          Review("Emily W.", 3, "Dec 2025", "Tom Bradley International is beautiful but gets extremely crowded. Recommend Priority Pass for lounge access.", 156),
          Review("Chris M.", 4, "Nov 2025", "Great food options especially In-N-Out. Security lines can be long - use Clear if you have it.", 89)
        ])),
    ("LHR", AirportAmenities(
        [
          FoodPlace("Gordon Ramsay Plane Food", "British", "Terminal 5", 44, "$$$", "5:00 AM - 10:00 PM"),
          FoodPlace("The Perfectionist's Café", "Café", "Terminal 2", 43, "$$", "6:00 AM - 9:00 PM"),
          FoodPlace("Wagamama", "Asian", "Terminal 3", 42, "$$", "5:30 AM - 10:00 PM"),
          FoodPlace("Pret A Manger", "Sandwiches", "All Terminals", 41, "$", "5:00 AM - 11:00 PM")
        ],
        [
          RestroomLocation("Terminal 5 - After security, near Harrods", true, true),
          RestroomLocation("Terminal 2 - Queen's Terminal, Gate B area", true, true),
          RestroomLocation("Terminal 3 - Near Gate 14, family facilities available", true, false),
          RestroomLocation("Terminal 4 - Central departures, opposite WHSmith", true, true)
        ],
        [
          Review("Emma B.", 5, "Jan 2026", "Terminal 5 is world-class. Excellent shopping, dining, and the Galleries lounges are superb. Easy connections.", 312),
          Review("Robert H.", 4, "Dec 2025", "Well organized airport. The Elizabeth Line makes getting here so much easier. Book Fast Track security!", 187),
          Review("Anna S.", 3, "Nov 2025", "Can be overwhelming due to size. Download the Heathrow app for navigation. T2-T5 transfer takes time.", 124)
        ])),
    ("CDG", AirportAmenities(
        [
          FoodPlace("Ladurée", "Patisserie", "Terminal 2E", 45, "$$$", "6:00 AM - 10:00 PM"),
          FoodPlace("Café Prunier", "French Seafood", "Terminal 2F", 43, "$$$", "7:00 AM - 9:00 PM"),
          FoodPlace("Brioche Dorée", "Bakery", "All Terminals", 40, "$", "5:00 AM - 11:00 PM"),
          FoodPlace("Paul", "French Bakery", "Terminal 1", 42, "$$", "5:30 AM - 10:00 PM")
        ],
        [
          RestroomLocation("Terminal 2E - Hall L, past Duty Free on the right", true, true),
          RestroomLocation("Terminal 2F - Gate F40 area, next to pharmacy", true, false),
          RestroomLocation("Terminal 1 - Satellite 3, near Gate 32", true, true),
          RestroomLocation("Terminal 2G - Central area, includes baby changing", true, false)
        ],
        [
          Review("Pierre L.", 3, "Jan 2026", "Large and confusing airport. Allow plenty of time for connections. The CDGVAL train between terminals is efficient.", 256),
          Review("Marie D.", 4, "Dec 2025", "Terminal 2E is beautifully designed. The Air France lounge is excellent. Duty free shopping is great.", 145),
          Review("Thomas K.", 3, "Nov 2025", "Security lines can be unpredictable. The food is surprisingly good for an airport. Wi-Fi is free but slow.", 98)
        ])),
    ("DXB", AirportAmenities(
        [
          FoodPlace("The Irish Village", "Pub & Grill", "Terminal 3", 44, "$$", "24 hours"),
          FoodPlace("Café Bateel", "Middle Eastern", "Terminal 1", 45, "$$$", "6:00 AM - 12:00 AM"),
          FoodPlace("Shake Shack", "Burgers", "Terminal 3", 43, "$$", "24 hours"),
          FoodPlace("Tim Hortons", "Coffee", "All Terminals", 41, "$", "24 hours")
        ],
        [
          RestroomLocation("Terminal 3 - Concourse A, near Gate A1 (includes prayer rooms)", true, true),
          RestroomLocation("Terminal 3 - Concourse B, opposite Business Class lounge", true, true),
          RestroomLocation("Terminal 1 - After immigration, near Duty Free entrance", true, true),
          RestroomLocation("Terminal 2 - Central hall, spa showers available nearby", true, true)
        ],
        [
          Review("Ahmed K.", 5, "Jan 2026", "One of the best airports in the world. 24/7 operations, incredible duty free, and the Emirates lounges are amazing.", 445),
          Review("Lisa M.", 5, "Dec 2025", "Terminal 3 is massive but well-designed. Free sleeping pods in some areas. Excellent for long layovers.", 312),
          Review("John P.", 4, "Nov 2025", "Great airport but can be overwhelming. Download the DXB app. Spa services and sleep pods are a nice touch.", 198)
        ])),
    ("SIN", AirportAmenities(
        [
          FoodPlace("A Noodle Story", "Singaporean", "Terminal 3", 46, "$$", "24 hours"),
          FoodPlace("Violet Oon Singapore", "Peranakan", "Terminal 4", 45, "$$$", "6:00 AM - 11:00 PM"),
          FoodPlace("Tiger Street Lab", "Craft Beer & Food", "Terminal 2", 43, "$$", "24 hours"),
          FoodPlace("Song Fa Bak Kut Teh", "Local", "Terminal 3", 47, "$$", "24 hours")
        ],
        [
          RestroomLocation("Terminal 3 - Near Butterfly Garden, premium facilities", true, true),
          RestroomLocation("Terminal 1 - Transit area, includes rain showers", true, true),
          RestroomLocation("Terminal 4 - Heritage zone, modern design", true, true),
          RestroomLocation("Jewel Changi - Level 5, next to Canopy Park", true, true)
        ],
        [
          Review("Wei L.", 5, "Jan 2026", "Best airport in the world! The Jewel is incredible. Free tours, movie theater, butterfly garden - you'll want a long layover.", 567),
          Review("Rachel T.", 5, "Dec 2025", "Changi never disappoints. Free foot massage chairs, gaming zones, and the food is authentic local cuisine.", 423),
          Review("Mark S.", 5, "Nov 2025", "Transit hotels, free showers, rooftop pool - this airport has everything. The rain vortex at Jewel is breathtaking.", 356)
        ])),
    ("WAW", AirportAmenities(
        [
          FoodPlace("Olimp", "Polish Traditional", "Terminal A", 42, "$$", "5:00 AM - 10:00 PM"),
          FoodPlace("Sphinx", "Middle Eastern", "Terminal A", 40, "$$", "6:00 AM - 9:00 PM"),
          FoodPlace("Costa Coffee", "Coffee", "All Areas", 41, "$", "4:30 AM - 11:00 PM"),
          FoodPlace("Blikle", "Polish Patisserie", "Terminal A", 44, "$$", "5:30 AM - 10:00 PM")
        ],
        [
          RestroomLocation("Terminal A - After passport control, near Gate 25", true, false),
          RestroomLocation("Non-Schengen area - Gate 35 vicinity", true, true),
          RestroomLocation("Arrivals hall - Near baggage claim 3", true, false),
          RestroomLocation("Schengen area - Between Gates 12-15", true, false)
        ],
        [
          Review("Piotr N.", 4, "Jan 2026", "Modern and efficient airport. LOT hub works smoothly. Try the Polish doughnuts at Blikle before your flight!", 87),
          Review("Katarzyna W.", 4, "Dec 2025", "Good connections to city center. Lounges are comfortable. Security is fast compared to other European hubs.", 65),
          Review("Hans B.", 3, "Nov 2025", "Decent airport, not huge. Limited shopping but adequate food options. Free Wi-Fi works well.", 43)
        ])),
    ("PRG", AirportAmenities(
        [
          FoodPlace("Pilsner Urquell Original", "Czech Pub", "Terminal 2", 44, "$$", "6:00 AM - 10:00 PM"),
          FoodPlace("Bohemia Bagel", "Café", "Terminal 1", 41, "$", "5:00 AM - 9:00 PM"),
          FoodPlace("Ambiente", "Czech & International", "Terminal 2", 43, "$$$", "7:00 AM - 10:00 PM"),
          FoodPlace("Starbucks", "Coffee", "Both Terminals", 40, "$$", "5:00 AM - 11:00 PM")
        ],
        [
          RestroomLocation("Terminal 1 - Gate C area, past Duty Free", true, false),
          RestroomLocation("Terminal 2 - Schengen departures, near Gate D5", true, true),
          RestroomLocation("Arrivals - Near car rental desks", true, false),
          RestroomLocation("Terminal 2 - Business lounge corridor", true, true)
        ],
        [
          Review("Martin H.", 4, "Jan 2026", "Compact and easy to navigate. The Pilsner Urquell bar is a must-visit. Quick connections possible.", 112),
          Review("Jana K.", 4, "Dec 2025", "Clean and modern airport. Good duty-free shops. Public transport to city center is convenient.", 78),
          Review("Oliver M.", 5, "Nov 2025", "Underrated airport! Efficient, not overcrowded, and great Czech beer selection. Love the quick security.", 56)
        ])),
    ("FRA", AirportAmenities(
        [
          FoodPlace("Paulaner", "Bavarian", "Terminal 1", 43, "$$", "6:00 AM - 11:00 PM"),
          FoodPlace("7 Continents", "International", "Terminal 2", 42, "$$$", "6:00 AM - 10:00 PM"),
          FoodPlace("Caviar House", "Seafood", "Terminal 1", 45, "$$$$", "7:00 AM - 9:00 PM"),
          FoodPlace("Hermann's", "German", "Terminal 1", 41, "$$", "5:30 AM - 10:00 PM")
        ],
        [
          RestroomLocation("Terminal 1 - Pier A, near Gate A50", true, true),
          RestroomLocation("Terminal 1 - Pier B, opposite Lufthansa lounge", true, true),
          RestroomLocation("Terminal 2 - Gate D area, premium facilities", true, true),
          RestroomLocation("Long-distance train station - Level 0", true, false)
        ],
        [
          Review("Klaus M.", 4, "Jan 2026", "Huge airport but well-organized. The Lufthansa First Class Terminal is world-class. Allow time for connections.", 234),
          Review("Sophie B.", 3, "Dec 2025", "Can be stressful during rush hour. The SkyLine train between terminals is essential. Decent shopping.", 156),
          Review("Michael K.", 4, "Nov 2025", "Great hub for European connections. Excellent train links to the city. German efficiency at its best.", 98)
        ])),
    ("AMS", AirportAmenities(
        [
          FoodPlace("Heineken Bar", "Dutch Pub", "Lounge 2", 42, "$$", "6:00 AM - 11:00 PM"),
          FoodPlace("Kebaya", "Indonesian-Dutch", "Lounge 3", 44, "$$$", "7:00 AM - 10:00 PM"),
          FoodPlace("Dutch Kitchen", "Traditional Dutch", "Lounge 1", 41, "$$", "6:00 AM - 9:00 PM"),
          FoodPlace("La Place", "Market Kitchen", "All Areas", 43, "$$", "5:00 AM - 11:00 PM")
        ],
        [
          RestroomLocation("Lounge 2 - Near Holland Boulevard, excellent facilities", true, true),
          RestroomLocation("Lounge 3 - Past E Gates, family room available", true, true),
          RestroomLocation("Arrivals - Near Meeting Point, showers in hotel annex", true, true),
          RestroomLocation("D Gates - Near Rijksmuseum branch", true, false)
        ],
        [
          Review("Lars V.", 5, "Jan 2026", "Love Schiphol! The Rijksmuseum exhibit and Holland Boulevard make layovers enjoyable. Great bike parking too!", 289),
          Review("Emma D.", 4, "Dec 2025", "One terminal makes connections easy. Good lounges and the library is unique. Can get crowded.", 178),
          Review("Peter J.", 4, "Nov 2025", "Efficient and well-designed. Plenty of charging spots. The casino is a fun way to pass time.", 134)
        ])),
    ("IST", AirportAmenities(
        [
          FoodPlace("Kebapçı Mahmut", "Turkish Kebab", "International", 45, "$$", "24 hours"),
          FoodPlace("Kahve Dünyası", "Turkish Coffee", "All Areas", 43, "$", "24 hours"),
          FoodPlace("Big Chefs", "International", "Departures", 42, "$$$", "24 hours"),
          FoodPlace("Mado", "Turkish Ice Cream & Desserts", "Transit Area", 44, "$$", "24 hours")
        ],
        [
          RestroomLocation("International Terminal - Near Gate F, includes hammam-style facilities", true, true),
          RestroomLocation("Domestic Terminal - Post-security, near mosques", true, true),
          RestroomLocation("Transfer area - Between gates, spa nearby", true, true),
          RestroomLocation("Arrivals - Near CIP lounge, premium services", true, true)
        ],
        [
          Review("Mehmet A.", 5, "Jan 2026", "Incredible new airport! Massive but well-designed. The Turkish Airlines lounge is like a 5-star hotel.", 445),
          Review("Christina L.", 4, "Dec 2025", "Beautiful architecture and excellent duty-free. Transfer process is smooth. Try the authentic Turkish food!", 312),
          Review("Hans R.", 4, "Nov 2025", "New IST is impressive. Walking distances are long but moving walkways help. Great for long layovers.", 234)
        ])),
    ("HND", AirportAmenities(
        [
          FoodPlace("Rokurinsha", "Ramen", "Terminal 3", 47, "$$", "6:00 AM - 10:00 PM"),
          FoodPlace("Sushi Kyotatsu", "Sushi", "Terminal 2", 45, "$$$", "7:00 AM - 9:00 PM"),
          FoodPlace("Edo Koji", "Japanese Food Court", "Terminal 3", 44, "$$", "24 hours"),
          FoodPlace("Tsurutontan", "Udon", "Terminal 2", 46, "$$", "6:30 AM - 10:00 PM")
        ],
        [
          RestroomLocation("Terminal 3 - Near Edo Koji, Japanese-style toilets", true, true),
          RestroomLocation("Terminal 2 - Gate 60 area, includes grooming rooms", true, true),
          RestroomLocation("Terminal 1 - Domestic departures, modern facilities", true, false),
          RestroomLocation("International arrivals - Near customs, baby care rooms", true, true)
        ],
        [
          Review("Yuki T.", 5, "Jan 2026", "Cleanest airport ever! The food is incredible - try the tsukemen at Rokurinsha. Efficient and quiet.", 356),
          Review("Alex W.", 5, "Dec 2025", "Terminal 3 international is beautiful. Close to central Tokyo. Amazing attention to detail everywhere.", 278),
          Review("Jennifer L.", 4, "Nov 2025", "Prefer Haneda over Narita for convenience. Excellent food, super clean restrooms. Very Japanese efficiency.", 198)
        ])),
    ("NRT", AirportAmenities(
        [
          FoodPlace("Nakau", "Japanese Fast Food", "Terminal 1", 42, "$", "6:00 AM - 9:00 PM"),
          FoodPlace("Sakura Lounge Restaurant", "Japanese", "Terminal 2", 44, "$$$", "7:00 AM - 9:00 PM"),
          FoodPlace("Mos Burger", "Fast Food", "All Terminals", 41, "$", "6:00 AM - 10:00 PM"),
          FoodPlace("Soba House", "Noodles", "Terminal 1", 43, "$$", "7:00 AM - 8:00 PM")
        ],
        [
          RestroomLocation("Terminal 1 - North Wing, near Gate 31", true, true),
          RestroomLocation("Terminal 2 - Main Building, opposite food court", true, true),
          RestroomLocation("Terminal 3 - LCC terminal, basic but clean", true, false),
          RestroomLocation("Satellite Building - Near Gate 91", true, true)
        ],
        [
          Review("Kenji M.", 4, "Jan 2026", "Classic international airport. A bit far from Tokyo but Narita Express is convenient. Good duty-free.", 189),
          Review("Sophie T.", 3, "Dec 2025", "Showing its age compared to newer Asian airports. Still efficient and clean. Limited night flight options.", 145),
          Review("David L.", 4, "Nov 2025", "Terminal 3 is budget-friendly. Good connections and signage. The capsule hotel nearby is convenient.", 112)
        ])),
    ("ICN", AirportAmenities(
        [
          FoodPlace("Korean Air Bibimbap", "Korean", "Terminal 2", 45, "$$", "24 hours"),
          FoodPlace("Shake Shack", "Burgers", "Terminal 1", 43, "$$", "7:00 AM - 10:00 PM"),
          FoodPlace("Tosokchon Samgyetang", "Korean Traditional", "Terminal 1", 46, "$$", "6:00 AM - 10:00 PM"),
          FoodPlace("Paris Baguette", "Bakery", "All Terminals", 42, "$", "24 hours")
        ],
        [
          RestroomLocation("Terminal 1 - Near Korean Cultural Center, premium facilities", true, true),
          RestroomLocation("Terminal 2 - Airside, includes sauna area", true, true),
          RestroomLocation("Concourse A - Near transit hotel", true, true),
          RestroomLocation("Arrivals - Near meet & greet area", true, false)
        ],
        [
          Review("Min-Jun K.", 5, "Jan 2026", "World-class airport! Free showers, Korean cultural experiences, gaming zones, and incredible food. Love it.", 423),
          Review("Amanda S.", 5, "Dec 2025", "The free transit tour is amazing. Spa, sleeping pods, ice skating rink - best layover airport.", 356),
          Review("Tom H.", 5, "Nov 2025", "Terminal 2 is stunning. Fast Wi-Fi, great lounges, and the duty-free prices are actually competitive.", 267)
        ]))
  ]

  /** What `getAirportAmenities` returns for an airport the table lacks. */
  const DefaultAmenities: AirportAmenities :=
    AirportAmenities(
      [
        FoodPlace("Airport Café", "Café & Snacks", "Main Terminal", 38, "$", "6:00 AM - 10:00 PM"),
        FoodPlace("International Deli", "Sandwiches", "Departures", 39, "$$", "5:30 AM - 9:00 PM"),
        FoodPlace("Coffee Corner", "Coffee", "All Areas", 40, "$", "24 hours")
      ],
      [
        RestroomLocation("Main Terminal - Near check-in counters", true, false),
        RestroomLocation("Departures - After security checkpoint", true, true),
        RestroomLocation("Arrivals - Near baggage claim", true, false)
      ],
      [
        Review("Traveler", 4, "Dec 2025", "Standard international airport with good facilities. Clean and functional.", 45),
        Review("Frequent Flyer", 3, "Nov 2025", "Gets the job done. Some areas could use updates but overall a decent experience.", 32)
      ])

  /** The position of the first entry whose key is exactly `iata`. */
  function FindEntry(entries: seq<(string, AirportAmenities)>, iata: string): (r: Option<nat>)
    ensures r.Some? ==> r.value < |entries| && entries[r.value].0 == iata
    ensures r.None? <==> forall i :: 0 <= i < |entries| ==> entries[i].0 != iata
    decreases |entries|
  {
    if |entries| == 0 then None
    else if entries[0].0 == iata then Some(0)
    else match FindEntry(entries[1..], iata)
      case None => None
      case Some(k) => Some(k + 1)
  }

  /** `getAirportAmenities`: the entry stored under exactly `iata`
      (no case folding), or the generic default. */
  function GetAirportAmenities(iata: string): (r: AirportAmenities)
    ensures (forall i :: 0 <= i < |AmenityEntries| ==> AmenityEntries[i].0 != iata) ==> r == DefaultAmenities
    ensures r == DefaultAmenities
      || exists i :: 0 <= i < |AmenityEntries| && AmenityEntries[i].0 == iata && r == AmenityEntries[i].1
  {
    match FindEntry(AmenityEntries, iata)
      case None => DefaultAmenities
      case Some(i) => AmenityEntries[i].1
  }

  // ---- facts about the table ----

  predicate AllAccessible(a: AirportAmenities) {
    forall k :: 0 <= k < |a.restrooms| ==> a.restrooms[k].accessible
  }

  /** Which entry carries the key numbered `key`; -1 for none. */
  function EntryPosition(key: int): int {
    if key == 4867659 then 0  // JFK
    else if key == 4997464 then 1  // LAX
    else if key == 4999250 then 2  // LHR
    else if key == 4408391 then 3  // CDG
    else if key == 4479042 then 4  // DXB
    else if key == 5458254 then 5  // SIN
    else if key == 5718359 then 6  // WAW
    else if key == 5263943 then 7  // PRG
    else if key == 4608577 then 8  // FRA
    else if key == 4279635 then 9  // AMS
    else if key == 4805460 then 10  // IST
    else if key == 4738628 then 11  // HND
    else if key == 5132884 then 12  // NRT
    else if key == 4801358 then 13  // ICN
    else -1
  }

  /** What each entry of the table has: a key that is the upper-case
      code of an airport in `MAJOR_AIRPORTS`, found at that entry and no
      other, four places to eat, four restrooms (all accessible) and
      three reviews. */
  predicate EntryWellFormed(i: int)
    requires 0 <= i < |AmenityEntries|
  {
    var code := AmenityEntries[i].0;
    var a := AmenityEntries[i].1;
    && |code| == 3
    && IsUpperLetters(code)
    && EntryPosition(Airports.CodeNumber(code)) == i
    && 0 <= Airports.TablePosition(Airports.CodeNumber(code)) < |Airports.MajorAirports|
    && Airports.MajorAirports[Airports.TablePosition(Airports.CodeNumber(code))].iata == code
    && |a.food| == 4 && |a.restrooms| == 4 && |a.reviews| == 3
    && AllAccessible(a)
  }

  lemma EntriesWellFormedLow(i: int)
    requires 0 <= i < 5
    ensures EntryWellFormed(i)
  {
  }

  lemma EntriesWellFormedMiddle(i: int)
    requires 5 <= i < 10
    ensures EntryWellFormed(i)
  {
  }

  lemma EntriesWellFormedHigh(i: int)
    requires 10 <= i < |AmenityEntries|
    ensures EntryWellFormed(i)
  {
  }

  lemma EntriesWellFormed(i: int)
    requires 0 <= i < |AmenityEntries|
    ensures EntryWellFormed(i)
  {
    if i < 5 {
      EntriesWellFormedLow(i);
    } else if i < 10 {
      EntriesWellFormedMiddle(i);
    } else {
      EntriesWellFormedHigh(i);
    }
  }

  /** The default has three places to eat, three restrooms (all
      accessible) and two reviews. */
  lemma DefaultAmenitiesShape()
    ensures |DefaultAmenities.food| == 3 && |DefaultAmenities.restrooms| == 3 && |DefaultAmenities.reviews| == 2
    ensures AllAccessible(DefaultAmenities)
  {
  }

  /** Looking an entry's own key up returns that entry. */
  lemma {:induction false} GetAirportAmenitiesOfKey(i: int)
    requires 0 <= i < |AmenityEntries|
    ensures GetAirportAmenities(AmenityEntries[i].0) == AmenityEntries[i].1
  {
    var k := FindEntry(AmenityEntries, AmenityEntries[i].0);
    if k.Some? && k.value != i {
      EntriesWellFormed(i);
      EntriesWellFormed(k.value);
    }
  }

  /** Every key of the table is the code of an airport in `MAJOR_AIRPORTS`. */
  lemma AmenityKeysAreAirports(i: int)
    requires 0 <= i < |AmenityEntries|
    ensures exists j :: 0 <= j < |Airports.MajorAirports| && Airports.MajorAirports[j].iata == AmenityEntries[i].0
  {
    EntriesWellFormed(i);
  }

  /** Whatever the code, the result has either the table's four places
      to eat, four restrooms and three reviews, or the default's three,
      three and two; every restroom returned is accessible. */
  lemma GetAirportAmenitiesShape(iata: string)
    ensures var r := GetAirportAmenities(iata);
      || (|r.food| == 4 && |r.restrooms| == 4 && |r.reviews| == 3)
      || (r == DefaultAmenities && |r.food| == 3 && |r.restrooms| == 3 && |r.reviews| == 2)
    ensures AllAccessible(GetAirportAmenities(iata))
  {
    match FindEntry(AmenityEntries, iata)
    case None =>
      DefaultAmenitiesShape();
    case Some(i) =>
      EntriesWellFormed(i);
  }

  /** The lookup is case-sensitive: a code that is not all upper-case
      letters, such as a lower-case one, gets the default. */
  lemma GetAirportAmenitiesCaseSensitive(iata: string)
    requires !IsUpperLetters(iata)
    ensures GetAirportAmenities(iata) == DefaultAmenities
  {
    forall i | 0 <= i < |AmenityEntries|
      ensures AmenityEntries[i].0 != iata
    {
      EntriesWellFormed(i);
    }
  }
}
