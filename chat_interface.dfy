/** The flight chat panel, components/ChatInterface.tsx: the reply the
    `get_flight_info` tool hands back to the assistant, the list it hands
    to `onFlightsFound`, the send guard, the found-flights display, and
    the closed-airport lines put into the assistant's instructions.

    The assistant framework, the React hooks and the keyboard are outside
    the model; the panel's state is a class whose fields record what the
    component sets and what it passes to its callbacks. */
module ChatInterface {
  import opened Wrappers
  import opened Text
  import Sequences
  import Airports
  import opened AviationStack

  // ---------------------------------------------------------------------
  // The tool reply

  /** One flight as the tool describes it to the assistant. */
  datatype FlightSummary = FlightSummary(
    flight: string,
    airline: string,
    departure: string,
    arrival: string,
    status: Option<string>)

  /** The object `execute` returns; absent keys are `None`. */
  datatype ToolReply = ToolReply(
    success: bool,
    error: Option<string>,
    totalFlights: Option<nat>,
    flights: Option<seq<FlightSummary>>,
    message: Option<string>)

  /** How the lookup ended: with a result, or with an exception (its
      message when it is an `Error`, `None` otherwise). */
  datatype SearchOutcome = Completed(result: FlightSearchResult) | Raised(message: Option<string>)

  /** The reply, and the list passed to `onFlightsFound` (`None` when it
      is not called). */
  datatype ToolOutcome = ToolOutcome(reply: ToolReply, handed: Option<seq<Flight>>)

  /** The number of flights the tool describes at most. */
  const SummaryLimit: nat := 5

  function Summarize(f: Flight): FlightSummary {
    FlightSummary(f.flight.iata, f.airline.name, f.departure.scheduled, f.arrival.scheduled, f.flightStatus)
  }

  function SummarizeAll(s: seq<Flight>): (r: seq<FlightSummary>)
    ensures |r| == |s| && forall i :: 0 <= i < |s| ==> r[i] == Summarize(s[i])
  {
    seq(|s|, i requires 0 <= i < |s| => Summarize(s[i]))
  }

  const UnknownError := "Unknown error"

  function ErrorMessage(error: string): string {
    "Error searching flights: " + error
  }

  // The fixed texts of the messages (long texts are written in pieces).

  const NextFlightLead :=
    "No flights available right "
    + "now, but found the next "
    + "available flight: "

  const NoFlightsLead := "No scheduled flights " + "found from "

  const NoFlightsReason :=
    ". This could be because "
    + "there are no direct flights "
    + "on this route, or no "
    + "flights are scheduled in "
    + "the near future."

  function NextFlightMessage(next: Flight): string {
    NextFlightLead + next.flight.iata + " by " + next.airline.name + " departing on " + next.departure.scheduled
  }

  function NoFlightsMessage(origin: string, destination: string): string {
    NoFlightsLead + origin + " to " + destination + NoFlightsReason
  }

  function FoundMessage(count: nat, origin: string, destination: string): string {
    "Found " + NatToString(count) + " flights from " + origin + " to " + destination
  }

  /** The result shaping of `execute`. `origin` and `destination` are the
      codes as the assistant gave them (the messages quote them so);
      `existing` is the list the panel already shows. */
  function ShapeReply(origin: string, destination: string, existing: seq<Flight>, outcome: SearchOutcome): (r: ToolOutcome)
    ensures r.reply.success <==> outcome.Completed? && !Truthy(outcome.result.error)
    ensures !r.reply.success ==> r.handed.None? && r.reply.error.Some? && r.reply.flights.None?
    ensures r.reply.flights.Some? ==> |r.reply.flights.value| <= SummaryLimit
    ensures r.handed.Some? ==> existing <= r.handed.value && |r.handed.value| > |existing|
    ensures r.reply.success && r.handed.None? ==> r.reply.flights == Some([])
  {
    match outcome
    case Raised(message) =>
      ToolOutcome(ToolReply(false, Some(message.GetOr(UnknownError)), None, None, None), None)
    case Completed(result) =>
      if Truthy(result.error) then
        ToolOutcome(ToolReply(false, result.error, None, None, Some(ErrorMessage(result.error.value))), None)
      else if |result.flights| == 0 then
        match result.nextAvailableFlight
        case Some(next) =>
          ToolOutcome(ToolReply(true, None, None, Some([Summarize(next)]), Some(NextFlightMessage(next))),
                      Some(existing + [next]))
        case None =>
          ToolOutcome(ToolReply(true, None, None, Some([]), Some(NoFlightsMessage(origin, destination))), None)
      else
        ToolOutcome(ToolReply(true, None, Some(|result.flights|),
                              Some(SummarizeAll(Sequences.Take(result.flights, SummaryLimit))),
                              Some(FoundMessage(|result.flights|, origin, destination))),
                    Some(existing + result.flights))
  }

  /** An error in the result is passed on with the "Error searching
      flights" message, and nothing is handed to the panel. */
  lemma ShapeReplyOfError(origin: string, destination: string, existing: seq<Flight>, result: FlightSearchResult)
    requires Truthy(result.error)
    ensures var r := ShapeReply(origin, destination, existing, Completed(result));
      && r.reply.error == result.error
      && r.reply.message == Some(ErrorMessage(result.error.value))
      && r.handed.None?
  {
  }

  /** Flights found: the total, one summary for each of the first five
      flights in their order, and all of them appended to the panel's. */
  lemma ShapeReplyOfFlights(origin: string, destination: string, existing: seq<Flight>, result: FlightSearchResult)
    requires !Truthy(result.error) && |result.flights| > 0
    ensures var r := ShapeReply(origin, destination, existing, Completed(result));
      && r.reply.totalFlights == Some(|result.flights|)
      && r.reply.flights.Some?
      && |r.reply.flights.value| == Sequences.Min(SummaryLimit, |result.flights|)
      && (forall i :: 0 <= i < |r.reply.flights.value| ==> r.reply.flights.value[i] == Summarize(result.flights[i]))
      && r.handed == Some(existing + result.flights)
      && r.handed.value[|existing|..] == result.flights
      && r.reply.message == Some(FoundMessage(|result.flights|, origin, destination))
  {
    var r := ShapeReply(origin, destination, existing, Completed(result));
    assert (existing + result.flights)[|existing|..] == result.flights;
  }

  /** No flight but a next available one: a one-flight summary of it,
      and it alone is appended to the panel's list. */
  lemma ShapeReplyOfNextFlight(origin: string, destination: string, existing: seq<Flight>, result: FlightSearchResult)
    requires !Truthy(result.error) && result.flights == [] && result.nextAvailableFlight.Some?
    ensures var r := ShapeReply(origin, destination, existing, Completed(result));
      && r.reply.flights == Some([Summarize(result.nextAvailableFlight.value)])
      && r.handed == Some(existing + [result.nextAvailableFlight.value])
      && r.reply.totalFlights.None?
      && r.reply.message == Some(NextFlightMessage(result.nextAvailableFlight.value))
  {
  }

  /** Neither flights nor a next one: a successful reply with no
      summaries and the "No scheduled flights found" message for the
      codes asked about, and nothing is handed to the panel. */
  lemma ShapeReplyOfNoFlights(origin: string, destination: string, existing: seq<Flight>, result: FlightSearchResult)
    requires !Truthy(result.error) && result.flights == [] && result.nextAvailableFlight.None?
    ensures ShapeReply(origin, destination, existing, Completed(result))
      == ToolOutcome(ToolReply(true, None, None, Some([]), Some(NoFlightsMessage(origin, destination))), None)
  {
  }

  /** The count in "Found N flights" reads back as the number of flights. */
  lemma FoundMessageCount(count: nat, origin: string, destination: string)
    ensures FoundMessage(count, origin, destination)[..6] == "Found "
    ensures var digits := FoundMessage(count, origin, destination)[6..6 + |NatToString(count)|];
      && (forall i :: 0 <= i < |digits| ==> IsDigit(digits[i]))
      && DigitsValue(digits) == count
  {
    NatToStringRoundTrip(count);
    var m := FoundMessage(count, origin, destination);
    assert m == "Found " + NatToString(count) + (" flights from " + origin + " to " + destination);
    assert m[6..6 + |NatToString(count)|] == NatToString(count);
  }

  // ---------------------------------------------------------------------
  // The found-flights display

  /** What the found-flights box shows: whether it is there, its title,
      the flights drawn as cards and the number behind "+N more flights
      available", if that line is shown. */
  datatype FlightsBox = FlightsBox(shown: bool, title: string, cards: seq<Flight>, more: Option<nat>)

  const CardLimit: nat := 5
  const SingleFlightTitle := "Next available flight"

  function FoundTitle(count: nat): string {
    "Found " + NatToString(count) + " flights"
  }

  function MoreLine(more: nat): string {
    "+" + NatToString(more) + " more flights available"
  }

  /** The box for the flights the panel holds. */
  function FoundFlightsBox(found: seq<Flight>): (r: FlightsBox)
    ensures r.shown <==> |found| > 0
    ensures r.cards <= found && |r.cards| == Sequences.Min(CardLimit, |found|)
    ensures r.title == SingleFlightTitle <==> |found| == 1
    ensures r.more.Some? <==> |found| > CardLimit
    ensures |r.cards| + r.more.GetOr(0) == |found|
  {
    var title := if |found| == 1 then SingleFlightTitle else FoundTitle(|found|);
    assert FoundTitle(|found|)[0] == 'F';
    var more := if |found| > CardLimit then Some(|found| - CardLimit) else None;
    FlightsBox(|found| > 0, title, Sequences.Take(found, CardLimit), more)
  }

  /** When the panel held no flights, the assistant is told about exactly
      the flights the user sees as cards, in the same order. */
  lemma ReplyMatchesCards(origin: string, destination: string, result: FlightSearchResult)
    requires !Truthy(result.error) && |result.flights| > 0
    ensures var r := ShapeReply(origin, destination, [], Completed(result));
      && r.handed.Some?
      && SummarizeAll(FoundFlightsBox(r.handed.value).cards) == r.reply.flights.value
  {
    ShapeReplyOfFlights(origin, destination, [], result);
    assert [] + result.flights == result.flights;
  }

  // ---------------------------------------------------------------------
  // The closed airports named in the instructions

  function ClosedAirportLine(entry: (string, string)): string {
    entry.0 + ": " + entry.1
  }

  /** `closedAirportsList`: one "CODE: info" line per entry, joined by
      newlines. */
  function ClosedAirportsList(): string {
    Join(seq(|Airports.ClosedAirportsInfo|, i requires 0 <= i < |Airports.ClosedAirportsInfo|
                => ClosedAirportLine(Airports.ClosedAirportsInfo[i])), "\n")
  }

  /** The list splits back into exactly one line per closed airport, in
      the order of `CLOSED_AIRPORTS_INFO`. */
  lemma ClosedAirportsListLines()
    ensures var lines := Split(ClosedAirportsList(), '\n');
      && |lines| == |Airports.ClosedAirportsInfo|
      && forall i :: 0 <= i < |lines| ==> lines[i] == ClosedAirportLine(Airports.ClosedAirportsInfo[i])
  {
    var info := Airports.ClosedAirportsInfo;
    var lines := seq(|info|, i requires 0 <= i < |info| => ClosedAirportLine(info[i]));
    forall i | 0 <= i < |lines|
      ensures '\n' !in lines[i]
    {
      NoNewlineInClosedLine(i);
    }
    SplitJoin(lines, '\n');
  }

  lemma NoNewlineInClosedLine(i: int)
    requires 0 <= i < |Airports.ClosedAirportsInfo|
    ensures '\n' !in ClosedAirportLine(Airports.ClosedAirportsInfo[i])
  {
    WarClosureSingleLine();
    var entry := Airports.ClosedAirportsInfo[i];
    assert '\n' !in entry.0 && '\n' !in entry.1 by {
      if i == 0 {
        assert entry == ("KBP", Airports.KbpClosure);
      } else if i == 1 {
        assert entry == ("IEV", Airports.IevClosure);
      } else if i == 2 {
        assert entry == ("ODS", Airports.OdsClosure);
      } else if i == 3 {
        assert entry == ("HRK", Airports.HrkClosure);
      } else if i == 4 {
        assert entry == ("DNK", Airports.DnkClosure);
      } else {
        assert entry == ("LWO", Airports.LwoClosure);
      }
    }
  }

  lemma WarClosureSingleLine()
    ensures '\n' !in Airports.WarClosure
  {
  }

  // ---------------------------------------------------------------------
  // The panel's state

  class ChatPanel {
    /** The text in the input box. */
    var input: string
    /** Whether the "Searching flights..." indicator shows. */
    var isSearching: bool
    /** `persistedFlights`, the flights the parent passes in and the panel
        shows. */
    const persistedFlights: seq<Flight>
    /** The lists passed to `onFlightsFound`, in order. */
    var handedOver: seq<seq<Flight>>
    /** The messages passed to `sendMessage`, in order. */
    var sentMessages: seq<string>
    /** How often `onClearFlights` was called. */
    var clearRequests: nat

    constructor(persistedFlights: seq<Flight>)
      ensures this.persistedFlights == persistedFlights
      ensures input == "" && !isSearching
      ensures handedOver == [] && sentMessages == [] && clearRequests == 0
    {
      this.persistedFlights := persistedFlights;
      input := "";
      isSearching := false;
      handedOver := [];
      sentMessages := [];
      clearRequests := 0;
    }

    /** `handleSend`: nothing happens for blank input; otherwise the
        panel's flights are cleared, the input is sent as typed and the
        box is emptied. Either way the box is left blank, so sending again
        sends nothing. */
    method HandleSend()
      modifies this
      ensures IsBlank(old(input)) ==>
        input == old(input) && sentMessages == old(sentMessages) && clearRequests == old(clearRequests)
      ensures !IsBlank(old(input)) ==>
        input == "" && sentMessages == old(sentMessages) + [old(input)] && clearRequests == old(clearRequests) + 1
      ensures isSearching == old(isSearching) && handedOver == old(handedOver)
      ensures IsBlank(input)
    {
      if IsBlank(input) {
        return;
      }
      clearRequests := clearRequests + 1;
      sentMessages := sentMessages + [input];
      input := "";
    }

    /** `execute` of `get_flight_info`: the codes are upper-cased for the
        lookup, the indicator is on while it runs and off after, and the
        shaped reply is returned; the list for `onFlightsFound`, if any,
        is handed over. `result` and the URLs `requested` are those of the
        lookup for the upper-cased codes, with the guarantees of its
        contract. */
    method ExecuteFlightTool(
      origin: string, destination: string,
      apiKey: Option<string>, now: int, parse: string -> Option<int>, fetch: string -> Reply)
      returns (reply: ToolReply, result: FlightSearchResult, requested: seq<string>)
      modifies this
      ensures !isSearching
      ensures reply == ShapeReply(origin, destination, persistedFlights, Completed(result)).reply
      ensures var handed := ShapeReply(origin, destination, persistedFlights, Completed(result)).handed;
        handedOver == old(handedOver) + (if handed.Some? then [handed.value] else [])
      ensures input == old(input) && sentMessages == old(sentMessages) && clearRequests == old(clearRequests)
      ensures WellFormedResult(result, now, parse)
      ensures !KeyConfigured(apiKey) ==> result == Failed(MissingKeyMessage) && requested == []
      ensures KeyConfigured(apiKey) ==>
        && 1 <= |requested| <= 2
        && requested[0] == FlightsUrl(apiKey.value, Upper(origin), Upper(destination), true)
        && FirstReplyHandled(fetch(requested[0]), Upper(origin), Upper(destination), now, parse, result, |requested|)
      ensures |requested| == 2 ==>
        && requested[1] == FlightsUrl(apiKey.value, Upper(origin), Upper(destination), false)
        && SecondReplyHandled(fetch(requested[1]), Upper(origin), Upper(destination), now, parse, result)
    {
      isSearching := true;
      result, requested := GetFlights(apiKey, Upper(origin), Upper(destination), now, parse, fetch);
      isSearching := false;
      var shaped := ShapeReply(origin, destination, persistedFlights, Completed(result));
      if shaped.handed.Some? {
        handedOver := handedOver + [shaped.handed.value];
      }
      reply := shaped.reply;
    }
  }
}
