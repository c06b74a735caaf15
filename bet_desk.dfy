/** The bet page: a list of flight markets held in page state, a form, and a
    submit handler that routes a request to the existing market for the flight
    and date or creates a new market at the front of the list. The list is shown
    sorted by implied probability, highest first. */
module BetDesk {
  import opened Optional
  import opened Text

  datatype OutcomeType = Delay | Cancel

  /** The outcome type as the page spells it. */
  function OutcomeName(t: OutcomeType): string {
    match t
    case Delay => "DELAY"
    case Cancel => "CANCEL"
  }

  datatype FlightMarket = FlightMarket(
    id: string,
    flightNumber: string,
    departureDate: string,
    route: string,
    yesPrice: real,
    impliedProbability: int,
    totalLiquidity: int,
    coverageDemand: real,
    outcomeType: OutcomeType)

  const SeedMarkets: seq<FlightMarket> := [
    FlightMarket("DL104-2024-12-01", "DL104", "2024-12-01", "JFK \U{2192} LAX", 0.22, 22, 32500, 12800.0, Delay),
    FlightMarket("UA881-2024-12-02", "UA881", "2024-12-02", "SFO \U{2192} NRT", 0.17, 17, 41200, 9800.0, Cancel),
    FlightMarket("AF008-2024-12-03", "AF008", "2024-12-03", "CDG \U{2192} JFK", 0.29, 29, 28750, 16500.0, Delay)
  ]

  datatype FormState = FormState(flightNumber: string, departureDate: string, route: string, coverage: real)

  const InitialForm: FormState := FormState("", "", "", 250.0)

  datatype Tone = Success | Info

  /** The premium quote's price and rounded implied probability, computed outside the model. */
  datatype Quote = Quote(yesPrice: real, impliedProbability: int)

  const MissingFlightMessage: string := "Please enter a flight number to continue."
  const MissingDateMessage: string := "Add a departure date so we can match the right flight."

  function RoutedMessage(existing: FlightMarket): string {
    "Great news! There is already an open " + ToLower(OutcomeName(existing.outcomeType)) + " market for "
      + existing.flightNumber + " on " + existing.departureDate + ". Your bet is routed there."
  }

  function CreatedMessage(flightNumber: string, t: OutcomeType): string {
    "New market created for " + flightNumber + " (" + ToLower(OutcomeName(t))
      + "). You are the first to request coverage on this flight!"
  }

  // ---------------------------------------------------------------------------
  // Flight-number normalisation

  /** `formState.flightNumber.trim().toUpperCase()` */
  function NormalizeFlightNumber(s: string): string {
    ToUpper(Trim(s))
  }

  /** A normalised flight number has no white space at either end and no lower-case
      letter, and normalising it again changes nothing. */
  lemma NormalizeIdempotent(s: string)
    ensures var r := NormalizeFlightNumber(s);
      && (r != [] ==> !IsWhitespace(r[0]) && !IsWhitespace(r[|r| - 1]))
      && (forall i :: 0 <= i < |r| ==> !('a' <= r[i] <= 'z'))
      && NormalizeFlightNumber(r) == r
  {
    NormalizedEnds(s);
    NormalizedUpper(s);
    NormalizedFixed(s);
  }

  lemma NormalizedEnds(s: string)
    ensures || NormalizeFlightNumber(s) == []
            || (&& !IsWhitespace(NormalizeFlightNumber(s)[0])
                && !IsWhitespace(NormalizeFlightNumber(s)[|NormalizeFlightNumber(s)| - 1]))
  {
    TrimIdempotent(s);
    ToUpperKeepsEnds(Trim(s));
  }

  lemma NormalizedUpper(s: string)
    ensures var r := NormalizeFlightNumber(s); forall i :: 0 <= i < |r| ==> !('a' <= r[i] <= 'z')
  {
    ToUpperProperties(Trim(s));
  }

  lemma NormalizedFixed(s: string)
    ensures NormalizeFlightNumber(NormalizeFlightNumber(s)) == NormalizeFlightNumber(s)
  {
    TrimIdempotent(s);
    UpperOfTrimmed(Trim(s));
  }

  /** The normalised flight number is empty exactly when the entry is all white space. */
  lemma NormalizeEmptyIff(s: string)
    ensures NormalizeFlightNumber(s) == [] <==> forall i :: 0 <= i < |s| ==> IsWhitespace(s[i])
  {
    TrimEmptyIff(s);
  }

  // ---------------------------------------------------------------------------
  // Market ids

  /** The template `${flightNumber}-${departureDate}`. */
  function MarketId(flightNumber: string, departureDate: string): string {
    flightNumber + "-" + departureDate
  }

  /** With dates of one fixed length (the date input yields `YYYY-MM-DD`), the id
      determines both the flight number and the date. */
  lemma MarketIdInjective(f1: string, d1: string, f2: string, d2: string)
    requires |d1| == |d2|
    requires MarketId(f1, d1) == MarketId(f2, d2)
    ensures f1 == f2 && d1 == d2
  {
    var id := MarketId(f1, d1);
    assert |f1| == |f2|;
    assert f1 == id[..|f1|] && f2 == id[..|f2|];
    assert d1 == id[|f1| + 1..] && d2 == id[|f2| + 1..];
  }

  /** Index of the first market at or after `from` whose id is `id`. */
  function FindByIdFrom(markets: seq<FlightMarket>, id: string, from: nat): (r: Option<nat>)
    requires from <= |markets|
    ensures r.Some? ==> from <= r.value < |markets| && markets[r.value].id == id
    ensures forall j :: from <= j < |markets| && (r.None? || j < r.value) ==> markets[j].id != id
    decreases |markets| - from
  {
    if from == |markets| then None
    else if markets[from].id == id then Some(from)
    else FindByIdFrom(markets, id, from + 1)
  }

  /** `markets.find((m) => m.id === id)`, as an index. */
  function FindById(markets: seq<FlightMarket>, id: string): (r: Option<nat>)
    ensures r.Some? ==> r.value < |markets| && markets[r.value].id == id
    ensures forall j :: 0 <= j < (if r.Some? then r.value else |markets|) ==> markets[j].id != id
    ensures r.Some? <==> id in IdsOf(markets)
  {
    FindByIdFrom(markets, id, 0)
  }

  function IdsOf(markets: seq<FlightMarket>): set<string> {
    set i | 0 <= i < |markets| :: markets[i].id
  }

  predicate UniqueIds(markets: seq<FlightMarket>) {
    forall i, j :: 0 <= i < j < |markets| ==> markets[i].id != markets[j].id
  }

  /** The `setMarkets` updater: the list unchanged when a market with the candidate's
      id exists, otherwise the candidate in front of the unchanged list. */
  function FindOrPrepend(prev: seq<FlightMarket>, candidate: FlightMarket): (next: seq<FlightMarket>)
    ensures candidate.id in IdsOf(prev) ==> next == prev
    ensures candidate.id !in IdsOf(prev) ==>
      |next| == |prev| + 1 && next[0] == candidate && next[1..] == prev
  {
    var existing := FindById(prev, candidate.id);
    if existing.Some? then prev else [candidate] + prev
  }

  /** After the update the candidate's id is present, no other id appears, and ids
      that were unique stay unique. */
  lemma FindOrPrependKeepsIdsUnique(prev: seq<FlightMarket>, candidate: FlightMarket)
    ensures IdsOf(FindOrPrepend(prev, candidate)) == IdsOf(prev) + {candidate.id}
    ensures UniqueIds(prev) ==> UniqueIds(FindOrPrepend(prev, candidate))
  {
  }

  /** A second request for the same id leaves the list as the first one left it. */
  lemma FindOrPrependIdempotent(prev: seq<FlightMarket>, candidate: FlightMarket, again: FlightMarket)
    requires again.id == candidate.id
    ensures FindOrPrepend(FindOrPrepend(prev, candidate), again) == FindOrPrepend(prev, candidate)
  {
    FindOrPrependKeepsIdsUnique(prev, candidate);
  }

  /** The market a successful submit creates. `draw` is `Math.round(Math.random() * 6000)`. */
  function NewMarket(id: string, flightNumber: string, form: FormState, quote: Quote,
                     outcomeType: OutcomeType, draw: int): (m: FlightMarket)
    requires 0 <= draw <= 6000
    ensures m.id == id && m.flightNumber == flightNumber && m.departureDate == form.departureDate
    ensures m.outcomeType == outcomeType
    ensures form.route != "" ==> m.route == form.route
    ensures form.route == "" ==> m.route == "Route pending"
    ensures m.yesPrice == quote.yesPrice && m.impliedProbability == quote.impliedProbability
    ensures 12000 <= m.totalLiquidity <= 18000 && m.totalLiquidity == 12000 + draw
    ensures m.coverageDemand == form.coverage + 5000.0
    ensures form.coverage >= 0.0 ==> m.coverageDemand >= 5000.0
  {
    FlightMarket(
      id, flightNumber, form.departureDate,
      if form.route != "" then form.route else "Route pending",
      quote.yesPrice, quote.impliedProbability,
      12000 + draw,
      form.coverage + 5000.0,
      outcomeType)
  }

  // ---------------------------------------------------------------------------
  // Sorted view

  predicate ByProbabilityDesc(s: seq<FlightMarket>) {
    forall i, j :: 0 <= i < j < |s| ==> s[i].impliedProbability >= s[j].impliedProbability
  }

  /** A market no less probable than the head of a sorted list may go in front of it. */
  lemma ConsByProbability(x: FlightMarket, r: seq<FlightMarket>)
    requires ByProbabilityDesc(r)
    requires r == [] || x.impliedProbability >= r[0].impliedProbability
    ensures ByProbabilityDesc([x] + r)
  {
    var t := [x] + r;
    forall i, j | 0 <= i < j < |t|
      ensures t[i].impliedProbability >= t[j].impliedProbability
    {
      if i == 0 && j > 1 {
        assert t[j] == r[j - 1];
      }
    }
  }

  /** Insert `m` before the first market of lower implied probability. */
  function InsertByProbability(m: FlightMarket, s: seq<FlightMarket>): (r: seq<FlightMarket>)
    requires ByProbabilityDesc(s)
    ensures ByProbabilityDesc(r)
    ensures multiset(r) == multiset(s) + multiset{m}
    ensures r[0] == m || (s != [] && r[0] == s[0])
  {
    if s == [] || m.impliedProbability >= s[0].impliedProbability then
      ConsByProbability(m, s);
      [m] + s
    else
      var rest := InsertByProbability(m, s[1..]);
      assert s == [s[0]] + s[1..];
      assert multiset([s[0]] + rest) == multiset{s[0]} + multiset(rest);
      ConsByProbability(s[0], rest);
      [s[0]] + rest
  }

  /** `[...markets].sort((a, b) => b.impliedProbability - a.impliedProbability)`:
      a copy, ordered by implied probability from highest to lowest. */
  function SortByProbability(s: seq<FlightMarket>): (r: seq<FlightMarket>)
    ensures ByProbabilityDesc(r)
    ensures multiset(r) == multiset(s)
  {
    if s == [] then []
    else
      assert s == [s[0]] + s[1..];
      InsertByProbability(s[0], SortByProbability(s[1..]))
  }

  // ---------------------------------------------------------------------------
  // Coverage input

  /** `Math.max(0, Number(value) || 0)`; `number` is `Number(value)`, `None` for NaN. */
  function ClampCoverage(number: Option<real>): (c: real)
    ensures c >= 0.0
    ensures number.Some? && number.value >= 0.0 ==> c == number.value
    ensures number.None? || number.value <= 0.0 ==> c == 0.0
  {
    var v := if number.Some? && number.value != 0.0 then number.value else 0.0;
    if v > 0.0 then v else 0.0
  }

  // ---------------------------------------------------------------------------
  // The page state

  class BetPage {
    var markets: seq<FlightMarket>
    var outcomeType: OutcomeType
    var form: FormState
    var statusMessage: Option<string>
    var statusTone: Tone

    /** Market ids are unique and the coverage entered is never negative. */
    ghost predicate Valid()
      reads this
    {
      UniqueIds(markets) && form.coverage >= 0.0
    }

    constructor ()
      ensures Valid()
      ensures markets == SeedMarkets && outcomeType == Delay && form == InitialForm
      ensures statusMessage == None && statusTone == Info
    {
      markets := SeedMarkets;
      outcomeType := Delay;
      form := InitialForm;
      statusMessage := None;
      statusTone := Info;
    }

    /** The markets as the table lists them; the state is only read. */
    function SortedMarkets(): (r: seq<FlightMarket>)
      reads this
      ensures ByProbabilityDesc(r) && multiset(r) == multiset(markets)
    {
      SortByProbability(markets)
    }

    /** The flight-number field upper-cases what is typed. */
    method SetFlightNumber(value: string)
      modifies this
      ensures form == old(form).(flightNumber := ToUpper(value))
      ensures markets == old(markets) && outcomeType == old(outcomeType)
      ensures statusMessage == old(statusMessage) && statusTone == old(statusTone)
    {
      form := form.(flightNumber := ToUpper(value));
    }

    method SetDepartureDate(value: string)
      modifies this
      ensures form == old(form).(departureDate := value)
      ensures markets == old(markets) && outcomeType == old(outcomeType)
      ensures statusMessage == old(statusMessage) && statusTone == old(statusTone)
    {
      form := form.(departureDate := value);
    }

    method SetRoute(value: string)
      modifies this
      ensures form == old(form).(route := value)
      ensures markets == old(markets) && outcomeType == old(outcomeType)
      ensures statusMessage == old(statusMessage) && statusTone == old(statusTone)
    {
      form := form.(route := value);
    }

    /** The coverage field: `number` is `Number(value)`, `None` when that is NaN. */
    method SetCoverage(number: Option<real>)
      requires Valid()
      modifies this
      ensures Valid()
      ensures form == old(form).(coverage := ClampCoverage(number))
      ensures markets == old(markets) && outcomeType == old(outcomeType)
      ensures statusMessage == old(statusMessage) && statusTone == old(statusTone)
    {
      form := form.(coverage := ClampCoverage(number));
    }

    method SetOutcomeType(t: OutcomeType)
      modifies this
      ensures outcomeType == t
      ensures markets == old(markets) && form == old(form)
      ensures statusMessage == old(statusMessage) && statusTone == old(statusTone)
    {
      outcomeType := t;
    }

    /** The `setMarkets` updater of a submit that passed validation, with the status
        message it leaves: route to the market with id `FLIGHT-DATE` if one exists,
        or put a new market for it at the front. */
    method RouteRequest(flightNumber: string, quote: Quote, draw: int)
      requires Valid()
      requires flightNumber != "" && form.departureDate != ""
      requires 0 <= draw <= 6000
      modifies this
      ensures Valid()
      ensures form == old(form) && outcomeType == old(outcomeType) && statusTone == Success
      ensures var id := MarketId(flightNumber, form.departureDate);
        id in IdsOf(old(markets)) ==>
          && markets == old(markets)
          && statusMessage == Some(RoutedMessage(markets[FindById(markets, id).value]))
      ensures var id := MarketId(flightNumber, form.departureDate);
        id !in IdsOf(old(markets)) ==>
          && markets == [NewMarket(id, flightNumber, form, quote, outcomeType, draw)] + old(markets)
          && statusMessage == Some(CreatedMessage(flightNumber, outcomeType))
    {
      var id := MarketId(flightNumber, form.departureDate);
      var existing := FindById(markets, id);
      var message: string;
      if existing.Some? {
        message := RoutedMessage(markets[existing.value]);
      } else {
        message := CreatedMessage(flightNumber, outcomeType);
      }
      var candidate := NewMarket(id, flightNumber, form, quote, outcomeType, draw);
      FindOrPrependKeepsIdsUnique(markets, candidate);
      markets := FindOrPrepend(markets, candidate);
      statusTone := Success;
      statusMessage := Some(message);
    }

    /** `handleSubmit`: an empty normalised flight number or an empty date leaves the
        markets as they are with an info message; otherwise `RouteRequest` runs with
        the normalised flight number. `quote` is the premium quote and `draw` the
        random part of a new market's liquidity. */
    method Submit(quote: Quote, draw: int)
      requires Valid()
      requires 0 <= draw <= 6000
      modifies this
      ensures Valid()
      ensures form == old(form) && outcomeType == old(outcomeType)
      ensures NormalizeFlightNumber(form.flightNumber) == "" ==>
        && markets == old(markets) && statusTone == Info
        && statusMessage == Some(MissingFlightMessage)
      ensures NormalizeFlightNumber(form.flightNumber) != "" && form.departureDate == "" ==>
        && markets == old(markets) && statusTone == Info
        && statusMessage == Some(MissingDateMessage)
      ensures var flightNumber := NormalizeFlightNumber(form.flightNumber);
        var id := MarketId(flightNumber, form.departureDate);
        flightNumber != "" && form.departureDate != "" && id in IdsOf(old(markets)) ==>
          && markets == old(markets) && statusTone == Success
          && statusMessage == Some(RoutedMessage(markets[FindById(markets, id).value]))
      ensures var flightNumber := NormalizeFlightNumber(form.flightNumber);
        var id := MarketId(flightNumber, form.departureDate);
        flightNumber != "" && form.departureDate != "" && id !in IdsOf(old(markets)) ==>
          && markets == [NewMarket(id, flightNumber, form, quote, outcomeType, draw)] + old(markets)
          && statusTone == Success
          && statusMessage == Some(CreatedMessage(flightNumber, outcomeType))
    {
      var flightNumber := NormalizeFlightNumber(form.flightNumber);
      if flightNumber == "" {
        statusTone := Info;
        statusMessage := Some(MissingFlightMessage);
      } else if form.departureDate == "" {
        statusTone := Info;
        statusMessage := Some(MissingDateMessage);
      } else {
        RouteRequest(flightNumber, quote, draw);
      }
    }
  }
}
