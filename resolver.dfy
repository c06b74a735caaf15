/** The `/resolve` endpoint of the resolver service: check the five query
    parameters, take the calendar date out of the `date` parameter, ask the
    flight-history provider for that day, pick the first reported flight whose
    scheduled time lies within five minutes of the requested one, and classify
    its outcome.

    The network call and JavaScript's `Date` parser are parameters: `fetch`
    answers the provider request, `parse` turns a date-time text into
    milliseconds since the epoch (`None` for an invalid date, whose time is NaN). */
module Resolver {
  import opened Optional
  import opened Text

  /** The query parameters as `url.searchParams.get` returns them (`None` when absent). */
  datatype Query = Query(
    flightId: Option<string>,
    departureCode: Option<string>,
    date: Option<string>,
    airlineCode: Option<string>,
    flightNumber: Option<string>)

  /** The names listed in the body of the 400 response. */
  const RequiredParams: seq<string> := ["flightId", "departureCode", "date", "airlineCode", "flightNumber"]

  /** A parameter passes the `!param` test: present and not the empty string. */
  predicate Given(p: Option<string>) {
    p.Some? && p.value != ""
  }

  predicate AllGiven(q: Query) {
    Given(q.flightId) && Given(q.departureCode) && Given(q.date) && Given(q.airlineCode) && Given(q.flightNumber)
  }

  /** Calendar-date part of the `date` parameter: `dateTime.split("T")[0].split(" ")[0]`.
      It is the longest prefix holding neither 'T' nor ' '. */
  function DatePart(dateTime: string): (r: string)
    ensures |r| <= |dateTime| && r == dateTime[..|r|]
    ensures 'T' !in r && ' ' !in r
    ensures |r| == |dateTime| || dateTime[|r|] == 'T' || dateTime[|r|] == ' '
  {
    PrefixBefore(PrefixBefore(dateTime, 'T'), ' ')
  }

  predicate IsDigit(c: char) {
    '0' <= c <= '9'
  }

  /** `YYYY-MM-DDTHH:MM` or `YYYY-MM-DD HH:MM`. */
  predicate DateTimeShape(s: string) {
    && |s| == 16
    && IsDigit(s[0]) && IsDigit(s[1]) && IsDigit(s[2]) && IsDigit(s[3]) && s[4] == '-'
    && IsDigit(s[5]) && IsDigit(s[6]) && s[7] == '-' && IsDigit(s[8]) && IsDigit(s[9])
    && (s[10] == 'T' || s[10] == ' ')
    && IsDigit(s[11]) && IsDigit(s[12]) && s[13] == ':' && IsDigit(s[14]) && IsDigit(s[15])
  }

  /** On either accepted format the extracted date is `YYYY-MM-DD`. */
  lemma DatePartOfDateTime(s: string)
    requires DateTimeShape(s)
    ensures DatePart(s) == s[..10]
  {
  }

  /** One entry of the provider's JSON array: `departure.scheduledTime`,
      `departure.delay` (`None` when missing, null or 0) and `status`. */
  datatype FlightRecord = FlightRecord(scheduledTime: Option<string>, delay: Option<int>, status: Option<string>)

  /** The parsed provider body: an array of entries, some other JSON value, or text
      that `response.json()` rejects. */
  datatype Body = Records(entries: seq<FlightRecord>) | OtherJson | Unparseable

  /** What `fetch` yields: no response at all (the call throws), or a status, its
      text and the body. */
  datatype ProviderReply = Unreachable | Reply(status: int, statusText: string, body: Body)

  /** The provider query: departure station, day, airline and flight number. */
  datatype ProviderRequest = ProviderRequest(code: string, dateFrom: string, airlineIata: string, flightNum: string)

  /** `response.ok` */
  predicate IsOk(status: int) {
    200 <= status <= 299
  }

  /** Whether `new Response(body, { status })` with a non-null body succeeds. The Fetch
      standard's Response constructor throws a RangeError for a status outside 200..599
      and a TypeError for a null-body status (101, 103, 204, 205, 304) with a body. */
  predicate AcceptsBody(status: int) {
    200 <= status <= 599 && status !in {101, 103, 204, 205, 304}
  }

  const ToleranceMs: int := 5 * 60 * 1000

  /** The requested instant: `new Date(dateTime.replace(" ", "T"))`. */
  function QueryInstant(parse: string -> Option<int>, dateTime: string): Option<int> {
    parse(ReplaceFirst(dateTime, ' ', 'T'))
  }

  /** A record's scheduled instant: `new Date(scheduledTime?.replace("t", "T") || "")`;
      the empty text is always an invalid date. */
  function RecordInstant(parse: string -> Option<int>, rec: FlightRecord): Option<int> {
    var text := if rec.scheduledTime.Some? then ReplaceFirst(rec.scheduledTime.value, 't', 'T') else "";
    if text == "" then None else parse(text)
  }

  /** `Math.abs(a - b) < 5 * 60 * 1000`; a comparison with NaN is false. */
  predicate WithinTolerance(a: Option<int>, b: Option<int>) {
    a.Some? && b.Some? && -ToleranceMs < a.value - b.value < ToleranceMs
  }

  /** The `find` callback. */
  predicate Matches(parse: string -> Option<int>, t: Option<int>, rec: FlightRecord) {
    WithinTolerance(RecordInstant(parse, rec), t)
  }

  /** Index of the first entry at or after `from` that matches. */
  function FirstMatchFrom(entries: seq<FlightRecord>, parse: string -> Option<int>, t: Option<int>, from: nat): (r: Option<nat>)
    requires from <= |entries|
    ensures r.Some? ==> from <= r.value < |entries| && Matches(parse, t, entries[r.value])
    ensures forall j :: from <= j < |entries| && (r.None? || j < r.value) ==> !Matches(parse, t, entries[j])
    decreases |entries| - from
  {
    if from == |entries| then None
    else if Matches(parse, t, entries[from]) then Some(from)
    else FirstMatchFrom(entries, parse, t, from + 1)
  }

  /** `flightData.find(...)`, as an index: the first entry in provider order that matches. */
  function FirstMatch(entries: seq<FlightRecord>, parse: string -> Option<int>, t: Option<int>): (r: Option<nat>)
    ensures r.Some? ==> r.value < |entries| && Matches(parse, t, entries[r.value])
    ensures forall j :: 0 <= j < |entries| && (r.None? || j < r.value) ==> !Matches(parse, t, entries[j])
  {
    FirstMatchFrom(entries, parse, t, 0)
  }

  /** A record 300000 ms away is passed over and the next one, 299999 ms away on the
      other side, is chosen. */
  lemma FiveMinuteBoundary(parse: string -> Option<int>, t: int, late: FlightRecord, early: FlightRecord)
    requires RecordInstant(parse, late) == Some(t + 300000)
    requires RecordInstant(parse, early) == Some(t - 299999)
    ensures FirstMatch([late, early], parse, Some(t)) == Some(1)
  {
    var es := [late, early];
    assert !Matches(parse, Some(t), es[0]);
    assert Matches(parse, Some(t), es[1]);
    assert FirstMatchFrom(es, parse, Some(t), 1) == Some(1);
  }

  /** The outcome codes of the service. */
  datatype Outcome = Pending | OnTime | Delay30 | Delay120Plus | Cancelled

  /** The number the response carries: 0 = pending or not found, 1 = on time,
      2 = delayed 30 minutes or more, 3 = delayed 120 minutes or more, 4 = cancelled. */
  function OutcomeCode(o: Outcome): (c: int)
    ensures 0 <= c <= 4
    ensures c == 0 <==> o == Pending
  {
    match o
    case Pending => 0
    case OnTime => 1
    case Delay30 => 2
    case Delay120Plus => 3
    case Cancelled => 4
  }

  /** Distinct outcomes have distinct codes. */
  lemma OutcomeCodeInjective(a: Outcome, b: Outcome)
    ensures OutcomeCode(a) == OutcomeCode(b) ==> a == b
  {
  }

  /** `departure?.delay || 0` */
  function DelayMinutes(rec: FlightRecord): int {
    rec.delay.GetOr(0)
  }

  /** The outcome of a matched record: cancellation first, then the delay thresholds
      from the largest down. */
  function Classify(rec: FlightRecord): (o: Outcome)
    ensures o != Pending
    ensures o == Cancelled <==> rec.status == Some("cancelled")
    ensures rec.status != Some("cancelled") ==>
      && (DelayMinutes(rec) >= 120 <==> o == Delay120Plus)
      && (30 <= DelayMinutes(rec) < 120 <==> o == Delay30)
      && (DelayMinutes(rec) < 30 <==> o == OnTime)
    ensures rec.status != Some("cancelled") && rec.delay.None? ==> o == OnTime
  {
    if rec.status == Some("cancelled") then Cancelled
    else if DelayMinutes(rec) >= 120 then Delay120Plus
    else if DelayMinutes(rec) >= 30 then Delay30
    else OnTime
  }

  /** The endpoint's answers, each with its HTTP status (see `Status`). */
  datatype Response =
    | MissingParameters(required: seq<string>)
    | ProviderError(status: int, statusText: string)
    | NoMatch(flightId: string, departureCode: string, date: string, scheduledDateTime: string,
              airlineCode: string, flightNumber: string)
    | Matched(flightId: string, flight: FlightRecord, outcome: Outcome)
    | InternalError
  {
    function Status(): int {
      match this
      case MissingParameters(_) => 400
      case ProviderError(status, _) => status
      case NoMatch(_, _, _, _, _, _) => 404
      case Matched(_, _, _) => 200
      case InternalError => 500
    }

    /** The `outcome` field of the answer's JSON: 0 in the no-match answer, the
        classification's code in the match answer, absent otherwise. */
    function ReportedOutcome(): Option<int> {
      match this
      case NoMatch(_, _, _, _, _, _) => Some(0)
      case Matched(_, _, outcome) => Some(OutcomeCode(outcome))
      case _ => None
    }
  }

  /** The provider request built from a query whose parameters are all given. */
  function RequestFor(q: Query): ProviderRequest
    requires AllGiven(q)
  {
    ProviderRequest(q.departureCode.value, DatePart(q.date.value), q.airlineCode.value, q.flightNumber.value)
  }

  /** The 404 answer, echoing the query and the extracted date. */
  function NoMatchFor(q: Query): Response
    requires AllGiven(q)
  {
    NoMatch(q.flightId.value, q.departureCode.value, DatePart(q.date.value), q.date.value,
            q.airlineCode.value, q.flightNumber.value)
  }

  /** The `/resolve` handler. */
  function Resolve(q: Query, parse: string -> Option<int>, fetch: ProviderRequest -> ProviderReply): Response {
    if !AllGiven(q) then MissingParameters(RequiredParams)
    else
      match fetch(RequestFor(q))
      case Unreachable => InternalError
      case Reply(status, statusText, body) =>
        if !IsOk(status) then
          // the error answer reuses the provider's status; one the constructor refuses lands in the catch
          if AcceptsBody(status) then ProviderError(status, statusText) else InternalError
        else
          match body
          case Unparseable => InternalError
          case OtherJson => NoMatchFor(q)
          case Records(entries) =>
            var m := if |entries| > 0 then FirstMatch(entries, parse, QueryInstant(parse, q.date.value)) else None;
            if m.None? then NoMatchFor(q)
            else Matched(q.flightId.value, entries[m.value], Classify(entries[m.value]))
  }

  /** A query missing any parameter is answered 400 with the five names, whatever the
      provider would have said: no lookup takes place. Conversely a complete query is
      never answered that way. */
  lemma MissingParametersRejected(q: Query, parse: string -> Option<int>,
                                  fetch: ProviderRequest -> ProviderReply, other: ProviderRequest -> ProviderReply)
    ensures Resolve(q, parse, fetch).MissingParameters? <==> !AllGiven(q)
    ensures !AllGiven(q) ==>
      && Resolve(q, parse, fetch) == MissingParameters(RequiredParams)
      && Resolve(q, parse, fetch) == Resolve(q, parse, other)
      && Resolve(q, parse, fetch).Status() == 400
  {
  }

  /** The one provider request is the only thing the answer depends on besides the query. */
  lemma OnlyOneLookup(q: Query, parse: string -> Option<int>,
                      fetch: ProviderRequest -> ProviderReply, other: ProviderRequest -> ProviderReply)
    requires AllGiven(q) && fetch(RequestFor(q)) == other(RequestFor(q))
    ensures Resolve(q, parse, fetch) == Resolve(q, parse, other)
  {
  }

  /** A non-ok provider reply is answered with the provider's own status and text when
      a response can carry that status, and with the internal-error answer otherwise.
      Conversely the provider-error answer arises from nothing else. */
  lemma ProviderErrorPropagated(q: Query, parse: string -> Option<int>, fetch: ProviderRequest -> ProviderReply)
    requires AllGiven(q) && fetch(RequestFor(q)).Reply? && !IsOk(fetch(RequestFor(q)).status)
    ensures AcceptsBody(fetch(RequestFor(q)).status) ==>
      && Resolve(q, parse, fetch) == ProviderError(fetch(RequestFor(q)).status, fetch(RequestFor(q)).statusText)
      && Resolve(q, parse, fetch).Status() == fetch(RequestFor(q)).status
    ensures !AcceptsBody(fetch(RequestFor(q)).status) ==> Resolve(q, parse, fetch) == InternalError
  {
  }

  /** The provider-error answer arises exactly from a non-ok reply whose status a response
      can carry; its status is then neither 2xx nor outside 300..599. */
  lemma ProviderErrorIff(q: Query, parse: string -> Option<int>, fetch: ProviderRequest -> ProviderReply)
    ensures Resolve(q, parse, fetch).ProviderError? <==>
      && AllGiven(q) && fetch(RequestFor(q)).Reply?
      && !IsOk(fetch(RequestFor(q)).status) && AcceptsBody(fetch(RequestFor(q)).status)
    ensures Resolve(q, parse, fetch).ProviderError? ==> 300 <= Resolve(q, parse, fetch).Status() <= 599
  {
  }

  /** The answer is the internal error (status 500) exactly when the query is complete and
      the provider call throws, its ok body is not JSON, or its non-ok status is one a
      response cannot carry. */
  lemma InternalErrorIff(q: Query, parse: string -> Option<int>, fetch: ProviderRequest -> ProviderReply)
    ensures Resolve(q, parse, fetch) == InternalError <==>
      && AllGiven(q)
      && (|| fetch(RequestFor(q)).Unreachable?
          || (IsOk(fetch(RequestFor(q)).status) && fetch(RequestFor(q)).body.Unparseable?)
          || (!IsOk(fetch(RequestFor(q)).status) && !AcceptsBody(fetch(RequestFor(q)).status)))
    ensures Resolve(q, parse, fetch) == InternalError ==> Resolve(q, parse, fetch).Status() == 500
  {
  }

  /** The no-match answer (status 404, outcome 0) arises exactly when the query is complete, the provider
      answered ok and its body is not an array, is empty, or has no entry within
      tolerance; the answer then echoes the query with the extracted date. */
  lemma NotFoundIff(q: Query, parse: string -> Option<int>, fetch: ProviderRequest -> ProviderReply)
    ensures Resolve(q, parse, fetch).NoMatch? <==>
      && AllGiven(q)
      && fetch(RequestFor(q)).Reply? && IsOk(fetch(RequestFor(q)).status)
      && match fetch(RequestFor(q)).body
         case OtherJson => true
         case Unparseable => false
         case Records(es) => forall j :: 0 <= j < |es| ==> !Matches(parse, QueryInstant(parse, q.date.value), es[j])
    ensures Resolve(q, parse, fetch).NoMatch? ==>
      && Resolve(q, parse, fetch).Status() == 404
      && Resolve(q, parse, fetch).ReportedOutcome() == Some(0)
      && Resolve(q, parse, fetch) == NoMatch(q.flightId.value, q.departureCode.value, DatePart(q.date.value),
                                             q.date.value, q.airlineCode.value, q.flightNumber.value)
  {
    if AllGiven(q) {
      var reply := fetch(RequestFor(q));
      if reply.Reply? && IsOk(reply.status) && reply.body.Records? {
        var es := reply.body.entries;
        var t := QueryInstant(parse, q.date.value);
        if (forall j :: 0 <= j < |es| ==> !Matches(parse, t, es[j])) && |es| > 0 {
          var m := FirstMatch(es, parse, t);
          assert m.None?;
        }
      }
    }
  }

  /** When the provider answered ok with an array whose first matching entry is at `k`,
      the answer is 200 with that entry and its classification. */
  lemma FirstMatchResolved(q: Query, parse: string -> Option<int>, fetch: ProviderRequest -> ProviderReply,
                           es: seq<FlightRecord>, k: nat)
    requires AllGiven(q)
    requires fetch(RequestFor(q)).Reply? && IsOk(fetch(RequestFor(q)).status)
    requires fetch(RequestFor(q)).body == Records(es)
    requires k < |es| && Matches(parse, QueryInstant(parse, q.date.value), es[k])
    requires forall j :: 0 <= j < k ==> !Matches(parse, QueryInstant(parse, q.date.value), es[j])
    ensures Resolve(q, parse, fetch) == Matched(q.flightId.value, es[k], Classify(es[k]))
  {
    var m := FirstMatch(es, parse, QueryInstant(parse, q.date.value));
  }

  /** Every 200 answer carries an outcome in 1..4 together with the first matching
      entry of an ok provider array, classified by `Classify`. */
  lemma OkMeansMatched(q: Query, parse: string -> Option<int>, fetch: ProviderRequest -> ProviderReply)
    ensures Resolve(q, parse, fetch).Status() == 200 ==> Resolve(q, parse, fetch).Matched?
    ensures var r := Resolve(q, parse, fetch);
      r.Status() == 200 ==>
      && 1 <= OutcomeCode(r.outcome) <= 4
      && r.ReportedOutcome() == Some(OutcomeCode(r.outcome))
      && AllGiven(q) && r.flightId == q.flightId.value
      && fetch(RequestFor(q)).Reply? && IsOk(fetch(RequestFor(q)).status) && fetch(RequestFor(q)).body.Records?
      && var es := fetch(RequestFor(q)).body.entries;
         var m := FirstMatch(es, parse, QueryInstant(parse, q.date.value));
         m.Some? && r.flight == es[m.value] && r.outcome == Classify(r.flight)
  {
  }
}
