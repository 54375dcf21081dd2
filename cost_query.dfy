/** The two Cost Explorer queries of the billing notifier: the query window
    both compute from the reference date, the requests they send, and what
    they take out of the responses. The calls themselves are not modelled;
    a response is a value given to the functions below. */
module CostQuery {
  import opened Wrappers
  import opened Calendar

  /** The half-open period [start, end) of a query. */
  datatype Window = Window(start: Date, end: Date)

  /** `start = get_first_day(TODAY)` and
      `end = get_first_day(TODAY + relativedelta(months=1))`; `None` where the
      month addition raises. */
  function QueryWindow(today: Date): (w: Option<Window>)
    requires Valid(today)
    ensures w.None? <==> today.year == MAX_YEAR && today.month == 12
    ensures w.Some? ==> w.value.start == Date(today.year, today.month, 1)
    ensures w.Some? ==>
              w.value.end == if today.month == 12 then Date(today.year + 1, 1, 1)
                             else Date(today.year, today.month + 1, 1)
    ensures w.Some? ==> Valid(w.value.start) && Valid(w.value.end)
    ensures w.Some? ==> Before(w.value.start, w.value.end)
    ensures w.Some? ==> AtOrBefore(w.value.start, today) && Before(today, w.value.end)
  {
    match AddOneMonth(today)
    case None => None
    case Some(next) =>
      MonthIndexInjective(next, if today.month == 12 then Date(today.year + 1, 1, 1)
                                else Date(today.year, today.month + 1, 1));
      Some(Window(FirstDay(today), FirstDay(next)))
  }

  /** A valid date lies in the window exactly when it lies in the reference
      date's calendar month. */
  lemma WindowIsTheMonth(today: Date, d: Date)
    requires Valid(today) && Valid(d)
    requires QueryWindow(today).Some?
    ensures var w := QueryWindow(today).value;
            AtOrBefore(w.start, d) && Before(d, w.end) <==> SameMonth(d, today)
  {
  }

  /** The day of the reference date does not matter: the clamping of the day
      by `relativedelta` never shows in the window. */
  lemma WindowIgnoresDay(a: Date, b: Date)
    requires Valid(a) && Valid(b) && SameMonth(a, b)
    ensures QueryWindow(a) == QueryWindow(b)
  {
  }

  /** The window of one month ends where the window of the next begins. */
  lemma WindowsTile(today: Date)
    requires Valid(today)
    requires QueryWindow(today).Some?
    ensures var end := QueryWindow(today).value.end;
            Valid(end) && QueryWindow(end).Some? ==> QueryWindow(end).value.start == end
  {
  }

  const GRANULARITY := "MONTHLY"
  const METRIC := "UnblendedCost"

  datatype Grouping = Grouping(kind: string, key: string)

  /** The arguments of one `get_cost_and_usage` call. */
  datatype CostRequest = CostRequest(
    start: string, end: string, granularity: string, metrics: seq<string>, groupBy: seq<Grouping>)

  function Request(w: Window, groupBy: seq<Grouping>): (q: CostRequest)
    requires Valid(w.start) && Valid(w.end)
  {
    CostRequest(IsoFormat(w.start), IsoFormat(w.end), GRANULARITY, [METRIC], groupBy)
  }

  /** The request of `query_total_cost`: no grouping. */
  function TotalCostRequest(today: Date): (q: Option<CostRequest>)
    requires Valid(today)
    ensures q.Some? <==> QueryWindow(today).Some?
    ensures q.Some? ==> ParseIso(q.value.start) == Some(QueryWindow(today).value.start)
    ensures q.Some? ==> ParseIso(q.value.end) == Some(QueryWindow(today).value.end)
    ensures q.Some? ==> q.value.granularity == GRANULARITY && q.value.metrics == [METRIC]
    ensures q.Some? ==> q.value.groupBy == []
  {
    match QueryWindow(today)
    case None => None
    case Some(w) =>
      IsoRoundTrip(w.start);
      IsoRoundTrip(w.end);
      Some(Request(w, []))
  }

  /** The request of `query_service_cost`: grouped by the SERVICE dimension. */
  function ServiceCostRequest(today: Date): (q: Option<CostRequest>)
    requires Valid(today)
    ensures q.Some? <==> QueryWindow(today).Some?
    ensures q.Some? ==> ParseIso(q.value.start) == Some(QueryWindow(today).value.start)
    ensures q.Some? ==> ParseIso(q.value.end) == Some(QueryWindow(today).value.end)
    ensures q.Some? ==> q.value.granularity == GRANULARITY && q.value.metrics == [METRIC]
    ensures q.Some? ==> q.value.groupBy == [Grouping("DIMENSION", "SERVICE")]
  {
    match QueryWindow(today)
    case None => None
    case Some(w) =>
      IsoRoundTrip(w.start);
      IsoRoundTrip(w.end);
      Some(Request(w, [Grouping("DIMENSION", "SERVICE")]))
  }

  /** Both queries ask for the same period with the same granularity and
      metric; they differ only in the grouping. */
  lemma SameTimePeriod(today: Date)
    requires Valid(today)
    ensures TotalCostRequest(today).Some? <==> ServiceCostRequest(today).Some?
    ensures TotalCostRequest(today).Some? ==>
              TotalCostRequest(today).value
              == ServiceCostRequest(today).value.(groupBy := [])
  {
  }

  /** An amount with its currency unit, as a metric of the response holds
      it: `{'Amount': ..., 'Unit': ...}` with the amount already parsed. */
  datatype Metric = Metric(amount: real, unit: string)

  /** One group of a grouped response: its `Keys` and its `Metrics`. */
  datatype Group = Group(keys: seq<string>, metrics: map<string, Metric>)

  /** One entry of `ResultsByTime`: its `Total` and its `Groups`. */
  datatype TimeResult = TimeResult(total: map<string, Metric>, groups: seq<Group>)

  datatype Response = Response(resultsByTime: seq<TimeResult>)

  /** The exceptions that reading a response can raise: an empty
      `ResultsByTime`, a missing total metric, a group without the metric,
      a group with no keys (the index of the group). */
  datatype QueryError =
    | NoResults
    | MissingTotal
    | MissingMetric(group: nat)
    | MissingKey(group: nat)

  /** `res['ResultsByTime'][0]['Total']['UnblendedCost']`. */
  function TotalCost(res: Response): (r: Result<Metric, QueryError>)
    ensures |res.resultsByTime| == 0 ==> r == Failure(NoResults)
    ensures |res.resultsByTime| > 0 ==>
              (r.Success? <==> METRIC in res.resultsByTime[0].total)
    ensures r.Success? ==> r.value == res.resultsByTime[0].total[METRIC]
    ensures r.Failure? ==> r.error == NoResults || r.error == MissingTotal
  {
    if |res.resultsByTime| == 0 then Failure(NoResults)
    else if METRIC !in res.resultsByTime[0].total then Failure(MissingTotal)
    else Success(res.resultsByTime[0].total[METRIC])
  }

  /** One `{'service': ..., 'billing': ...}` record. */
  datatype Record = Record(service: string, billing: real)

  predicate WellFormed(g: Group) {
    METRIC in g.metrics && |g.keys| > 0
  }

  /** The record of a group: its first key and its amount. */
  function RecordOf(g: Group): (r: Record)
    requires WellFormed(g)
  {
    Record(g.keys[0], g.metrics[METRIC].amount)
  }

  /** What reading group `i` raises when it is malformed; the amount is read
      before the key. */
  function GroupError(g: Group, i: nat): (e: QueryError) {
    if METRIC !in g.metrics then MissingMetric(i) else MissingKey(i)
  }

  /** The loop of `query_service_cost`: one record per group of the first
      time result, in the order of the response, nothing filtered. A
      malformed group raises, and the records built so far are lost. */
  method ServiceRecords(res: Response) returns (r: Result<seq<Record>, QueryError>)
    ensures |res.resultsByTime| == 0 ==> r == Failure(NoResults)
    ensures |res.resultsByTime| > 0 ==>
              var groups := res.resultsByTime[0].groups;
              && (r.Success? <==> forall i | 0 <= i < |groups| :: WellFormed(groups[i]))
              && (r.Success? ==>
                    && |r.value| == |groups|
                    && forall i | 0 <= i < |groups| ::
                         WellFormed(groups[i]) && r.value[i] == RecordOf(groups[i]))
              && (r.Failure? ==>
                    && (r.error.MissingMetric? || r.error.MissingKey?)
                    && r.error.group < |groups|
                    && r.error == GroupError(groups[r.error.group], r.error.group)
                    && !WellFormed(groups[r.error.group])
                    && forall j | 0 <= j < r.error.group :: WellFormed(groups[j]))
  {
    if |res.resultsByTime| == 0 {
      return Failure(NoResults);
    }
    var groups := res.resultsByTime[0].groups;
    var billings: seq<Record> := [];
    for i := 0 to |groups|
      invariant |billings| == i
      invariant forall j | 0 <= j < i :: WellFormed(groups[j]) && billings[j] == RecordOf(groups[j])
    {
      var item := groups[i];
      if METRIC !in item.metrics {
        return Failure(MissingMetric(i));
      }
      var cost := item.metrics[METRIC].amount;
      if |item.keys| == 0 {
        return Failure(MissingKey(i));
      }
      billings := billings + [Record(item.keys[0], cost)];
    }
    return Success(billings);
  }
}
