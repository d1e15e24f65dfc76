/** The billing stage: the reporting window and the one Cost Explorer
    query made over it. The Cost Explorer service itself is a parameter: a
    function from the query sent to the answer received. */
module CostExplorer {
  import opened Optional
  import opened Calendar
  import opened DateUtility

  /** The record the billing stage hands on; all three fields are text. */
  datatype BillingInfo = BillingInfo(start: string, end: string, billing: string)

  /** The `get_cost_and_usage` request. */
  datatype CeQuery = CeQuery(start: string, end: string, granularity: string, metrics: seq<string>)

  /** One entry of `ResultsByTime`: its period and its amount per metric. */
  datatype Bucket = Bucket(start: string, end: string, total: map<string, string>)

  /** The call raised, or it answered; `ResultsByTime` may be absent. */
  datatype CeResponse = CallFailed | Answered(resultsByTime: Option<seq<Bucket>>)

  /** `calculate_billing_date_range`: from the first of this month to
      today, or, when today is the first, from the first of the previous
      month to today. Stepping back from 0001-01-01 overflows, which the
      function reports as `(None, None)`. */
  function CalculateBillingDateRange(today: Date): (r: Option<(string, string)>)
    requires Valid(today)
    ensures r.None? <==> today == Date(MinYear, 1, 1)
    ensures r.Some? ==> ParseIso(r.value.1) == Some(today)
  {
    var startDate := GetFirstDayOfMonth(today);
    var endDate := GetTodayDate(today);
    IsoInjective(FirstOfMonth(today), today);
    if startDate == endDate then
      // `strptime(start_date)` reads back `FirstOfMonth(today)` (IsoRoundTrip).
      match PrevDay(FirstOfMonth(today))
      case None => None
      case Some(endOfMonth) => Some((IsoFormat(FirstOfMonth(endOfMonth)), endDate))
    else
      Some((startDate, endDate))
  }

  /** The first day of the window, as a date. */
  function WindowStart(today: Date): (d: Date)
    requires Valid(today) && today != Date(MinYear, 1, 1)
    ensures Valid(d)
  {
    RangeStartParses(today);
    ParseIso(CalculateBillingDateRange(today).value.0).value
  }

  lemma RangeStartParses(today: Date)
    requires Valid(today) && today != Date(MinYear, 1, 1)
    ensures ParseIso(CalculateBillingDateRange(today).value.0).Some?
  {
    IsoRoundTrip(FirstOfMonth(today));
    if today.day == 1 {
      IsoRoundTrip(FirstOfMonth(PrevDay(FirstOfMonth(today)).value));
    }
  }

  /** On any day but the first, the window opens on the first of today's
      month and spans the days already elapsed in it. */
  lemma RangeWhenNotFirst(today: Date)
    requires Valid(today) && today.day != 1
    ensures CalculateBillingDateRange(today).Some?
    ensures WindowStart(today) == Date(today.year, today.month, 1)
    ensures Ordinal(today) - Ordinal(WindowStart(today)) == today.day - 1
  {
  }

  /** On the first of a month the window opens on the first of the previous
      month (December of the previous year in January) and spans that whole
      month. */
  lemma RangeWhenFirst(today: Date)
    requires Valid(today) && today.day == 1 && today != Date(MinYear, 1, 1)
    ensures today.month > 1 ==> WindowStart(today) == Date(today.year, today.month - 1, 1)
    ensures today.month == 1 ==> WindowStart(today) == Date(today.year - 1, 12, 1)
    ensures var s := WindowStart(today);
            Ordinal(today) - Ordinal(s) == DaysInMonth(s.year, s.month)
  {
    assert FirstOfMonth(today) == today;
    var last := PrevDay(today).value;
    IsoRoundTrip(FirstOfMonth(last));
    assert CalculateBillingDateRange(today).value.0 == IsoFormat(FirstOfMonth(last));
    var s := WindowStart(today);
    assert s == FirstOfMonth(last);
    PrevDayIsPredecessor(today);
    assert last.day == DaysInMonth(s.year, s.month);
    assert Ordinal(last) - Ordinal(s) == last.day - 1;
  }

  /** The window never runs backwards: its start is strictly before today. */
  lemma RangeOrdered(today: Date)
    requires Valid(today) && today != Date(MinYear, 1, 1)
    ensures Before(WindowStart(today), today)
    ensures Ordinal(WindowStart(today)) < Ordinal(today)
  {
    if today.day == 1 {
      RangeWhenFirst(today);
    } else {
      RangeWhenNotFirst(today);
    }
    OrdinalOrder(WindowStart(today), today);
  }

  /** The query for a window: monthly granularity, one metric. */
  function BillingQuery(start: string, end: string, metric: string): CeQuery {
    CeQuery(start, end, "MONTHLY", [metric])
  }

  /** `fetch_aws_billing_info`: one query over the computed window; the
      first result bucket's period and its amount for the metric. No window,
      a failed call, a missing or empty `ResultsByTime`, or a first bucket
      without the metric all give `None`. */
  function FetchAwsBillingInfo(today: Date, metric: string, costExplorer: CeQuery -> CeResponse)
    : (r: Option<BillingInfo>)
    requires Valid(today)
    ensures today == Date(MinYear, 1, 1) ==> r.None?
    ensures r.Some? <==>
      && CalculateBillingDateRange(today).Some?
      && var (s, e) := CalculateBillingDateRange(today).value;
         var answer := costExplorer(BillingQuery(s, e, metric));
         && answer.Answered?
         && answer.resultsByTime.Some?
         && |answer.resultsByTime.value| > 0
         && metric in answer.resultsByTime.value[0].total
    ensures r.Some? ==>
      var (s, e) := CalculateBillingDateRange(today).value;
      var first := costExplorer(BillingQuery(s, e, metric)).resultsByTime.value[0];
      r.value == BillingInfo(first.start, first.end, first.total[metric])
  {
    match CalculateBillingDateRange(today)
    case None => None
    case Some((startDate, endDate)) =>
      match costExplorer(BillingQuery(startDate, endDate, metric))
      case CallFailed => None
      case Answered(None) => None
      case Answered(Some(results)) =>
        if |results| == 0 then None
        else
          var first := results[0];
          if metric in first.total then Some(BillingInfo(first.start, first.end, first.total[metric]))
          else None
  }
}
