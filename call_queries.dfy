/**
 * The listing filters of the call controller: the admin list, today's calls
 * and the history window, with what it means for a stored call to match one.
 */
module CallQueries {
  import opened Wrappers
  import opened Calls
  import opened Calendar

  /** A `{ $gte, $lte }` condition on the trading day. */
  datatype DateRange = DateRange(gte: Option<int>, lte: Option<int>)

  /** The query document: equality conditions on fields, and a date range. */
  datatype CallFilter = CallFilter(
    commodity: Option<string>,
    status: Option<string>,
    callType: Option<string>,
    tradeType: Option<string>,
    date: Option<DateRange>)

  const EmptyFilter: CallFilter := CallFilter(None, None, None, None, None)

  /** `sort[field] = ascending ? 1 : -1`. */
  datatype SortSpec = SortSpec(field: string, ascending: bool)

  /** The query string of the admin list. */
  datatype AdminCallQuery = AdminCallQuery(
    commodity: Option<string>,
    status: Option<string>,
    callType: Option<string>,
    tradeType: Option<string>,
    startDate: Option<DateInput>,
    endDate: Option<DateInput>,
    sortBy: Option<string>,
    sortOrder: Option<string>)

  /** The query string of the history list. */
  datatype HistoryQuery = HistoryQuery(
    commodity: Option<string>,
    tradeType: Option<string>,
    startDate: Option<DateInput>,
    endDate: Option<DateInput>)

  /** A query-string value is truthy when present and non-empty. */
  predicate Truthy(s: Option<string>)
  {
    s.Some? && s.value != ""
  }

  predicate InRange(r: DateRange, d: int)
  {
    (r.gte.Some? ==> r.gte.value <= d) && (r.lte.Some? ==> d <= r.lte.value)
  }

  predicate Matches(f: CallFilter, c: Call)
  {
    && (f.commodity.Some? ==> c.commodity == f.commodity.value)
    && (f.status.Some? ==> StatusName(c.status) == f.status.value)
    && (f.callType.Some? ==> c.callType == f.callType.value)
    && (f.tradeType.Some? ==> TradeTypeName(c.tradeType) == f.tradeType.value)
    && (f.date.Some? ==> InRange(f.date.value, c.date))
  }

  /** `Call.find(filter)` before sorting and paging: the matching calls in stored order. */
  function Select(calls: seq<Call>, f: CallFilter): (r: seq<Call>)
    ensures |r| <= |calls|
    ensures forall c :: c in r <==> c in calls && Matches(f, c)
  {
    if calls == [] then []
    else (if Matches(f, calls[0]) then [calls[0]] else []) + Select(calls[1..], f)
  }

  /** Builds the admin list's filter and sort one supplied parameter at a time. */
  method BuildAdminFilter(q: AdminCallQuery) returns (f: CallFilter, sort: SortSpec)
    ensures f.commodity == (if Truthy(q.commodity) then q.commodity else None)
    ensures f.status == (if Truthy(q.status) then q.status else None)
    ensures f.callType == (if Truthy(q.callType) then q.callType else None)
    ensures f.tradeType == (if Truthy(q.tradeType) then q.tradeType else None)
    ensures f.date.Some? <==> q.startDate.Some? || q.endDate.Some?
    ensures forall c :: Matches(f, c) <==>
              && (Truthy(q.commodity) ==> c.commodity == q.commodity.value)
              && (Truthy(q.status) ==> StatusName(c.status) == q.status.value)
              && (Truthy(q.callType) ==> c.callType == q.callType.value)
              && (Truthy(q.tradeType) ==> TradeTypeName(c.tradeType) == q.tradeType.value)
              && (q.startDate.Some? ==> StartOfDay(q.startDate.value) <= c.date)
              && (q.endDate.Some? ==> c.date <= EndOfDay(q.endDate.value))
    ensures sort.field == (if Truthy(q.sortBy) then q.sortBy.value else "date")
    ensures sort.ascending <==> q.sortOrder == Some("asc")
  {
    f := EmptyFilter;
    if Truthy(q.commodity) {
      f := f.(commodity := q.commodity);
    }
    if Truthy(q.status) {
      f := f.(status := q.status);
    }
    if Truthy(q.callType) {
      f := f.(callType := q.callType);
    }
    if Truthy(q.tradeType) {
      f := f.(tradeType := q.tradeType);
    }
    if q.startDate.Some? || q.endDate.Some? {
      var range := DateRange(None, None);
      if q.startDate.Some? {
        range := range.(gte := Some(StartOfDay(q.startDate.value)));
      }
      if q.endDate.Some? {
        range := range.(lte := Some(EndOfDay(q.endDate.value)));
      }
      f := f.(date := Some(range));
    }
    var field := if Truthy(q.sortBy) then q.sortBy.value else "date";
    sort := SortSpec(field, q.sortOrder == Some("asc"));
  }

  /** Today's calls: trading day at or after today's IST midnight, with no upper bound. */
  method BuildTodayFilter(tradeType: Option<string>, now: int) returns (f: CallFilter)
    ensures f.date == Some(DateRange(Some(StartOfDay(Instant(now))), None))
    ensures f.commodity.None? && f.status.None? && f.callType.None?
    ensures forall c :: Matches(f, c) <==>
              && StartOfDay(Instant(now)) <= c.date
              && (Truthy(tradeType) ==> TradeTypeName(c.tradeType) == tradeType.value)
  {
    f := EmptyFilter.(date := Some(DateRange(Some(StartOfDay(Instant(now))), None)));
    if Truthy(tradeType) {
      f := f.(tradeType := tradeType);
    }
  }

  /** The history window: from the start of `startDate` (default: seven days ago) to the end of `endDate` (default: today). */
  function HistoryRange(startDate: Option<DateInput>, endDate: Option<DateInput>, now: int): (r: DateRange)
    ensures r.gte.Some? && r.lte.Some?
    ensures startDate.None? ==> r.gte.value == StartOfDay(Instant(now)) - 7 * DayMs
    ensures startDate.Some? ==> r.gte.value == StartOfDay(startDate.value)
    ensures endDate.None? ==> r.lte.value == StartOfDay(Instant(now)) + LastMsOfDay
    ensures endDate.Some? ==> r.lte.value == StartOfDay(endDate.value) + LastMsOfDay
  {
    DaysAgo(now, 7);
    DateRange(
      Some(if startDate.Some? then StartOfDay(startDate.value) else StartOfDay(Instant(now - 7 * DayMs))),
      Some(if endDate.Some? then EndOfDay(endDate.value) else EndOfDay(Instant(now))))
  }

  /** Builds the history filter: optional commodity and trade type, then the date window. */
  method BuildHistoryFilter(q: HistoryQuery, now: int) returns (f: CallFilter)
    ensures f.date == Some(HistoryRange(q.startDate, q.endDate, now))
    ensures f.status.None? && f.callType.None?
    ensures forall c :: Matches(f, c) <==>
              && (Truthy(q.commodity) ==> c.commodity == q.commodity.value)
              && (Truthy(q.tradeType) ==> TradeTypeName(c.tradeType) == q.tradeType.value)
              && InRange(HistoryRange(q.startDate, q.endDate, now), c.date)
  {
    f := EmptyFilter;
    if Truthy(q.commodity) {
      f := f.(commodity := q.commodity);
    }
    if Truthy(q.tradeType) {
      f := f.(tradeType := q.tradeType);
    }
    f := f.(date := Some(HistoryRange(q.startDate, q.endDate, now)));
  }

  /**
   * For a normalised trading day, the default history window holds exactly the
   * eight IST days from seven days ago through today.
   */
  lemma DefaultHistoryWindow(now: int, day: int)
    requires IsIstMidnight(day)
    ensures InRange(HistoryRange(None, None, now), day) <==>
              StartOfDay(Instant(now)) - 7 * DayMs <= day <= StartOfDay(Instant(now))
  {
    if day <= StartOfDay(Instant(now)) + LastMsOfDay {
      MidnightsAreWholeDaysApart(day, StartOfDay(Instant(now)));
    }
  }

  /**
   * A call normalised from instant `x` is in today's list exactly when `x` falls
   * on today's IST day or later; calls of earlier days never are.
   */
  lemma TodayListIsTodayOrLater(now: int, x: int)
    ensures StartOfDay(Instant(now)) <= StartOfDay(Instant(x)) <==> StartOfDay(Instant(now)) <= x
  {
    var today := StartOfDay(Instant(now));
    if today <= x {
      StartOfDayMonotone(today, x);
      StartOfDayIdempotent(Instant(now));
    }
  }
}
