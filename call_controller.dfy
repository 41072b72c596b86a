/**
 * The call controller over an in-memory call collection: create, read,
 * update and delete calls, toggle a target, list today's calls and the
 * history through the subscriber's projection, and compute the statistics.
 */
module CallController {
  import opened Wrappers
  import opened Calls
  import opened Calendar
  import opened CallQueries
  import opened CallStats
  import opened Visibility
  import opened UserModel

  /**
   * The body of a create request; a missing `date` is the current instant,
   * `status` and `tradeType` fall back to active and intraday.
   */
  datatype NewCall = NewCall(
    commodity: string,
    customCommodity: Option<string>,
    callType: string,
    entryPrice: real,
    targetPrices: seq<Target>,
    stopLoss: Option<real>,
    analysis: Option<string>,
    date: Option<DateInput>,
    status: Option<Status>,
    tradeType: Option<TradeType>)

  /** The body of an update request: every field present overwrites the stored one. */
  datatype CallPatch = CallPatch(
    commodity: Option<string>,
    customCommodity: Option<string>,
    callType: Option<string>,
    entryPrice: Option<real>,
    targetPrices: Option<seq<Target>>,
    stopLoss: Option<real>,
    analysis: Option<string>,
    date: Option<DateInput>,
    status: Option<Status>,
    tradeType: Option<TradeType>)

  function Override<T>(stored: T, given: Option<T>): T
  {
    if given.Some? then given.value else stored
  }

  /**
   * The stored call after an update. A sent date is normalised to its IST
   * midnight only when it is truthy: the number 0 is stored as it is, the
   * instant 1970-01-01T00:00Z.
   */
  function Patched(c: Call, p: CallPatch): (r: Call)
    ensures r.id == c.id && r.createdBy == c.createdBy
    ensures p.date.Some? && p.date.value != Instant(0) ==> r.date == StartOfDay(p.date.value) && IsIstMidnight(r.date)
    ensures p.date == Some(Instant(0)) ==> r.date == 0 && !IsIstMidnight(r.date)
    ensures p.date.None? ==> r.date == c.date
    ensures p.status.None? ==> r.status == c.status
    ensures p == CallPatch(None, None, None, None, None, None, None, None, None, None) ==> r == c
  {
    Call(c.id,
      Override(c.commodity, p.commodity),
      if p.customCommodity.Some? then p.customCommodity else c.customCommodity,
      Override(c.callType, p.callType),
      Override(c.entryPrice, p.entryPrice),
      Override(c.targetPrices, p.targetPrices),
      if p.stopLoss.Some? then p.stopLoss else c.stopLoss,
      if p.analysis.Some? then p.analysis else c.analysis,
      if p.date.None? then c.date else if p.date.value == Instant(0) then 0 else StartOfDay(p.date.value),
      Override(c.status, p.status),
      Override(c.tradeType, p.tradeType),
      c.createdBy)
  }

  /** The position of the call with id `id`. */
  function FindCall(calls: seq<Call>, id: string): (r: Option<nat>)
    ensures r.Some? ==> r.value < |calls| && calls[r.value].id == id
    ensures r.None? <==> forall j :: 0 <= j < |calls| ==> calls[j].id != id
  {
    if calls == [] then None
    else if calls[0].id == id then Some(0)
    else match FindCall(calls[1..], id)
      case None => None
      case Some(k) => Some(k + 1)
  }

  predicate UniqueIds(calls: seq<Call>)
  {
    forall i, j :: 0 <= i < j < |calls| ==> calls[i].id != calls[j].id
  }

  class CallStore {
    var calls: seq<Call>

    ghost predicate Valid()
      reads this
    {
      UniqueIds(calls)
    }

    constructor ()
      ensures Valid() && calls == []
    {
      calls := [];
    }

    /**
     * `createCall`: the trading day (today when none is sent) is normalised,
     * status and trade type get their defaults; a date that does not exist
     * fails the cast and nothing is stored.
     */
    method CreateCall(id: string, body: NewCall, adminId: string, now: int) returns (r: Result<Call>)
      requires Valid() && FindCall(calls, id).None?
      modifies this
      ensures Valid()
      ensures r.Err? <==> body.date.Some? && !ValidInput(body.date.value)
      ensures r.Err? ==> r.error == InvalidDate && calls == old(calls)
      ensures r.Ok? ==> var c := r.value;
                        && calls == old(calls) + [c]
                        && c.id == id && c.createdBy == adminId && c.targetPrices == body.targetPrices
                        && c.commodity == body.commodity && c.customCommodity == body.customCommodity
                        && c.callType == body.callType && c.entryPrice == body.entryPrice
                        && c.stopLoss == body.stopLoss && c.analysis == body.analysis
                        && c.date == StartOfDay(if body.date.Some? then body.date.value else Instant(now))
                        && IsIstMidnight(c.date)
                        && c.status == (if body.status.Some? then body.status.value else Active)
                        && c.tradeType == (if body.tradeType.Some? then body.tradeType.value else Intraday)
    {
      var day := if body.date.Some? then body.date.value else Instant(now);
      if !ValidInput(day) {
        return Err(InvalidDate);
      }
      var c := Call(id, body.commodity, body.customCommodity, body.callType, body.entryPrice,
        body.targetPrices, body.stopLoss, body.analysis, StartOfDay(day),
        if body.status.Some? then body.status.value else Active,
        if body.tradeType.Some? then body.tradeType.value else Intraday,
        adminId);
      calls := calls + [c];
      r := Ok(c);
    }

    method GetCallById(id: string) returns (r: Result<Call>)
      ensures r.Err? <==> FindCall(calls, id).None?
      ensures r.Err? ==> r.error == NotFound
      ensures r.Ok? ==> r.value == calls[FindCall(calls, id).value] && r.value.id == id
    {
      var i := FindCall(calls, id);
      if i.None? {
        return Err(NotFound);
      }
      r := Ok(calls[i.value]);
    }

    /**
     * `updateCall`: overwrite the given fields; an unknown id is a 404, a date
     * that does not exist fails the cast, and in both cases nothing changes.
     */
    method UpdateCall(id: string, patch: CallPatch) returns (r: Result<Call>)
      requires Valid()
      modifies this
      ensures Valid()
      ensures r.Err? <==> FindCall(old(calls), id).None? || (patch.date.Some? && !ValidInput(patch.date.value))
      ensures r.Err? ==> calls == old(calls)
      ensures r.Err? ==> r.error == (if patch.date.Some? && !ValidInput(patch.date.value) then InvalidDate else NotFound)
      ensures r.Ok? ==> var i := FindCall(old(calls), id).value;
                        r.value == Patched(old(calls)[i], patch) && calls == old(calls)[i := r.value]
    {
      if patch.date.Some? && !ValidInput(patch.date.value) {
        return Err(InvalidDate);
      }
      var i := FindCall(calls, id);
      if i.None? {
        return Err(NotFound);
      }
      var updated := Patched(calls[i.value], patch);
      calls := calls[i.value := updated];
      r := Ok(updated);
    }

    /** `deleteCall`: remove the call; an unknown id is a 404. */
    method DeleteCall(id: string) returns (r: Result<()>)
      requires Valid()
      modifies this
      ensures Valid()
      ensures r.Err? <==> FindCall(old(calls), id).None?
      ensures r.Err? ==> r.error == NotFound && calls == old(calls)
      ensures r.Ok? ==> forall c :: c in calls <==> c in old(calls) && c.id != id
      ensures r.Ok? ==> |calls| == |old(calls)| - 1
    {
      var i := FindCall(calls, id);
      if i.None? {
        return Err(NotFound);
      }
      var k := i.value;
      forall c | c in calls[..k] + calls[k + 1..] ensures c.id != id {
        var j :| 0 <= j < |calls[..k] + calls[k + 1..]| && (calls[..k] + calls[k + 1..])[j] == c;
        if j < k { assert c == calls[j]; } else { assert c == calls[j + 1]; }
      }
      assert calls == calls[..k] + [calls[k]] + calls[k + 1..];
      calls := calls[..k] + calls[k + 1..];
      r := Ok(());
    }

    /**
     * `updateTargetStatus`: an unknown call or target id is a 404 and nothing is
     * saved; otherwise the toggled call replaces the stored one.
     */
    method UpdateTargetStatus(id: string, targetId: string, achieved: bool) returns (r: Result<Call>)
      requires Valid()
      modifies this
      ensures Valid()
      ensures r.Err? ==> r.error == NotFound && calls == old(calls)
      ensures FindCall(old(calls), id).None? ==> r.Err?
      ensures r.Ok? <==> FindCall(old(calls), id).Some?
                         && FindTarget(old(calls)[FindCall(old(calls), id).value].targetPrices, targetId).Some?
      ensures r.Ok? ==> var i := FindCall(old(calls), id).value;
                        var c := old(calls)[i];
                        r.value == ToggledCall(c, FindTarget(c.targetPrices, targetId).value, achieved)
                        && calls == old(calls)[i := r.value]
                        && StatusConsistent(r.value)
    {
      var i := FindCall(calls, id);
      if i.None? {
        return Err(NotFound);
      }
      r := SetTargetAchieved(calls[i.value], targetId, achieved);
      if r.Ok? {
        calls := calls[i.value := r.value];
      }
    }

    /** `getAllCalls` before sorting and paging: the calls the admin filter selects. */
    method GetAllCalls(q: AdminCallQuery) returns (r: seq<Call>, sort: SortSpec)
      ensures forall c :: c in r <==>
                && c in calls
                && (Truthy(q.commodity) ==> c.commodity == q.commodity.value)
                && (Truthy(q.status) ==> StatusName(c.status) == q.status.value)
                && (Truthy(q.callType) ==> c.callType == q.callType.value)
                && (Truthy(q.tradeType) ==> TradeTypeName(c.tradeType) == q.tradeType.value)
                && (q.startDate.Some? ==> StartOfDay(q.startDate.value) <= c.date)
                && (q.endDate.Some? ==> c.date <= EndOfDay(q.endDate.value))
      ensures sort.field == (if Truthy(q.sortBy) then q.sortBy.value else "date")
    {
      var f;
      f, sort := BuildAdminFilter(q);
      r := Select(calls, f);
    }

    /** `getTodayCalls`: today's and later calls, each projected for the subscriber. */
    method GetTodayCalls(tradeType: Option<string>, now: int, sub: Option<Subscription>) returns (r: seq<Call>)
      ensures forall v :: v in r <==>
                exists c ::
                  && c in calls && v == ProjectCall(c, sub)
                  && StartOfDay(Instant(now)) <= c.date
                  && (Truthy(tradeType) ==> TradeTypeName(c.tradeType) == tradeType.value)
      ensures forall v :: v in r ==> |v.targetPrices| <= if VisibleLimit(sub) > 0 then VisibleLimit(sub) else |v.targetPrices|
    {
      var f := BuildTodayFilter(tradeType, now);
      var selected := Select(calls, f);
      r := ProjectCalls(selected, sub);
      forall v | v in r
        ensures exists c :: c in calls && v == ProjectCall(c, sub) && Matches(f, c)
      {
        var i :| 0 <= i < |r| && r[i] == v;
        assert selected[i] in selected;
      }
      forall c | c in calls && Matches(f, c) ensures ProjectCall(c, sub) in r {
        var i :| 0 <= i < |selected| && selected[i] == c;
        assert r[i] == ProjectCall(c, sub);
      }
    }

    /** `getCallHistory` before paging: the calls of the window, each projected for the subscriber. */
    method GetCallHistory(q: HistoryQuery, now: int, sub: Option<Subscription>) returns (r: seq<Call>)
      ensures forall v :: v in r <==>
                exists c ::
                  && c in calls && v == ProjectCall(c, sub)
                  && (Truthy(q.commodity) ==> c.commodity == q.commodity.value)
                  && (Truthy(q.tradeType) ==> TradeTypeName(c.tradeType) == q.tradeType.value)
                  && InRange(HistoryRange(q.startDate, q.endDate, now), c.date)
    {
      var f := BuildHistoryFilter(q, now);
      var selected := Select(calls, f);
      r := ProjectCalls(selected, sub);
      forall v | v in r
        ensures exists c :: c in calls && v == ProjectCall(c, sub) && Matches(f, c)
      {
        var i :| 0 <= i < |r| && r[i] == v;
        assert selected[i] in selected;
      }
      forall c | c in calls && Matches(f, c) ensures ProjectCall(c, sub) in r {
        var i :| 0 <= i < |selected| && selected[i] == c;
        assert r[i] == ProjectCall(c, sub);
      }
    }

    /**
     * `getCallStats`: the counters over every stored call and the accuracy,
     * the share of decided calls (hit or stop loss) that hit, as a percentage.
     */
    method GetCallStats() returns (s: Stats, accuracy: real)
      ensures s.totalCalls == |calls| && s.allTargetsHit <= s.hitTarget <= s.totalCalls
      ensures s.hitTarget == CountStatus(calls, PartialHit) + CountStatus(calls, AllHit)
      ensures s.allTargetsHit == CountStatus(calls, AllHit)
      ensures s.hitStoploss == CountStatus(calls, HitStoploss)
      ensures s.activeCalls == CountStatus(calls, Active)
      ensures s.expiredCalls == CountStatus(calls, Expired)
      ensures accuracy == Accuracy(s.hitTarget, s.hitStoploss)
    {
      s := StatsOf(calls);
      accuracy := Accuracy(s.hitTarget, s.hitStoploss);
    }

    /** `getStatsByCommodity`: one row per commodity, ascending by commodity. */
    method GetStatsByCommodity() returns (rows: seq<CommodityStats>)
      ensures |rows| == |Commodities(calls)|
      ensures forall i :: 0 <= i < |rows| ==> rows[i] == CommodityRow(calls, Commodities(calls)[i])
    {
      rows := StatsByCommodity(calls);
    }
  }
}
