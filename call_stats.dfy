/**
 * Performance statistics over the stored calls: status counters, the accuracy
 * ratio, and the same per commodity sorted by commodity name. The database
 * aggregation is modelled as a fold over the calls.
 */
module CallStats {
  import opened Calls
  import Text

  datatype Stats = Stats(
    totalCalls: nat,
    hitTarget: nat,
    allTargetsHit: nat,
    hitStoploss: nat,
    activeCalls: nat,
    expiredCalls: nat)

  /** The result when the aggregation returns no group. */
  const ZeroStats: Stats := Stats(0, 0, 0, 0, 0, 0)

  /** How many calls have status `s`. */
  function CountStatus(calls: seq<Call>, s: Status): (n: nat)
    ensures n <= |calls|
    ensures n == 0 <==> forall i :: 0 <= i < |calls| ==> calls[i].status != s
    ensures n == |calls| <==> forall i :: 0 <= i < |calls| ==> calls[i].status == s
  {
    if calls == [] then 0
    else CountStatus(calls[..|calls| - 1], s) + (if calls[|calls| - 1].status == s then 1 else 0)
  }

  /** One call's contribution to each `$sum` of the `$group` stage. */
  function Tally(c: Call): Stats
  {
    Stats(1,
      if c.status == PartialHit || c.status == AllHit then 1 else 0,
      if c.status == AllHit then 1 else 0,
      if c.status == HitStoploss then 1 else 0,
      if c.status == Active then 1 else 0,
      if c.status == Expired then 1 else 0)
  }

  function Add(a: Stats, b: Stats): Stats
  {
    Stats(a.totalCalls + b.totalCalls, a.hitTarget + b.hitTarget, a.allTargetsHit + b.allTargetsHit,
      a.hitStoploss + b.hitStoploss, a.activeCalls + b.activeCalls, a.expiredCalls + b.expiredCalls)
  }

  /** The `$group` stage with `_id: null`, or the zero record when there are no calls. */
  function StatsOf(calls: seq<Call>): (r: Stats)
    ensures r.totalCalls == |calls|
    ensures r.hitTarget == CountStatus(calls, PartialHit) + CountStatus(calls, AllHit)
    ensures r.allTargetsHit == CountStatus(calls, AllHit)
    ensures r.hitStoploss == CountStatus(calls, HitStoploss)
    ensures r.activeCalls == CountStatus(calls, Active)
    ensures r.expiredCalls == CountStatus(calls, Expired)
    ensures r.allTargetsHit <= r.hitTarget <= r.totalCalls
    ensures r.hitTarget + r.hitStoploss + r.activeCalls + r.expiredCalls == r.totalCalls
  {
    if calls == [] then ZeroStats
    else Add(StatsOf(calls[..|calls| - 1]), Tally(calls[|calls| - 1]))
  }

  /**
   * hitTarget / (hitTarget + hitStoploss) * 100, or 0 when no call has been
   * decided, as an exact rational (the two-decimal float rounding is not modelled).
   */
  function Accuracy(hitTarget: nat, hitStoploss: nat): (a: real)
    ensures 0.0 <= a <= 100.0
    ensures hitTarget + hitStoploss == 0 ==> a == 0.0
    ensures hitTarget + hitStoploss > 0 ==> a * (hitTarget + hitStoploss) as real == 100.0 * hitTarget as real
    ensures hitStoploss == 0 && hitTarget > 0 ==> a == 100.0
  {
    var completed := hitTarget + hitStoploss;
    if completed == 0 then 0.0
    else (hitTarget as real / completed as real) * 100.0
  }

  /** Ten calls with four all_hit, two partial_hit and one hit_stoploss: six hits and 85.71% accuracy. */
  lemma TenCallScenario(calls: seq<Call>)
    requires |calls| == 10
    requires CountStatus(calls, AllHit) == 4 && CountStatus(calls, PartialHit) == 2
    requires CountStatus(calls, HitStoploss) == 1
    ensures StatsOf(calls).hitTarget == 6
    ensures Accuracy(StatsOf(calls).hitTarget, StatsOf(calls).hitStoploss) == 600.0 / 7.0
    ensures 85.705 <= Accuracy(StatsOf(calls).hitTarget, StatsOf(calls).hitStoploss) < 85.715
  {
  }

  /** One row of the per-commodity breakdown. */
  datatype CommodityStats = CommodityStats(commodity: string, totalCalls: nat, hitTarget: nat, hitStoploss: nat, accuracy: real)

  /** The calls of one commodity, in stored order. */
  function OfCommodity(calls: seq<Call>, commodity: string): (r: seq<Call>)
    ensures forall c :: c in r <==> c in calls && c.commodity == commodity
  {
    if calls == [] then []
    else (if calls[0].commodity == commodity then [calls[0]] else []) + OfCommodity(calls[1..], commodity)
  }

  predicate StrictlyAscending(names: seq<string>)
  {
    forall i, j :: 0 <= i < j < |names| ==> Text.Less(names[i], names[j])
  }

  /** Adds `name` to an ascending list of distinct names. */
  function InsertName(name: string, names: seq<string>): (r: seq<string>)
    ensures forall n :: n in r <==> n in names || n == name
  {
    if names == [] then [name]
    else if name == names[0] then names
    else if Text.Less(name, names[0]) then [name] + names
    else [names[0]] + InsertName(name, names[1..])
  }

  lemma {:induction false} InsertNameAscending(name: string, names: seq<string>)
    requires StrictlyAscending(names)
    ensures StrictlyAscending(InsertName(name, names))
  {
    if names != [] && name != names[0] && !Text.Less(name, names[0]) {
      Text.LessTotal(name, names[0]);
      InsertNameAscending(name, names[1..]);
      var rest := InsertName(name, names[1..]);
      var r := InsertName(name, names);
      assert r == [names[0]] + rest;
      forall i, j | 0 <= i < j < |r| ensures Text.Less(r[i], r[j]) {
        if i == 0 {
          assert r[j] == rest[j - 1] && rest[j - 1] in rest;
        } else {
          assert r[i] == rest[i - 1] && r[j] == rest[j - 1];
        }
      }
    } else if names != [] && name != names[0] {
      forall j | 0 <= j < |names| ensures Text.Less(name, names[j]) {
        if j > 0 { Text.LessTransitive(name, names[0], names[j]); }
      }
    }
  }

  /** The distinct commodities of the calls, ascending: the `_id`s of the grouping after `$sort`. */
  function Commodities(calls: seq<Call>): (r: seq<string>)
    ensures StrictlyAscending(r)
    ensures forall n :: n in r <==> exists c :: c in calls && c.commodity == n
  {
    if calls == [] then []
    else
      var rest := Commodities(calls[..|calls| - 1]);
      InsertNameAscending(calls[|calls| - 1].commodity, rest);
      var r := InsertName(calls[|calls| - 1].commodity, rest);
      assert calls == calls[..|calls| - 1] + [calls[|calls| - 1]];
      r
  }

  function CommodityRow(calls: seq<Call>, commodity: string): (r: CommodityStats)
    ensures r.commodity == commodity
    ensures r.totalCalls == |OfCommodity(calls, commodity)|
    ensures r.hitTarget == StatsOf(OfCommodity(calls, commodity)).hitTarget
    ensures r.hitStoploss == StatsOf(OfCommodity(calls, commodity)).hitStoploss
    ensures r.accuracy == Accuracy(r.hitTarget, r.hitStoploss)
    ensures 0.0 <= r.accuracy <= 100.0
  {
    var s := StatsOf(OfCommodity(calls, commodity));
    var a := Accuracy(s.hitTarget, s.hitStoploss);
    CommodityStats(commodity, s.totalCalls, s.hitTarget, s.hitStoploss, a)
  }

  /** `getStatsByCommodity`: one row per commodity present, ascending by commodity. */
  function StatsByCommodity(calls: seq<Call>): (r: seq<CommodityStats>)
    ensures |r| == |Commodities(calls)|
    ensures forall i :: 0 <= i < |r| ==> r[i].commodity == Commodities(calls)[i]
    ensures forall i :: 0 <= i < |r| ==> r[i] == CommodityRow(calls, r[i].commodity) && r[i].totalCalls > 0
  {
    var names := Commodities(calls);
    var r := seq(|names|, i requires 0 <= i < |names| => CommodityRow(calls, names[i]));
    forall i | 0 <= i < |r| ensures r[i].totalCalls > 0 {
      assert names[i] in names;
      var c :| c in calls && c.commodity == names[i];
      assert c in OfCommodity(calls, names[i]);
    }
    r
  }

  /** The breakdown is ascending by commodity and lists exactly the commodities that occur. */
  lemma StatsByCommodityRows(calls: seq<Call>, n: string)
    ensures forall i, j :: 0 <= i < j < |StatsByCommodity(calls)| ==>
              Text.Less(StatsByCommodity(calls)[i].commodity, StatsByCommodity(calls)[j].commodity)
    ensures (exists c :: c in calls && c.commodity == n) <==>
              exists i :: 0 <= i < |StatsByCommodity(calls)| && StatsByCommodity(calls)[i].commodity == n
  {
    var r := StatsByCommodity(calls);
    var names := Commodities(calls);
    if exists c :: c in calls && c.commodity == n {
      assert n in names;
      var i :| 0 <= i < |names| && names[i] == n;
      assert r[i].commodity == n;
    }
  }
}
