/**
 * The Call aggregate and its target-achievement state machine: toggling one
 * target's achieved flag and recomputing the call's status from the number of
 * achieved targets.
 */
module Calls {
  import opened Wrappers

  datatype Status = Active | PartialHit | AllHit | HitStoploss | Expired
  datatype TradeType = Intraday | Positional

  /** A target price; `order` is the display priority, unset when `None`. */
  datatype Target = Target(id: string, price: real, order: Option<int>, isAchieved: bool)

  datatype Call = Call(
    id: string,
    commodity: string,
    customCommodity: Option<string>,
    callType: string,
    entryPrice: real,
    targetPrices: seq<Target>,
    stopLoss: Option<real>,
    analysis: Option<string>,
    date: int,
    status: Status,
    tradeType: TradeType,
    createdBy: string)

  /** The stored spelling of each status, which is what a status filter compares against. */
  function StatusName(s: Status): string
  {
    match s
    case Active => "active"
    case PartialHit => "partial_hit"
    case AllHit => "all_hit"
    case HitStoploss => "hit_stoploss"
    case Expired => "expired"
  }

  function TradeTypeName(t: TradeType): string
  {
    match t
    case Intraday => "intraday"
    case Positional => "positional"
  }

  /** `targetPrices.filter(t => t.isAcheived).length`. */
  function AchievedCount(ts: seq<Target>): (n: nat)
    ensures n <= |ts|
    ensures n == 0 <==> forall j :: 0 <= j < |ts| ==> !ts[j].isAchieved
    ensures n == |ts| <==> forall j :: 0 <= j < |ts| ==> ts[j].isAchieved
  {
    if ts == [] then 0
    else AchievedCount(ts[..|ts| - 1]) + (if ts[|ts| - 1].isAchieved then 1 else 0)
  }

  /**
   * The status rule applied after a toggle: no target achieved gives active,
   * some gives partial_hit, all give all_hit. The final fall-through keeps the
   * current status; it cannot be reached because the count never exceeds the length.
   */
  function RecomputeStatus(ts: seq<Target>, current: Status): (r: Status)
    ensures AchievedCount(ts) == 0 <==> r == Active
    ensures 0 < AchievedCount(ts) < |ts| <==> r == PartialHit
    ensures 0 < AchievedCount(ts) == |ts| <==> r == AllHit
    ensures r != HitStoploss && r != Expired
  {
    var achieved := AchievedCount(ts);
    if achieved == 0 then Active
    else if achieved < |ts| then PartialHit
    else if achieved == |ts| then AllHit
    else current
  }

  /** The call's stored status is the one its targets dictate. */
  predicate StatusConsistent(c: Call)
  {
    c.status == RecomputeStatus(c.targetPrices, c.status)
  }

  /** `call.targetPrices.id(targetId)`: the position of the first target with that id. */
  function FindTarget(ts: seq<Target>, targetId: string): (r: Option<nat>)
    ensures r.Some? ==> r.value < |ts| && ts[r.value].id == targetId
    ensures r.Some? ==> forall j :: 0 <= j < r.value ==> ts[j].id != targetId
    ensures r.None? <==> forall j :: 0 <= j < |ts| ==> ts[j].id != targetId
  {
    if ts == [] then None
    else if ts[0].id == targetId then Some(0)
    else match FindTarget(ts[1..], targetId)
      case None => None
      case Some(k) => Some(k + 1)
  }

  /** The call after target `i` is set to `achieved` and the status recomputed. */
  function ToggledCall(c: Call, i: nat, achieved: bool): (r: Call)
    requires i < |c.targetPrices|
    ensures |r.targetPrices| == |c.targetPrices|
    ensures r.targetPrices[i] == c.targetPrices[i].(isAchieved := achieved)
    ensures forall j :: 0 <= j < |c.targetPrices| && j != i ==> r.targetPrices[j] == c.targetPrices[j]
    ensures r.(targetPrices := c.targetPrices, status := c.status) == c
    ensures StatusConsistent(r)
  {
    var ts := c.targetPrices[i := c.targetPrices[i].(isAchieved := achieved)];
    c.(targetPrices := ts, status := RecomputeStatus(ts, c.status))
  }

  /** `call.targetPrices.id(targetId)`: a scan for the first target with the id. */
  method LocateTarget(ts: seq<Target>, targetId: string) returns (r: Option<nat>)
    ensures r.Some? ==> r.value < |ts| && ts[r.value].id == targetId
    ensures r.Some? ==> forall j :: 0 <= j < r.value ==> ts[j].id != targetId
    ensures r.None? <==> forall j :: 0 <= j < |ts| ==> ts[j].id != targetId
  {
    var i := 0;
    while i < |ts|
      invariant 0 <= i <= |ts|
      invariant forall j :: 0 <= j < i ==> ts[j].id != targetId
    {
      if ts[i].id == targetId {
        return Some(i);
      }
      i := i + 1;
    }
    r := None;
  }

  /** `targetPrices.filter(t => t.isAcheived).length`, counted in one pass. */
  method CountAchieved(ts: seq<Target>) returns (count: nat)
    ensures count <= |ts|
    ensures count == 0 <==> forall j :: 0 <= j < |ts| ==> !ts[j].isAchieved
    ensures count == |ts| <==> forall j :: 0 <= j < |ts| ==> ts[j].isAchieved
    ensures count == AchievedCount(ts)
  {
    count := 0;
    var k := 0;
    while k < |ts|
      invariant 0 <= k <= |ts|
      invariant count == AchievedCount(ts[..k])
    {
      assert ts[..k + 1][..k] == ts[..k];
      count := count + if ts[k].isAchieved then 1 else 0;
      k := k + 1;
    }
    assert ts[..k] == ts;
  }

  /**
   * `updateTargetStatus` on a loaded call: look the target up, flip its flag,
   * count the achieved targets and pick the status. An unknown target id is a 404.
   */
  method SetTargetAchieved(c: Call, targetId: string, achieved: bool) returns (r: Result<Call>)
    ensures r.Err? <==> FindTarget(c.targetPrices, targetId).None?
    ensures r.Err? ==> r.error == NotFound
    ensures r.Ok? ==> r.value == ToggledCall(c, FindTarget(c.targetPrices, targetId).value, achieved)
  {
    var found := LocateTarget(c.targetPrices, targetId);
    if found.None? {
      return Err(NotFound);
    }
    var i := found.value;
    assert FindTarget(c.targetPrices, targetId) == Some(i);
    var ts := c.targetPrices[i := c.targetPrices[i].(isAchieved := achieved)];
    var total := |ts|;
    var count := CountAchieved(ts);
    var status := c.status;
    if count == 0 {
      status := Active;
    } else if count < total {
      status := PartialHit;
    } else if count == total {
      status := AllHit;
    }
    r := Ok(c.(targetPrices := ts, status := status));
  }

  /** Setting a target to the value it already has changes nothing more. */
  lemma ToggleIdempotent(c: Call, i: nat, achieved: bool)
    requires i < |c.targetPrices|
    ensures ToggledCall(ToggledCall(c, i, achieved), i, achieved) == ToggledCall(c, i, achieved)
  {
    var once := ToggledCall(c, i, achieved);
    assert once.targetPrices[i := once.targetPrices[i].(isAchieved := achieved)] == once.targetPrices;
  }

  /** Recomputing on an unchanged target list gives the same status. */
  lemma RecomputeIdempotent(ts: seq<Target>, s: Status)
    ensures RecomputeStatus(ts, RecomputeStatus(ts, s)) == RecomputeStatus(ts, s)
  {
  }

  /** The rule does not treat stop-loss or expiry as terminal: a toggle overwrites them. */
  lemma ToggleOverridesTerminalStatus(c: Call, i: nat, achieved: bool)
    requires i < |c.targetPrices|
    requires c.status == HitStoploss || c.status == Expired
    ensures ToggledCall(c, i, achieved).status != c.status
  {
  }

  /** One toggle request against a call; an unknown target id leaves the call as it was. */
  function ApplyToggle(c: Call, targetId: string, achieved: bool): (r: Call)
    ensures FindTarget(c.targetPrices, targetId).None? ==> r == c
    ensures FindTarget(c.targetPrices, targetId).Some? ==> StatusConsistent(r)
  {
    match FindTarget(c.targetPrices, targetId)
    case None => c
    case Some(i) => ToggledCall(c, i, achieved)
  }

  /** Replays a sequence of toggle requests in order. */
  function ApplyToggles(c: Call, requests: seq<(string, bool)>): Call
    decreases |requests|
  {
    if requests == [] then c
    else ApplyToggles(ApplyToggle(c, requests[0].0, requests[0].1), requests[1..])
  }

  /** After any sequence of toggles of which at least one hit a target, the status follows the achieved count. */
  lemma {:induction false} TogglesKeepStatusConsistent(c: Call, requests: seq<(string, bool)>)
    requires StatusConsistent(c) || exists k :: 0 <= k < |requests| && FindTarget(c.targetPrices, requests[k].0).Some?
    ensures StatusConsistent(ApplyToggles(c, requests))
    decreases |requests|
  {
    if requests != [] {
      var next := ApplyToggle(c, requests[0].0, requests[0].1);
      if !StatusConsistent(next) {
        assert next == c;
        var k :| 0 <= k < |requests| && FindTarget(c.targetPrices, requests[k].0).Some?;
        assert requests[1..][k - 1] == requests[k];
      }
      TogglesKeepStatusConsistent(next, requests[1..]);
    }
  }

  /** Three targets, none achieved: marking the second gives partial_hit, marking all three gives all_hit. */
  lemma ThreeTargetScenario(c: Call)
    requires |c.targetPrices| == 3 && forall j :: 0 <= j < 3 ==> !c.targetPrices[j].isAchieved
    ensures RecomputeStatus(c.targetPrices, c.status) == Active
    ensures ToggledCall(c, 1, true).status == PartialHit
    ensures ToggledCall(ToggledCall(ToggledCall(c, 1, true), 0, true), 2, true).status == AllHit
  {
    var c3 := ToggledCall(ToggledCall(ToggledCall(c, 1, true), 0, true), 2, true);
    assert forall j :: 0 <= j < 3 ==> c3.targetPrices[j].isAchieved;
  }
}
