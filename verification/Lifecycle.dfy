/** Turning a strategy's decision into execution intents. */
module Lifecycle {
  import opened Wrappers
  import opened Market

  datatype Direction = Long | Short | Flat | Undirected

  datatype TargetItem = TargetItem(exchange: string, symbol: Symbol, targetQty: Option<real>)

  datatype Decision =
    | Pass
    | TargetPosition(time: Instant, items: seq<TargetItem>)
    | Signal(time: Instant, item: TargetItem, direction: Direction)

  datatype ExecutionPolicy = ExecutionPolicy(orderType: OrderType, reduceOnlyOnExit: bool, allowPositionFlip: bool)

  datatype Venue = Venue(exchange: string, universe: set<Symbol>, execution: ExecutionPolicy)

  datatype Intent = Intent(
    symbol: Symbol,
    time: Instant,
    currentQty: real,
    targetQty: real,
    deltaQty: real,
    side: Side,
    orderType: OrderType,
    limitPrice: Option<real>,
    reduceOnly: bool)

  function CurrentQty(positions: map<Symbol, real>, s: Symbol): real {
    if s in positions then positions[s] else 0.0
  }

  function IsReduceOnly(current: real, target: real): bool {
    if Sign(current) == 0 then false
    else if Sign(target) == 0 then true
    else Sign(current) == Sign(target) && Abs(target) < Abs(current)
  }

  predicate Flips(current: real, target: real) {
    Sign(current) != 0 && Sign(target) != 0 && Sign(current) != Sign(target)
  }

  /** The intent of one target item; none when the position is already there. */
  function PlanItem(
    v: Venue, time: Instant, item: TargetItem, positions: map<Symbol, real>): Result<seq<Intent>, Error> {
    var current := CurrentQty(positions, item.symbol);
    if item.exchange != v.exchange || item.symbol !in v.universe || item.targetQty.None? then
      Raised(PlanningError)
    else if item.targetQty.value == current then
      Ok([])
    else if Flips(current, item.targetQty.value) && !v.execution.allowPositionFlip then
      Raised(PlanningError)
    else
      var target := item.targetQty.value;
      Ok([Intent(item.symbol, time, current, target, target - current, if target > current then Buy else Sell,
                 v.execution.orderType, None, IsReduceOnly(current, target) && v.execution.reduceOnlyOnExit)])
  }

  function PlanItems(
    v: Venue, time: Instant, items: seq<TargetItem>, positions: map<Symbol, real>): Result<seq<Intent>, Error> {
    if items == [] then Ok([]) else
      var earlier :- PlanItems(v, time, items[..|items| - 1], positions);
      var last :- PlanItem(v, time, items[|items| - 1], positions);
      Ok(earlier + last)
  }

  /** A signal is a target for one symbol, negated when it is short and zero when it is flat. */
  function SignalTarget(d: Decision): Result<seq<TargetItem>, Error>
    requires d.Signal?
  {
    if d.item.targetQty.None? then Raised(PlanningError) else
      var qty := d.item.targetQty.value;
      var signed := if d.direction.Short? && qty > 0.0 then -qty else if d.direction.Flat? then 0.0 else qty;
      Ok([d.item.(targetQty := Some(signed))])
  }

  function Targets(d: Decision): Result<seq<TargetItem>, Error> {
    match d
    case Pass => Ok([])
    case TargetPosition(_, items) => Ok(items)
    case Signal(_, _, _) => SignalTarget(d)
  }

  function Plan(v: Venue, d: Decision, positions: map<Symbol, real>): Result<seq<Intent>, Error> {
    if d.Pass? then Ok([]) else
      var items :- Targets(d);
      PlanItems(v, d.time, items, positions)
  }

  /** An intent moves a held quantity to a different target, and is reduce-only only if it really reduces. */
  predicate Coherent(i: Intent, positions: map<Symbol, real>) {
    && i.currentQty == CurrentQty(positions, i.symbol)
    && i.deltaQty == i.targetQty - i.currentQty
    && i.deltaQty != 0.0
    && i.currentQty + Signed(i.side, Abs(i.deltaQty)) == i.targetQty
    && (i.reduceOnly ==> IsReduceOnly(i.currentQty, i.targetQty))
  }

  /** Every planned intent is coherent, inside the universe, and takes the policy's order type. */
  lemma {:induction false} PlannedIntentsAreCoherent(
    v: Venue, time: Instant, items: seq<TargetItem>, positions: map<Symbol, real>)
    requires PlanItems(v, time, items, positions).Ok?
    ensures forall i :: i in PlanItems(v, time, items, positions).value ==>
              && Coherent(i, positions)
              && i.symbol in v.universe
              && i.orderType == v.execution.orderType
              && i.limitPrice == None
              && exists item :: item in items && item.symbol == i.symbol && item.targetQty == Some(i.targetQty)
  {
    if items != [] {
      PlannedIntentsAreCoherent(v, time, items[..|items| - 1], positions);
      assert items[|items| - 1] in items;
      assert forall item :: item in items[..|items| - 1] ==> item in items;
    }
  }

  /** A target the plan does not act on is one the position already has. */
  lemma {:induction false} PlanCoversTargets(
    v: Venue, time: Instant, items: seq<TargetItem>, positions: map<Symbol, real>, item: TargetItem)
    requires PlanItems(v, time, items, positions).Ok? && item in items
    ensures item.targetQty.Some?
    ensures CurrentQty(positions, item.symbol) == item.targetQty.value
            || exists i ::
                 && i in PlanItems(v, time, items, positions).value
                 && i.symbol == item.symbol && i.targetQty == item.targetQty.value
  {
    var last := items[|items| - 1];
    var planned := PlanItems(v, time, items, positions).value;
    if item == last {
      var own := PlanItem(v, time, last, positions).value;
      if own != [] {
        assert own[0] in planned;
      }
    } else {
      PlanCoversTargets(v, time, items[..|items| - 1], positions, item);
      var earlier := PlanItems(v, time, items[..|items| - 1], positions).value;
      assert forall i :: i in earlier ==> i in planned;
    }
  }

  /** One is long and the other short. */
  predicate Opposite(a: real, b: real) {
    (a > 0.0 && b < 0.0) || (a < 0.0 && b > 0.0)
  }

  /** An item that may be planned: on the venue, with a target, and flipping the position only if that is allowed. */
  predicate Admissible(v: Venue, item: TargetItem, positions: map<Symbol, real>) {
    && item.exchange == v.exchange && item.symbol in v.universe && item.targetQty.Some?
    && (Opposite(CurrentQty(positions, item.symbol), item.targetQty.value) ==> v.execution.allowPositionFlip)
  }

  /** The targets that differ from what is held, in order. */
  function Moves(items: seq<TargetItem>, positions: map<Symbol, real>): seq<(Symbol, real)>
    requires forall item :: item in items ==> item.targetQty.Some?
  {
    if items == [] then [] else
      var last := items[|items| - 1];
      Moves(items[..|items| - 1], positions) +
      if last.targetQty.value == CurrentQty(positions, last.symbol) then [] else [(last.symbol, last.targetQty.value)]
  }

  /** Planning raises exactly when some item is not admissible; otherwise it has one intent for every move, in order. */
  lemma {:induction false} PlanIsTheMoves(v: Venue, time: Instant, items: seq<TargetItem>, positions: map<Symbol, real>)
    ensures PlanItems(v, time, items, positions).Ok? <==> forall item :: item in items ==>
            Admissible(v, item, positions)
    ensures PlanItems(v, time, items, positions).Ok? ==>
              var intents, moves := PlanItems(v, time, items, positions).value, Moves(items, positions);
              && |intents| == |moves|
              && forall k :: 0 <= k < |intents| ==>
                   && (intents[k].symbol, intents[k].targetQty) == moves[k] && intents[k].time == time
                   && (intents[k].reduceOnly <==>
                        IsReduceOnly(intents[k].currentQty, intents[k].targetQty) && v.execution.reduceOnlyOnExit)
  {
    if items != [] {
      var init, last := items[..|items| - 1], items[|items| - 1];
      PlanIsTheMoves(v, time, init, positions);
      assert forall item :: item in items <==> item in init || item == last;
      ItemIsOneMove(v, time, last, positions);
      hide PlanItem, Admissible;
    }
  }

  lemma ItemIsOneMove(v: Venue, time: Instant, item: TargetItem, positions: map<Symbol, real>)
    ensures PlanItem(v, time, item, positions).Ok? <==> Admissible(v, item, positions)
    ensures Admissible(v, item, positions) ==>
              item.targetQty.Some? &&
              var intents := PlanItem(v, time, item, positions).value;
              if item.targetQty.value == CurrentQty(positions, item.symbol) then intents == []
              else
                && |intents| == 1 && (intents[0].symbol, intents[0].targetQty) == (item.symbol, item.targetQty.value)
                && intents[0].time == time
                && (intents[0].reduceOnly <==>
                     IsReduceOnly(intents[0].currentQty, intents[0].targetQty) && v.execution.reduceOnlyOnExit)
  {
  }

  /**
   * A signal asks for one target: its quantity as it is when long or undirected, the same distance below zero when
   * short, and zero when flat. It raises without a quantity, off the venue, or for a flip without permission; otherwise
   * it has one intent to that target, and none if that is what is held.
   */
  lemma SignalIsOneTarget(
    v: Venue, time: Instant, item: TargetItem, direction: Direction, positions: map<Symbol, real>)
    ensures var r, held := Plan(v, Signal(time, item, direction), positions), CurrentQty(positions, item.symbol);
            if item.targetQty.None? then r == Raised(PlanningError)
            else
              var q := item.targetQty.value;
              var short := if q > 0.0 then -q else q;
              var target := if direction.Short? then short else if direction.Flat? then 0.0 else q;
              if item.exchange != v.exchange || item.symbol !in v.universe
                 || (Opposite(held, target) && !v.execution.allowPositionFlip)
              then r == Raised(PlanningError)
              else
                && r.Ok? && (r.value == [] <==> held == target)
                && (held != target ==>
                      && |r.value| == 1
                      && var i := r.value[0];
                         i.symbol == item.symbol && i.targetQty == target && i.currentQty == held && i.time == time
                         && (i.side.Buy? <==> target > held) && i.orderType == v.execution.orderType)
  {
    if item.targetQty.Some? {
      var target := item.(targetQty := Some(
        if direction.Short? && item.targetQty.value > 0.0 then -item.targetQty.value
        else if direction.Flat? then 0.0 else item.targetQty.value));
      assert [target][..0] == [] && PlanItems(v, time, [target][..0], positions) == Ok([]);
      if PlanItem(v, time, target, positions).Ok? {
        assert [] + PlanItem(v, time, target, positions).value == PlanItem(v, time, target, positions).value;
      }
    }
  }

  lemma PlanOne(v: Venue, time: Instant, item: TargetItem, positions: map<Symbol, real>)
    requires PlanItem(v, time, item, positions).Ok?
    ensures Plan(v, TargetPosition(time, [item]), positions) == PlanItem(v, time, item, positions)
  {
    hide PlanItem;
    assert [item][..0] == [];
    assert PlanItems(v, time, [item][..0], positions) == Ok([]);
    assert [] + PlanItem(v, time, item, positions).value == PlanItem(v, time, item, positions).value;
  }

  class BacktestLifecycle {
    const venue: Venue

    constructor (venue: Venue)
      ensures this.venue == venue
    {
      this.venue := venue;
    }

    method PlanFromTargetPosition(time: Instant, items: seq<TargetItem>, positions: map<Symbol, real>)
      returns (r: Result<seq<Intent>, Error>)
      ensures r == PlanItems(venue, time, items, positions)
    {
      var intents: seq<Intent> := [];
      var k := 0;
      while k < |items|
        invariant 0 <= k <= |items|
        invariant PlanItems(venue, time, items[..k], positions) == Ok(intents)
      {
        var item := items[k];
        ghost var earlier := intents;
        PlanPrefix(venue, time, items, positions, k);
        if item.exchange != venue.exchange || item.symbol !in venue.universe || item.targetQty.None? {
          return Raised(PlanningError);
        }
        var current := CurrentQty(positions, item.symbol);
        var target := item.targetQty.value;
        var delta := target - current;
        if delta != 0.0 {
          if Flips(current, target) && !venue.execution.allowPositionFlip {
            return Raised(PlanningError);
          }
          intents := intents + [
            Intent(item.symbol, time, current, target, delta, if delta > 0.0 then Buy else Sell,
                   venue.execution.orderType, None,
                   IsReduceOnly(current, target) && venue.execution.reduceOnlyOnExit)];
        }
        assert intents == earlier + PlanItem(venue, time, item, positions).value;
        k := k + 1;
      }
      assert items[..k] == items;
      r := Ok(intents);
    }

    method PlanFromDecision(d: Decision, positions: map<Symbol, real>) returns (r: Result<seq<Intent>, Error>)
      ensures r == Plan(venue, d, positions)
    {
      match d
      case Pass =>
        r := Ok([]);
      case TargetPosition(time, items) =>
        r := PlanFromTargetPosition(time, items, positions);
      case Signal(time, item, direction) =>
        if item.targetQty.None? {
          return Raised(PlanningError);
        }
        var signed := item.targetQty.value;
        if direction.Short? && signed > 0.0 {
          signed := -signed;
        } else if direction.Flat? {
          signed := 0.0;
        }
        r := PlanFromTargetPosition(time, [item.(targetQty := Some(signed))], positions);
    }
  }

  /** Planning stops at the first item that raises. */
  lemma {:induction false} PlanPrefix(
    v: Venue, time: Instant, items: seq<TargetItem>, positions: map<Symbol, real>, k: nat)
    requires k < |items|
    requires PlanItems(v, time, items[..k], positions).Ok?
    ensures PlanItem(v, time, items[k], positions).Raised? ==>
              PlanItems(v, time, items, positions) == Raised(PlanItem(v, time, items[k], positions).error)
    ensures PlanItem(v, time, items[k], positions).Ok? ==>
              PlanItems(v, time, items[..k + 1], positions) ==
              Ok(PlanItems(v, time, items[..k], positions).value + PlanItem(v, time, items[k], positions).value)
  {
    assert items[..k + 1][..k] == items[..k];
    if PlanItem(v, time, items[k], positions).Raised? {
      RaisedPlanStays(v, time, items, positions, k + 1);
    }
  }

  lemma {:induction false} RaisedPlanStays(
    v: Venue, time: Instant, items: seq<TargetItem>, positions: map<Symbol, real>, k: nat)
    requires k <= |items|
    requires PlanItems(v, time, items[..k], positions).Raised?
    ensures PlanItems(v, time, items, positions) == PlanItems(v, time, items[..k], positions)
    decreases |items|
  {
    if k == |items| {
      assert items[..k] == items;
    } else {
      assert items[..|items| - 1][..k] == items[..k];
      RaisedPlanStays(v, time, items[..|items| - 1], positions, k);
    }
  }
}
