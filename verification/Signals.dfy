/** The signals that a target position is reported as, and what planning makes of them. */
module Signals {
  import opened Wrappers
  import opened Market
  import opened Lifecycle

  datatype SignalType = Entry | Exit | Reverse | Reduce | Rebalance

  datatype Projected = Projected(time: Instant, item: TargetItem, direction: Direction, signalType: SignalType)

  function TypeOf(current: real, target: real): SignalType {
    if current == 0.0 && target != 0.0 then Entry
    else if current != 0.0 && target == 0.0 then Exit
    else if current != 0.0 && target != 0.0 && (current > 0.0) != (target > 0.0) then Reverse
    else if Abs(target) < Abs(current) then Reduce
    else Rebalance
  }

  function DirectionOf(target: real): Direction {
    if target > 0.0 then Long else if target < 0.0 then Short else Flat
  }

  /** The signal of one target item; none without a target, or when the position is already there. */
  function ProjectItem(time: Instant, item: TargetItem, positions: map<Symbol, real>): seq<Projected> {
    var current := CurrentQty(positions, item.symbol);
    if item.targetQty.None? || item.targetQty.value == current then [] else
      var target := item.targetQty.value;
      var direction := DirectionOf(target);
      [Projected(time, item.(targetQty := Some(if direction.Short? then Abs(target) else target)), direction,
         TypeOf(current, target))]
  }

  function Project(time: Instant, items: seq<TargetItem>, positions: map<Symbol, real>): seq<Projected> {
    if items == [] then [] else
      Project(time, items[..|items| - 1], positions) + ProjectItem(time, items[|items| - 1], positions)
  }

  method BuildSignals(time: Instant, items: seq<TargetItem>, positions: map<Symbol, real>)
    returns (signals: seq<Projected>)
    ensures signals == Project(time, items, positions)
  {
    signals := [];
    var k := 0;
    while k < |items|
      invariant 0 <= k <= |items| && signals == Project(time, items[..k], positions)
    {
      assert items[..k + 1][..k] == items[..k];
      var item := items[k];
      if item.targetQty.Some? {
        var current := CurrentQty(positions, item.symbol);
        var target := item.targetQty.value;
        if target - current != 0.0 {
          var direction := DirectionOf(target);
          var qty := if direction.Short? then Abs(target) else target;
          signals := signals +
            [Projected(time, item.(targetQty := Some(qty)), direction, TypeOf(current, target))];
        }
      }
      k := k + 1;
    }
    assert items[..k] == items;
  }

  /** The type of a signal, for a target that differs from what is held. */
  lemma TypesMean(current: real, target: real)
    requires current != target
    ensures var t := TypeOf(current, target);
            && (t.Entry? <==> current == 0.0)
            && (t.Exit? <==> target == 0.0)
            && (t.Reverse? <==> Opposite(current, target))
            && (t.Reduce? <==> target != 0.0 && IsReduceOnly(current, target))
            && (t.Rebalance? <==> current != 0.0 && !Opposite(current, target) && Abs(target) > Abs(current))
  {
  }

  function AsDecision(p: Projected): Decision {
    Signal(p.time, p.item, p.direction)
  }

  /** The direction is the sign of the target, the quantity its size. */
  predicate SizedAs(p: Projected, target: real) {
    && p.item.targetQty == Some(Abs(target))
    && (p.direction.Long? <==> target > 0.0) && (p.direction.Short? <==> target < 0.0) && !p.direction.Undirected?
  }

  lemma ItemPlansTheSame(v: Venue, time: Instant, item: TargetItem, positions: map<Symbol, real>)
    requires PlanItem(v, time, item, positions).Ok?
    ensures var signals, intents := ProjectItem(time, item, positions), PlanItem(v, time, item, positions).value;
            && |signals| == |intents| <= 1
            && forall k :: 0 <= k < |signals| ==>
                 && Plan(v, AsDecision(signals[k]), positions) == Ok([intents[k]])
                 && SizedAs(signals[k], intents[k].targetQty)
  {
    var signals := ProjectItem(time, item, positions);
    if signals != [] {
      assert Targets(AsDecision(signals[0])) == Ok([item]);
      hide PlanItem;
      PlanOne(v, time, item, positions);
    }
  }

  /**
   * A plan and the signals it is reported as match one to one, and planning one of the signals by itself gives the very
   * intent that the target position gave: direction and size together carry the signed target.
   */
  lemma {:induction false} SignalsPlanTheSame(
    v: Venue, time: Instant, items: seq<TargetItem>, positions: map<Symbol, real>)
    requires PlanItems(v, time, items, positions).Ok?
    ensures var signals, intents := Project(time, items, positions), PlanItems(v, time, items, positions).value;
            && |signals| == |intents|
            && forall k :: 0 <= k < |signals| ==>
                 && Plan(v, AsDecision(signals[k]), positions) == Ok([intents[k]])
                 && SizedAs(signals[k], intents[k].targetQty)
  {
    if items != [] {
      SignalsPlanTheSame(v, time, items[..|items| - 1], positions);
      ItemPlansTheSame(v, time, items[|items| - 1], positions);
      hide Plan, PlanItem, ProjectItem;
    }
  }
}
