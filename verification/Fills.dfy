/** Simulated orders and the deterministic bar-based fill model. */
module Fills {
  import opened Wrappers
  import opened Market
  import opened Portfolio
  import opened Lifecycle

  /** Fixed slippage and static fees, in basis points. */
  datatype CostModel = CostModel(makerFeeBps: real, takerFeeBps: real, marketOrderBps: real, limitOrderBps: real)

  function SlippageBps(c: CostModel, t: OrderType): real {
    if t.MarketOrder? then c.marketOrderBps else c.limitOrderBps
  }

  function SlippageShift(c: CostModel, t: OrderType, reference: real): real {
    (reference * SlippageBps(c, t)) / 10000.0
  }

  function SlippedPrice(c: CostModel, t: OrderType, side: Side, reference: real): real {
    if SlippageBps(c, t) == 0.0 then reference
    else reference + (if side.Buy? then 1.0 else -1.0) * SlippageShift(c, t, reference)
  }

  function SlippageCost(c: CostModel, t: OrderType, side: Side, reference: real, qty: real): real {
    if SlippageBps(c, t) == 0.0 then 0.0
    else Abs(SlippedPrice(c, t, side, reference) - reference) * qty
  }

  function FeeBps(c: CostModel, l: Liquidity): real {
    if l.Maker? then c.makerFeeBps else c.takerFeeBps
  }

  function FeeOf(c: CostModel, price: real, qty: real, l: Liquidity): real {
    (price * qty * FeeBps(c, l)) / 10000.0
  }

  predicate IsOpen(s: OrderStatus) {
    s.New? || s.Submitted? || s.Partial?
  }

  datatype FillBasis = FillBasis(reference: real, liquidity: Liquidity)

  function ResolveFillBasis(o: Order, bar: Bar): Result<Option<FillBasis>, Error> {
    match o.orderType
    case MarketOrder => Ok(Some(FillBasis(bar.open, Taker)))
    case Limit =>
      if o.requestedPrice.None? then Ok(None)
      else if o.side.Buy? && bar.low <= o.requestedPrice.value then Ok(Some(FillBasis(o.requestedPrice.value, Maker)))
      else if o.side.Sell? && bar.high >= o.requestedPrice.value then Ok(Some(FillBasis(o.requestedPrice.value, Maker)))
      else Ok(None)
    case _ => Raised(UnsupportedOrderType)
  }

  function FillAt(c: CostModel, o: Order, bar: Bar, basis: FillBasis, fillId: nat): Fill {
    var price := SlippedPrice(c, o.orderType, o.side, basis.reference);
    Fill(fillId, o.id, o.symbol, bar.time, o.side, basis.liquidity, basis.reference, price, o.qty,
         FeeOf(c, price, o.qty, basis.liquidity), SlippageCost(c, o.orderType, o.side, basis.reference, o.qty))
  }

  /** What an order does when a bar arrives: nothing, a complete fill, or an exception. */
  function Process(c: CostModel, o: Order, bar: Bar, fillId: nat): Result<Option<Fill>, Error> {
    if !IsOpen(o.status) || o.symbol != bar.symbol then Ok(None) else
      var basis :- ResolveFillBasis(o, bar);
      if basis.None? then Ok(None) else Ok(Some(FillAt(c, o, bar, basis.value, fillId)))
  }

  function RequestedPrice(i: Intent, bar: Bar): Option<real> {
    if i.orderType.Limit? then Some(i.limitPrice.GetOr(bar.close)) else None
  }

  function OrderFor(i: Intent, bar: Bar, orderId: nat): Order {
    Order(orderId, i.symbol, i.time, i.side, i.orderType, RequestedPrice(i, bar), Abs(i.deltaQty), i.reduceOnly,
        Submitted)
  }

  function StatusAtExpiry(s: OrderStatus): OrderStatus {
    if IsOpen(s) then Expired else s
  }

  // ----- Friction -----

  predicate NonNegativeCosts(c: CostModel) {
    c.marketOrderBps >= 0.0 && c.limitOrderBps >= 0.0
  }

  /** Slippage is always adverse, and the cash a fill takes splits into reference value, slippage and fee. */
  lemma SlippageIsAdverse(c: CostModel, o: Order, bar: Bar, basis: FillBasis, fillId: nat)
    requires NonNegativeCosts(c) && basis.reference >= 0.0
    ensures var f := FillAt(c, o, bar, basis, fillId);
            && (f.side.Buy? ==> f.price >= f.referencePrice)
            && (f.side.Sell? ==> f.price <= f.referencePrice)
            && Spent(f) == Notional(f.referencePrice, Signed(f.side, f.qty)) + f.slippageCost + f.fee
  {
    var shift := SlippageShift(c, o.orderType, basis.reference);
    var bps := SlippageBps(c, o.orderType);
    assert basis.reference * bps >= 0.0;
    assert shift >= 0.0;
    var f := FillAt(c, o, bar, basis, fillId);
    assert f.slippageCost == Notional(f.price - f.referencePrice, Signed(f.side, f.qty));
  }

  /** The bar traded at the price or on the far side of it, seen from the order's side. */
  predicate Reaches(bar: Bar, side: Side, price: real) {
    if side.Buy? then bar.low <= price else bar.high >= price
  }

  /**
   * An open order meets its symbol's bar: a market order always fills, at the open before slippage; a limit order fills
   * exactly when the bar reaches its price, at that price; and a fill is always of the whole order.
   */
  lemma OrdersFillWhenReached(c: CostModel, o: Order, bar: Bar, fillId: nat)
    requires IsOpen(o.status) && o.symbol == bar.symbol && (o.orderType.Limit? || o.orderType.MarketOrder?)
    ensures var r := Process(c, o, bar, fillId);
            && r.Ok?
            && (r.value.Some? <==>
                 o.orderType.MarketOrder? || (o.requestedPrice.Some? && Reaches(bar, o.side, o.requestedPrice.value)))
            && (r.value.Some? ==>
                  && r.value.value.referencePrice ==
                     (if o.orderType.MarketOrder? then bar.open else o.requestedPrice.value)
                  && r.value.value.orderId == o.id && r.value.value.side == o.side && r.value.value.qty == o.qty
                  && r.value.value.symbol == o.symbol && r.value.value.time == bar.time
                  && r.value.value.liquidity == if o.orderType.MarketOrder? then Taker else Maker)
  {
    hide SlippedPrice, SlippageCost, FeeOf;
  }

  /** An order carries its intent all the way to the target; a limit order rests at the intent's limit or the close. */
  lemma OrderMovesToTarget(i: Intent, bar: Bar, orderId: nat, positions: map<Symbol, real>)
    requires Coherent(i, positions)
    ensures var o := OrderFor(i, bar, orderId);
            && CurrentQty(positions, o.symbol) + Signed(o.side, o.qty) == i.targetQty && o.qty > 0.0
            && o.symbol == i.symbol && o.id == orderId && o.time == i.time && o.status.Submitted?
            && o.orderType == i.orderType && o.reduceOnly == i.reduceOnly
            && (o.requestedPrice.Some? <==> o.orderType.Limit?)
            && (o.orderType.Limit? && i.limitPrice.None? ==> o.requestedPrice == Some(bar.close))
            && (o.orderType.Limit? && i.limitPrice.Some? ==> o.requestedPrice == i.limitPrice)
  {
  }

  /** Only a new, submitted or partly filled order can fill, and only at its own symbol's bar; other types raise. */
  lemma OnlyOpenOrdersFill(c: CostModel, o: Order, bar: Bar, fillId: nat)
    ensures var open := (o.status.New? || o.status.Submitted? || o.status.Partial?) && o.symbol == bar.symbol;
            && (!open ==> Process(c, o, bar, fillId) == Ok(None))
            && (open ==> (Process(c, o, bar, fillId).Raised? <==> !o.orderType.MarketOrder? && !o.orderType.Limit?))
  {
    hide FillAt;
  }

  /**
   * What a fill costs: the price is off the reference by the order type's own rate, slippage is that distance for the
   * whole quantity, and the fee is the taker rate of the amount for a market order, the maker rate for a limit order.
   */
  lemma FillCostsItsRates(c: CostModel, o: Order, bar: Bar, fillId: nat)
    requires Process(c, o, bar, fillId).Ok? && Process(c, o, bar, fillId).value.Some?
    ensures var f := Process(c, o, bar, fillId).value.value;
            var slippageBps := if o.orderType.MarketOrder? then c.marketOrderBps else c.limitOrderBps;
            var feeBps := if o.orderType.MarketOrder? then c.takerFeeBps else c.makerFeeBps;
            && 10000.0 * (f.price - f.referencePrice) ==
               (if o.side.Buy? then f.referencePrice else -f.referencePrice) * slippageBps
            && f.slippageCost == (if f.price < f.referencePrice then f.referencePrice - f.price
                                  else f.price - f.referencePrice) * o.qty
            && 10000.0 * f.fee == f.price * o.qty * feeBps
  {
    var f := Process(c, o, bar, fillId).value.value;
    SlippedBy(c, o.orderType, o.side, f.referencePrice);
    hide SlippedPrice;
    assert f.price == SlippedPrice(c, o.orderType, o.side, f.referencePrice);
    if SlippageBps(c, o.orderType) == 0.0 {
      assert f.price == f.referencePrice;
    }
  }

  lemma SlippedBy(c: CostModel, t: OrderType, side: Side, reference: real)
    ensures 10000.0 * (SlippedPrice(c, t, side, reference) - reference) ==
            (if side.Buy? then reference else -reference) * SlippageBps(c, t)
    ensures SlippageBps(c, t) == 0.0 ==> SlippedPrice(c, t, side, reference) == reference
  {
    assert 10000.0 * SlippageShift(c, t, reference) == reference * SlippageBps(c, t);
  }

  // ----- The classes -----

  /** An order object: its terms never change, its status is updated in place and seen by every list that holds it. */
  class SimulatedOrder {
    const terms: Order
    var status: OrderStatus

    function View(): Order
      reads this
    {
      terms.(status := status)
    }

    constructor (o: Order)
      ensures terms == o && status == o.status
    {
      terms, status := o, o.status;
    }
  }

  class DeterministicBarsFillModel {
    const costs: CostModel
    var nextOrder: nat
    var nextFill: nat

    constructor (costs: CostModel)
      ensures this.costs == costs && nextOrder == 1 && nextFill == 1
    {
      this.costs := costs;
      nextOrder, nextFill := 1, 1;
    }

    method CreateOrder(i: Intent, bar: Bar) returns (o: SimulatedOrder)
      modifies this`nextOrder
      ensures fresh(o) && o.terms == o.View() == OrderFor(i, bar, old(nextOrder))
      ensures nextOrder == old(nextOrder) + 1
    {
      var requested: Option<real> := None;
      if i.orderType.Limit? {
        requested := Some(if i.limitPrice.Some? then i.limitPrice.value else bar.close);
      }
      o := new SimulatedOrder(Order(nextOrder, i.symbol, i.time, i.side, i.orderType, requested, Abs(i.deltaQty),
          i.reduceOnly, Submitted));
      nextOrder := nextOrder + 1;
    }

    method ProcessOpenOrder(o: SimulatedOrder, bar: Bar) returns (r: Result<Option<Fill>, Error>)
      modifies this`nextFill, o`status
      ensures r == Process(costs, old(o.View()), bar, old(nextFill))
      ensures o.status == if r.Ok? && r.value.Some? then Filled else old(o.status)
      ensures nextFill == old(nextFill) + if r.Ok? && r.value.Some? then 1 else 0
    {
      hide SlippedPrice, SlippageCost, FeeOf;
      if !(o.status.New? || o.status.Submitted? || o.status.Partial?) {
        return Ok(None);
      }
      if o.terms.symbol != bar.symbol {
        return Ok(None);
      }
      var basis := ResolveFillBasis(o.terms, bar);
      if basis.Raised? {
        return Raised(basis.error);
      }
      if basis.value.None? {
        return Ok(None);
      }
      var t, reference, liquidity := o.terms, basis.value.value.reference, basis.value.value.liquidity;
      var price := SlippedPrice(costs, t.orderType, t.side, reference);
      var slippage := SlippageCost(costs, t.orderType, t.side, reference, t.qty);
      var fee := FeeOf(costs, price, t.qty, liquidity);
      o.status := Filled;
      r := Ok(Some(Fill(nextFill, t.id, t.symbol, bar.time, t.side, liquidity, reference, price, t.qty, fee,
          slippage)));
      nextFill := nextFill + 1;
    }

    static method ExpireOpenOrder(o: SimulatedOrder)
      modifies o`status
      ensures o.status == StatusAtExpiry(old(o.status))
    {
      if o.status.New? || o.status.Submitted? || o.status.Partial? {
        o.status := Expired;
      }
    }
  }
}
