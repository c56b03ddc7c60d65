/** The cash and position ledger of a run: what one fill does to it, and how it is marked to market. */
module Portfolio {
  import opened Wrappers
  import opened Market
  import opened Totals

  /** A signed quantity; `entry` is unknown only for a seeded position whose symbol has not traded yet. */
  datatype Position = Position(qty: real, entry: Option<real>)

  datatype FillOutcome = FillOutcome(realizedDelta: real, closeEvent: bool, winningClose: bool)

  datatype Ledger = Ledger(
    cash: real,
    positions: map<Symbol, Position>,
    realized: real,
    fees: real,
    slippage: real,
    turnover: real,
    closes: nat,
    wins: nat)

  datatype Mark = Mark(
    cash: real,
    equity: real,
    gross: real,
    net: real,
    realized: real,
    unrealized: real,
    fees: real,
    slippage: real,
    turnover: real,
    closes: nat,
    wins: nat)

  const NO_CLOSE := FillOutcome(0.0, false, false)

  function Opening(cash: real, seeds: map<Symbol, real>): Ledger {
    Ledger(cash, map s | s in seeds :: Position(seeds[s], None), 0.0, 0.0, 0.0, 0.0, 0, 0)
  }

  function Held(l: Ledger, s: Symbol): Position {
    if s in l.positions then l.positions[s] else Position(0.0, None)
  }

  function Qty(l: Ledger, s: Symbol): real {
    Held(l, s).qty
  }

  /** What a strategy is shown: the nonzero positions. */
  function OpenPositions(l: Ledger): map<Symbol, real> {
    map s | s in l.positions && l.positions[s].qty != 0.0 :: l.positions[s].qty
  }

  /** Booking a fill of `s` needs the entry price of what is held. */
  predicate EntryKnown(l: Ledger, s: Symbol) {
    Qty(l, s) != 0.0 ==> Held(l, s).entry.Some?
  }

  /** A seeded position takes the first open price its symbol trades at as its entry. */
  function SeedEntry(l: Ledger, s: Symbol, open: real): Ledger {
    if s in l.positions && l.positions[s].entry.None?
    then l.(positions := l.positions[s := l.positions[s].(entry := Some(open))])
    else l
  }

  // ----- One fill -----

  function AverageEntry(held: Position, signed: real, price: real): real
    requires held.entry.Some? && held.qty + signed != 0.0
  {
    (held.entry.value * held.qty + price * signed) / (held.qty + signed)
  }

  /** The profit of closing `closed` units of a position at `price`. */
  function RealizedOn(held: Position, closed: real, price: real): real
    requires held.entry.Some?
  {
    (if held.qty > 0.0 then price - held.entry.value else held.entry.value - price) * closed
  }

  function Notional(price: real, qty: real): real {
    price * qty
  }

  /** The cash a fill takes out of the account. */
  function Spent(f: Fill): real {
    f.price * Signed(f.side, f.qty) + f.fee
  }

  /** The position left by trading `signed` at `price`; a position closed out entirely is dropped. */
  function Traded(held: Position, signed: real, price: real): Option<Position>
    requires held.qty != 0.0 ==> held.entry.Some?
  {
    var left := held.qty + signed;
    if held.qty == 0.0 then
      Some(Position(signed, Some(price)))
    else if Sign(held.qty) == Sign(signed) then
      Some(Position(left, Some(AverageEntry(held, signed, price))))
    else if left == 0.0 then
      None
    else
      Some(Position(left, if Sign(left) == Sign(held.qty) then held.entry else Some(price)))
  }

  function Outcome(held: Position, signed: real, price: real): FillOutcome
    requires held.qty != 0.0 ==> held.entry.Some?
  {
    if held.qty == 0.0 || Sign(held.qty) == Sign(signed) then NO_CLOSE else
      var closed := Min(Abs(held.qty), Abs(signed));
      var delta := RealizedOn(held, closed, price);
      FillOutcome(delta, true, delta > 0.0)
  }

  function Booked(l: Ledger, f: Fill): Ledger
    requires EntryKnown(l, f.symbol)
  {
    var signed := Signed(f.side, f.qty);
    var held := Held(l, f.symbol);
    var outcome := Outcome(held, signed, f.price);
    var next := Traded(held, signed, f.price);
    l.(cash := l.cash - Spent(f),
       fees := l.fees + f.fee,
       slippage := l.slippage + f.slippageCost,
       turnover := l.turnover + Notional(f.price, f.qty),
       realized := l.realized + outcome.realizedDelta,
       closes := l.closes + (if outcome.closeEvent then 1 else 0),
       wins := l.wins + (if outcome.winningClose then 1 else 0),
       positions := Rebooked(l.positions, f.symbol, next))
  }

  function FillOutcomeOf(l: Ledger, f: Fill): FillOutcome
    requires EntryKnown(l, f.symbol)
  {
    Outcome(Held(l, f.symbol), Signed(f.side, f.qty), f.price)
  }

  // ----- Marking to market -----

  function PriceOf(p: Position, s: Symbol, marks: map<Symbol, real>): real {
    if s in marks then marks[s] else p.entry.GetOr(0.0)
  }

  function NetOf(p: Position, s: Symbol, marks: map<Symbol, real>): real {
    p.qty * PriceOf(p, s, marks)
  }

  function GainOf(p: Position, s: Symbol, marks: map<Symbol, real>): real {
    if p.entry.None? then 0.0 else (PriceOf(p, s, marks) - p.entry.value) * p.qty
  }

  function CostOf(p: Position): real {
    p.qty * p.entry.GetOr(0.0)
  }

  function NetBySymbol(l: Ledger, marks: map<Symbol, real>): map<Symbol, real> {
    map s | s in l.positions :: NetOf(l.positions[s], s, marks)
  }

  function GrossBySymbol(l: Ledger, marks: map<Symbol, real>): map<Symbol, real> {
    map s | s in l.positions :: Abs(NetOf(l.positions[s], s, marks))
  }

  function GainBySymbol(l: Ledger, marks: map<Symbol, real>): map<Symbol, real> {
    map s | s in l.positions :: GainOf(l.positions[s], s, marks)
  }

  function CostBySymbol(l: Ledger): map<Symbol, real> {
    map s | s in l.positions :: CostOf(l.positions[s])
  }

  ghost function Basis(l: Ledger): real {
    Total(CostBySymbol(l))
  }

  ghost function Unrealized(l: Ledger, marks: map<Symbol, real>): real {
    Total(GainBySymbol(l, marks))
  }

  ghost function Equity(l: Ledger, marks: map<Symbol, real>): real {
    l.cash + Total(NetBySymbol(l, marks))
  }

  ghost function MarkOf(l: Ledger, marks: map<Symbol, real>): Mark {
    Mark(l.cash, Equity(l, marks), Total(GrossBySymbol(l, marks)), Total(NetBySymbol(l, marks)), l.realized,
         Unrealized(l, marks), l.fees, l.slippage, l.turnover, l.closes, l.wins)
  }

  // ----- Accounting laws -----

  /** What was put in: cash, plus positions at cost, plus fees paid, minus profit already booked. */
  ghost function Capital(l: Ledger): real {
    l.cash + Basis(l) + l.fees - l.realized
  }

  /** Trading one position converts cash, cost and realized profit into each other without loss. */
  lemma TradeConserves(held: Position, signed: real, price: real)
    requires held.qty != 0.0 ==> held.entry.Some?
    ensures var next := Traded(held, signed, price);
            var cost := if next.Some? then CostOf(next.value) else 0.0;
            cost - price * signed - Outcome(held, signed, price).realizedDelta == CostOf(held)
  {
    if held.qty != 0.0 && Sign(held.qty) == Sign(signed) {
      AverageEntryWeighs(held, signed, price);
    }
  }

  function Rebooked(positions: map<Symbol, Position>, s: Symbol, next: Option<Position>): map<Symbol, Position> {
    if next.Some? then positions[s := next.value] else positions - {s}
  }

  lemma RebookingShiftsBasis(before: Ledger, after: Ledger, s: Symbol, next: Option<Position>)
    requires after.positions == Rebooked(before.positions, s, next)
    ensures Basis(after) == Basis(before) - CostOf(Held(before, s)) + (if next.Some? then CostOf(next.value) else 0.0)
  {
    var costs := CostBySymbol(before);
    if next.Some? {
      TotalWrite(costs, s, CostOf(next.value));
      assert CostBySymbol(after) == costs[s := CostOf(next.value)];
    } else {
      TotalRemove(costs, s);
      assert CostBySymbol(after) == costs - {s};
    }
  }

  /** Capital survives every fill: opening, adding, partial close, full close and flip, long or short. */
  lemma FillKeepsCapital(l: Ledger, f: Fill)
    requires EntryKnown(l, f.symbol)
    ensures Capital(Booked(l, f)) == Capital(l)
  {
    hide CostOf, Traded, Outcome;
    var held := Held(l, f.symbol);
    var signed := Signed(f.side, f.qty);
    TradeConserves(held, signed, f.price);
    RebookingShiftsBasis(l, Booked(l, f), f.symbol, Traded(held, signed, f.price));
  }

  /** A fill moves exactly its own symbol, by exactly its signed quantity, and leaves its entry known. */
  lemma FillMovesPosition(l: Ledger, f: Fill)
    requires EntryKnown(l, f.symbol)
    ensures var after := Booked(l, f);
            && Qty(after, f.symbol) == Qty(l, f.symbol) + Signed(f.side, f.qty)
            && EntryKnown(after, f.symbol)
            && (f.symbol in after.positions ==> after.positions[f.symbol].entry.Some?)
            && (forall s :: s != f.symbol ==>
                 Held(after, s) == Held(l, s) && (s in after.positions <==> s in l.positions))
  {
  }

  /**
   * Fees, slippage and turnover grow by those of the fill. It counts as a close if it does not add to what is held, and
   * as a win exactly if it raises the realized profit.
   */
  lemma FillIsCounted(l: Ledger, f: Fill)
    requires EntryKnown(l, f.symbol)
    ensures var after, held, traded := Booked(l, f), Qty(l, f.symbol), Signed(f.side, f.qty);
            && after.fees - l.fees == f.fee && after.slippage - l.slippage == f.slippageCost
            && after.turnover - l.turnover == f.price * f.qty
            && after.closes - l.closes ==
               (if (held > 0.0 && traded <= 0.0) || (held < 0.0 && traded >= 0.0) then 1 else 0)
            && after.wins - l.wins == (if after.realized > l.realized then 1 else 0)
  {
  }

  /** Adding to a position moves its entry to a weighted average of the old entry and the price paid. */
  lemma AddingAveragesEntry(l: Ledger, f: Fill)
    requires EntryKnown(l, f.symbol)
    requires Qty(l, f.symbol) != 0.0 && Sign(Qty(l, f.symbol)) == Sign(Signed(f.side, f.qty))
    ensures var old', new' := Held(l, f.symbol).entry.value, Held(Booked(l, f), f.symbol).entry.value;
            && Min(old', f.price) <= new' <= Max(old', f.price)
            && (old' != f.price ==> Min(old', f.price) < new' < Max(old', f.price))
  {
    var held, signed := Held(l, f.symbol), Signed(f.side, f.qty);
    AverageEntryWeighs(held, signed, f.price);
    Between(held.entry.value, f.price, AverageEntry(held, signed, f.price), held.qty, signed);
    hide AverageEntry, Spent, RealizedOn, Notional;
  }

  lemma AverageEntryWeighs(held: Position, signed: real, price: real)
    requires held.entry.Some? && held.qty + signed != 0.0
    ensures AverageEntry(held, signed, price) * (held.qty + signed) == held.entry.value * held.qty + price * signed
  {
  }

  lemma Between(e: real, p: real, avg: real, q: real, s: real)
    requires (q > 0.0 && s > 0.0) || (q < 0.0 && s < 0.0)
    requires avg * (q + s) == e * q + p * s
    ensures Min(e, p) <= avg <= Max(e, p)
    ensures e != p ==> Min(e, p) < avg < Max(e, p)
  {
    assert (avg - e) * q == (p - avg) * s;
    if q > 0.0 {
      SameSign(avg - e, q, p - avg, s);
    } else {
      SameSign(avg - e, -q, p - avg, -s);
    }
  }

  lemma SameSign(x: real, a: real, y: real, b: real)
    requires a > 0.0 && b > 0.0 && x * a == y * b
    ensures (x > 0.0 <==> y > 0.0) && (x < 0.0 <==> y < 0.0)
  {
    if x > 0.0 { assert x * a > 0.0; }
    if x < 0.0 { assert x * a < 0.0; }
    if y > 0.0 { assert y * b > 0.0; }
    if y < 0.0 { assert y * b < 0.0; }
  }

  /** No price is known for a position whose entry is still unknown. */
  predicate SeedsUnpriced(l: Ledger, marks: map<Symbol, real>) {
    forall s :: s in l.positions && l.positions[s].entry.None? ==> s !in marks
  }

  /** For any, even partial, set of marks: equity is the capital put in plus all profit minus fees. */
  lemma EquityDecomposes(l: Ledger, marks: map<Symbol, real>)
    requires SeedsUnpriced(l, marks)
    ensures Equity(l, marks) == Capital(l) + l.realized + Unrealized(l, marks) - l.fees
  {
    var net, gain, basis := NetBySymbol(l, marks), GainBySymbol(l, marks), CostBySymbol(l);
    forall s | s in net ensures net[s] == gain[s] + basis[s] {
    }
    TotalAdd(net, gain, basis);
  }

  /** The value of the long positions, or the size of the short ones. */
  function ValueAbove(l: Ledger, marks: map<Symbol, real>, sign: real): map<Symbol, real> {
    map s | s in l.positions :: Max(0.0, sign * NetOf(l.positions[s], s, marks))
  }

  /** Gross is what is long plus what is short, net is what is long less what is short. */
  lemma GrossIsLongAndShort(l: Ledger, marks: map<Symbol, real>)
    ensures var long, short := Total(ValueAbove(l, marks, 1.0)), Total(ValueAbove(l, marks, -1.0));
            MarkOf(l, marks).gross == long + short && MarkOf(l, marks).net == long - short
  {
    hide NetOf;
    TotalAdd(GrossBySymbol(l, marks), ValueAbove(l, marks, 1.0), ValueAbove(l, marks, -1.0));
    TotalAdd(ValueAbove(l, marks, 1.0), NetBySymbol(l, marks), ValueAbove(l, marks, -1.0));
  }

  // ----- The class -----

  class PortfolioState {
    var cash: real
    var positions: map<Symbol, Position>
    var realized: real
    var fees: real
    var slippage: real
    var turnover: real
    var closes: nat
    var wins: nat

    function View(): Ledger
      reads this
    {
      Ledger(cash, positions, realized, fees, slippage, turnover, closes, wins)
    }

    constructor (cash: real, seeds: map<Symbol, real>)
      ensures View() == Opening(cash, seeds)
    {
      this.cash := cash;
      positions := map s | s in seeds :: Position(seeds[s], None);
      realized, fees, slippage, turnover := 0.0, 0.0, 0.0, 0.0;
      closes, wins := 0, 0;
    }

    method ApplyFill(f: Fill) returns (outcome: FillOutcome)
      requires EntryKnown(View(), f.symbol)
      modifies this
      ensures View() == Booked(old(View()), f)
      ensures outcome == FillOutcomeOf(old(View()), f)
    {
      hide AverageEntry, AverageOfMagnitudes, RealizedOn, Notional, Spent;
      var signed := if f.side.Buy? then f.qty else -f.qty;
      var position := if f.symbol in positions then positions[f.symbol] else Position(0.0, None);
      var current, entry := position.qty, position.entry;

      var notional := Notional(f.price, f.qty);
      SpentBySide(f);
      if f.side.Buy? {
        cash := cash - (notional + f.fee);
      } else {
        cash := cash + (notional - f.fee);
      }
      fees := fees + f.fee;
      slippage := slippage + f.slippageCost;
      turnover := turnover + notional;

      if current == 0.0 {
        positions := positions[f.symbol := Position(signed, Some(f.price))];
        return NO_CLOSE;
      }
      if current > 0.0 && signed > 0.0 {
        var average := AverageOfMagnitudes(entry.value, current, f.price, signed);
        AverageByMagnitude(position, signed, f.price);
        positions := positions[f.symbol := Position(current + signed, Some(average))];
        return NO_CLOSE;
      }
      if current < 0.0 && signed < 0.0 {
        var average := AverageOfMagnitudes(entry.value, Abs(current), f.price, Abs(signed));
        AverageByMagnitude(position, signed, f.price);
        positions := positions[f.symbol := Position(current + signed, Some(average))];
        return NO_CLOSE;
      }

      var closing := Min(Abs(current), Abs(signed));
      RealizedBySide(position, closing, f.price);
      var delta := Notional(if current > 0.0 then f.price - entry.value else entry.value - f.price, closing);
      realized := realized + delta;
      closes := closes + 1;
      if delta > 0.0 {
        wins := wins + 1;
      }
      var left := current + signed;
      if left == 0.0 {
        positions := positions - {f.symbol};
      } else if (current > 0.0 && left > 0.0) || (current < 0.0 && left < 0.0) {
        positions := positions[f.symbol := Position(left, entry)];
      } else {
        positions := positions[f.symbol := Position(left, Some(f.price))];
      }
      outcome := FillOutcome(delta, true, delta > 0.0);
    }

    /** The cheap path: equity alone. */
    method CalculateEquity(marks: map<Symbol, real>) returns (equity: real)
      ensures equity == Equity(View(), marks)
    {
      hide NetOf, Notional;
      var net := 0.0;
      var rest := positions.Keys;
      ghost var all := NetBySymbol(View(), marks);
      assert On(all, rest) == all;
      while rest != {}
        invariant rest <= positions.Keys
        invariant net + Total(On(all, rest)) == Total(all)
      {
        var s :| s in rest;
        PeelRest(all, rest, s);
        MarkBySide(positions[s], s, marks);
        rest := rest - {s};
        if positions[s].qty != 0.0 {
          var price := if s in marks then marks[s] else positions[s].entry.GetOr(0.0);
          net := net + Notional(positions[s].qty, price);
        }
      }
      assert On(all, rest) == map[];
      equity := cash + net;
    }

    method MarkToMarket(marks: map<Symbol, real>) returns (mark: Mark)
      ensures mark == MarkOf(View(), marks)
    {
      hide NetOf, GainOf, Notional, Accumulated;
      var gross, net, unrealized := 0.0, 0.0, 0.0;
      var rest := positions.Keys;
      AccumulationStarts(View(), marks);
      while rest != {}
        invariant rest <= positions.Keys
        invariant Accumulated(View(), marks, rest, net, gross, unrealized)
      {
        var s :| s in rest;
        MarkBySide(positions[s], s, marks);
        AccumulationStep(View(), marks, rest, net, gross, unrealized, s);
        rest := rest - {s};
        var p := positions[s];
        if p.qty != 0.0 {
          var price := if s in marks then marks[s] else p.entry.GetOr(0.0);
          var signedNotional := Notional(p.qty, price);
          gross := gross + Abs(signedNotional);
          net := net + signedNotional;
          if p.entry.Some? {
            if p.qty > 0.0 {
              unrealized := unrealized + Notional(price - p.entry.value, p.qty);
            } else {
              unrealized := unrealized + Notional(p.entry.value - price, Abs(p.qty));
            }
          }
        }
      }
      AccumulationEnds(View(), marks, net, gross, unrealized);
      mark := Mark(cash, cash + net, gross, net, realized, unrealized, fees, slippage, turnover, closes, wins);
    }
  }

  /** The running totals of a visit to all positions, with `rest` still to come. */
  ghost predicate Accumulated(
    l: Ledger, marks: map<Symbol, real>, rest: set<Symbol>, net: real, gross: real, unrealized: real) {
    && net + Total(On(NetBySymbol(l, marks), rest)) == Total(NetBySymbol(l, marks))
    && gross + Total(On(GrossBySymbol(l, marks), rest)) == Total(GrossBySymbol(l, marks))
    && unrealized + Total(On(GainBySymbol(l, marks), rest)) == Unrealized(l, marks)
  }

  lemma AccumulationStarts(l: Ledger, marks: map<Symbol, real>)
    ensures Accumulated(l, marks, l.positions.Keys, 0.0, 0.0, 0.0)
  {
    hide NetOf, GainOf;
    var rest := l.positions.Keys;
    assert On(NetBySymbol(l, marks), rest) == NetBySymbol(l, marks);
    assert On(GrossBySymbol(l, marks), rest) == GrossBySymbol(l, marks);
    assert On(GainBySymbol(l, marks), rest) == GainBySymbol(l, marks);
  }

  lemma AccumulationStep(
    l: Ledger, marks: map<Symbol, real>, rest: set<Symbol>, net: real, gross: real, unrealized: real, s: Symbol)
    requires s in rest && rest <= l.positions.Keys && Accumulated(l, marks, rest, net, gross, unrealized)
    ensures var p := l.positions[s];
            Accumulated(l, marks, rest - {s}, net + NetOf(p, s, marks), gross + Abs(NetOf(p, s, marks)),
                unrealized + GainOf(p, s, marks))
  {
    hide NetOf, GainOf;
    PeelRest(NetBySymbol(l, marks), rest, s);
    PeelRest(GrossBySymbol(l, marks), rest, s);
    PeelRest(GainBySymbol(l, marks), rest, s);
  }

  lemma AccumulationEnds(l: Ledger, marks: map<Symbol, real>, net: real, gross: real, unrealized: real)
    requires Accumulated(l, marks, {}, net, gross, unrealized)
    ensures net == Total(NetBySymbol(l, marks)) && gross == Total(GrossBySymbol(l, marks))
            && unrealized == Unrealized(l, marks)
  {
    hide NetOf, GainOf;
    assert On(NetBySymbol(l, marks), {}) == map[] && On(GrossBySymbol(l, marks), {}) == map[]
      && On(GainBySymbol(l, marks), {}) == map[];
  }

  // The branches of the class, in the terms of the ledger functions.

  lemma SpentBySide(f: Fill)
    ensures Spent(f) == if f.side.Buy? then Notional(f.price, f.qty) + f.fee else f.fee - Notional(f.price, f.qty)
  {
  }

  lemma RealizedBySide(held: Position, closed: real, price: real)
    requires held.entry.Some?
    ensures RealizedOn(held, closed, price) ==
            Notional(if held.qty > 0.0 then price - held.entry.value else held.entry.value - price, closed)
  {
  }

  function AverageOfMagnitudes(entry: real, held: real, price: real, added: real): real
    requires held + added != 0.0
  {
    (entry * held + price * added) / (held + added)
  }

  lemma AverageByMagnitude(held: Position, signed: real, price: real)
    requires held.entry.Some?
    ensures held.qty > 0.0 && signed > 0.0 ==>
              AverageEntry(held, signed, price) == AverageOfMagnitudes(held.entry.value, held.qty, price, signed)
    ensures held.qty < 0.0 && signed < 0.0 ==>
              AverageEntry(held, signed, price) ==
                AverageOfMagnitudes(held.entry.value, Abs(held.qty), price, Abs(signed))
  {
    if held.qty < 0.0 && signed < 0.0 {
      var x := AverageEntry(held, signed, price);
      AverageEntryWeighs(held, signed, price);
      assert x * (Abs(held.qty) + Abs(signed)) == held.entry.value * Abs(held.qty) + price * Abs(signed);
    }
  }

  lemma MarkBySide(p: Position, s: Symbol, marks: map<Symbol, real>)
    ensures var price := PriceOf(p, s, marks);
            && (p.qty == 0.0 ==> NetOf(p, s, marks) == 0.0 && GainOf(p, s, marks) == 0.0)
            && NetOf(p, s, marks) == Notional(p.qty, price)
            && (p.entry.Some? && p.qty > 0.0 ==> GainOf(p, s, marks) == Notional(price - p.entry.value, p.qty))
            && (p.entry.Some? && p.qty < 0.0 ==> GainOf(p, s, marks) == Notional(p.entry.value - price, Abs(p.qty)))
            && (p.entry.None? ==> GainOf(p, s, marks) == 0.0)
  {
  }

  function On(all: map<Symbol, real>, rest: set<Symbol>): map<Symbol, real> {
    map s | s in all && s in rest :: all[s]
  }

  /** One step of a loop that visits the keys of a map in any order. */
  lemma PeelRest(all: map<Symbol, real>, rest: set<Symbol>, s: Symbol)
    requires s in rest && rest <= all.Keys
    ensures Total(On(all, rest)) == all[s] + Total(On(all, rest - {s}))
  {
    TotalPeel(On(all, rest), s);
    assert On(all, rest) - {s} == On(all, rest - {s});
  }
}
