/** The order in which the order sink and the fill sink are called. */
module RunSinks {
  import opened Market
  import opened RunSpec
  import opened RunLaws
  import opened RunOrders
  import opened Runner

  /** Every call is made by one step. */
  lemma {:induction false} CallHasStep(steps: seq<StepRecord>, c: nat) returns (j: nat)
    requires c < |SinkCalls(steps)|
    ensures j < |steps| && |SinkCalls(steps[..j])| <= c && SinkCalls(steps)[c] in CallsOf(steps[j])
  {
    hide CallsOf;
    var m := |steps| - 1;
    if c < |SinkCalls(steps[..m])| {
      j := CallHasStep(steps[..m], c);
      assert steps[..m][..j] == steps[..j];
    } else {
      j := m;
      var k := c - |SinkCalls(steps[..m])|;
      assert SinkCalls(steps)[c] == CallsOf(steps[m])[k];
    }
  }

  lemma {:induction false} CallsGrow(steps: seq<StepRecord>, i: nat, c: nat)
    requires i <= |steps| && c < |SinkCalls(steps[..i])|
    ensures c < |SinkCalls(steps)| && SinkCalls(steps)[c] == SinkCalls(steps[..i])[c]
  {
    hide CallsOf;
    if i == |steps| {
      assert steps[..i] == steps;
    } else {
      assert steps[..|steps| - 1][..i] == steps[..i];
      CallsGrow(steps[..|steps| - 1], i, c);
    }
  }

  /** A step that creates orders hands them to the order sink before any later step calls a sink. */
  lemma OrdersCall(steps: seq<StepRecord>, i: nat, j: nat) returns (b: nat)
    requires i < j <= |steps| && steps[i].created != []
    ensures b < |SinkCalls(steps[..j])| <= |SinkCalls(steps)| && SinkCalls(steps)[b] == OrdersSunk(steps[i].created)
  {
    var upto := steps[..i + 1];
    assert upto[..i] == steps[..i];
    b := |SinkCalls(upto)| - 1;
    assert SinkCalls(upto) == SinkCalls(steps[..i]) + CallsOf(steps[i]);
    assert SinkCalls(upto)[b] == OrdersSunk(steps[i].created);
    assert steps[..j][..i + 1] == upto;
    CallsGrow(steps[..j], i + 1, b);
    CallsGrow(steps, j, b);
    CallsGrow(steps, j, |SinkCalls(steps[..j])| - 1);
  }

  /** Whenever the fill sink is handed a fill, the order sink was handed its order in an earlier call. */
  lemma OrderSinkComesFirst(cfg: RunConfig, strategy: Strategy, st0: RunState, bars: seq<Bar>, n: nat, c: nat, f: Fill)
    returns (b: nat, o: Order)
    requires st0.steps == [] && st0.pending == map[] && st0.seen == []
    requires n <= |bars| && Stepped(cfg, strategy, st0, bars, n).Ok?
    requires c < |SinkCalls(Stepped(cfg, strategy, st0, bars, n).value.steps)|
    requires var call := SinkCalls(Stepped(cfg, strategy, st0, bars, n).value.steps)[c];
             call.FillsSunk? && f in call.fills
    ensures var calls := SinkCalls(Stepped(cfg, strategy, st0, bars, n).value.steps);
            b < c && calls[b].OrdersSunk? && o in calls[b].orders && o.id == f.orderId && o.side == f.side
              && o.qty == f.qty
  {
    hide Stepped, SinkCalls;
    var steps := Stepped(cfg, strategy, st0, bars, n).value.steps;
    StepsFollowBars(cfg, strategy, st0, bars, n);
    var j := CallHasStep(steps, c);
    assert SinkCalls(steps)[c] == FillsSunk(steps[j].fills);
    var k :| 0 <= k < |steps[j].fills| && steps[j].fills[k] == f;
    var i;
    i, o := FillsComeFromEarlierOrders(cfg, strategy, st0, bars, n, j, k);
    b := OrdersCall(steps, i, j);
  }

  // ----- What the sinks receive -----

  function FillsGiven(c: SinkCall): seq<Fill> {
    if c.FillsSunk? then c.fills else []
  }

  function OrdersGiven(c: SinkCall): seq<Order> {
    if c.OrdersSunk? then c.orders else []
  }

  function StatusesGiven(c: SinkCall): seq<Order> {
    if c.StatusesSunk? then c.orders else []
  }

  /** What the calls hand over of one kind, put together. */
  function Given<T>(calls: seq<SinkCall>, part: SinkCall -> seq<T>): seq<T> {
    if calls == [] then [] else Given(calls[..|calls| - 1], part) + part(calls[|calls| - 1])
  }

  predicate IsEmpty(c: SinkCall) {
    match c
    case FillsSunk(fills) => fills == []
    case StatusesSunk(orders) => orders == []
    case OrdersSunk(orders) => orders == []
  }

  lemma {:induction false} GivenInBoth<T>(a: seq<SinkCall>, b: seq<SinkCall>, part: SinkCall -> seq<T>)
    ensures Given(a + b, part) == Given(a, part) + Given(b, part)
  {
    if b == [] {
      assert a + b == a;
    } else {
      var init := b[..|b| - 1];
      GivenInBoth(a, init, part);
      assert (a + b)[..|a + b| - 1] == a + init;
    }
  }

  lemma GivenAtMostOne<T>(calls: seq<SinkCall>, part: SinkCall -> seq<T>)
    requires |calls| <= 1
    ensures Given(calls, part) == if calls == [] then [] else part(calls[0])
  {
    if calls != [] { assert calls[..0] == []; }
  }

  lemma GivenByStep<T>(r: StepRecord, part: SinkCall -> seq<T>)
    ensures Given(CallsOf(r), part) ==
            (if r.fills != [] then part(FillsSunk(r.fills)) else [])
            + (if r.filled != [] then part(StatusesSunk(WithStatus(r.filled, Filled))) else [])
            + (if r.created != [] then part(OrdersSunk(r.created)) else [])
  {
    var fills: seq<SinkCall> := if r.fills != [] then [FillsSunk(r.fills)] else [];
    var statuses: seq<SinkCall> := if r.filled != [] then [StatusesSunk(WithStatus(r.filled, Filled))] else [];
    var orders: seq<SinkCall> := if r.created != [] then [OrdersSunk(r.created)] else [];
    hide WithStatus, Given;
    GivenInBoth(fills + statuses, orders, part);
    GivenInBoth(fills, statuses, part);
    GivenAtMostOne(fills, part);
    GivenAtMostOne(statuses, part);
    GivenAtMostOne(orders, part);
  }

  lemma StepCalls(r: StepRecord)
    ensures Given(CallsOf(r), FillsGiven) == r.fills && Given(CallsOf(r), OrdersGiven) == r.created
    ensures Given(CallsOf(r), StatusesGiven) == WithStatus(r.filled, Filled)
    ensures forall c :: c in CallsOf(r) ==> !IsEmpty(c)
  {
    hide Given;
    GivenByStep(r, FillsGiven);
    GivenByStep(r, OrdersGiven);
    GivenByStep(r, StatusesGiven);
  }

  /** The orders whose status the runner reports as filled. */
  function AllFilled(steps: seq<StepRecord>): seq<Order> {
    if steps == [] then [] else AllFilled(steps[..|steps| - 1]) + WithStatus(steps[|steps| - 1].filled, Filled)
  }

  /** The sinks are handed every fill, every order and every filled status once, in order, and never nothing. */
  lemma {:induction false} SinksReceiveEverything(steps: seq<StepRecord>)
    ensures Given(SinkCalls(steps), FillsGiven) == AllFills(steps)
    ensures Given(SinkCalls(steps), OrdersGiven) == AllCreated(steps)
    ensures Given(SinkCalls(steps), StatusesGiven) == AllFilled(steps)
    ensures forall c :: c in SinkCalls(steps) ==> !IsEmpty(c)
  {
    hide CallsOf, IsEmpty, FillsGiven, OrdersGiven, StatusesGiven, WithStatus;
    if steps != [] {
      var init, last := steps[..|steps| - 1], steps[|steps| - 1];
      SinksReceiveEverything(init);
      StepCalls(last);
      GivenInBoth(SinkCalls(init), CallsOf(last), FillsGiven);
      GivenInBoth(SinkCalls(init), CallsOf(last), OrdersGiven);
      GivenInBoth(SinkCalls(init), CallsOf(last), StatusesGiven);
    }
  }
}
