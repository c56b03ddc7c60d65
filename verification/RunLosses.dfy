/** The cooldown in terms of the money lost: a run's log replayed fill by fill, and what each fill did to the profit. */
module RunLosses {
  import opened Wrappers
  import opened Market
  import opened Portfolio
  import opened Lifecycle
  import opened Fills
  import opened Risk
  import opened RunSpec
  import opened RunLaws
  import opened RunGuard

  // ----- One fill -----

  /** Booking a fill lowers the realized profit exactly when it trades against what is held at a worse price. */
  lemma LosingFillIs(l: Ledger, f: Fill)
    requires EntryKnown(l, f.symbol)
    ensures var held, traded := Held(l, f.symbol), Signed(f.side, f.qty);
            Booked(l, f).realized < l.realized <==>
              || (held.qty > 0.0 && traded < 0.0 && f.price < held.entry.value)
              || (held.qty < 0.0 && traded > 0.0 && f.price > held.entry.value)
  {
    var held, traded := Held(l, f.symbol), Signed(f.side, f.qty);
    if held.qty != 0.0 && Sign(held.qty) != Sign(traded) {
      var closed := Min(Abs(held.qty), Abs(traded));
      assert traded != 0.0 <==> closed > 0.0;
      var perUnit := if held.qty > 0.0 then f.price - held.entry.value else held.entry.value - f.price;
      assert Booked(l, f).realized == l.realized + perUnit * closed;
      SignOfProduct(perUnit, closed);
    }
  }

  lemma SignOfProduct(x: real, y: real)
    requires y >= 0.0
    ensures x * y < 0.0 <==> x < 0.0 && y > 0.0
  {
  }

  /** The guard is told of a fill: it raises the counter to the policy's count if the fill lost money, and only then. */
  lemma LossSetsCooldown(l: Ledger, f: Fill, s: Session, p: Policy)
    requires EntryKnown(l, f.symbol)
    ensures Observed(s, p, FillOutcomeOf(l, f)) ==
            if p.cooldownBarsAfterStop.None? || Booked(l, f).realized >= l.realized then s
            else s.(cooldown := if p.cooldownBarsAfterStop.value > s.cooldown then p.cooldownBarsAfterStop.value
                                else s.cooldown,
                    activations := s.activations + 1)
  {
  }

  // ----- The log, replayed -----

  function Replay(l: Ledger, fills: seq<Fill>): Ledger {
    if fills == [] then l else
      var earlier, f := Replay(l, fills[..|fills| - 1]), fills[|fills| - 1];
      if EntryKnown(earlier, f.symbol) then Booked(earlier, f) else earlier
  }

  /** The j-th of the fills lowers the realized profit. */
  predicate Loses(l: Ledger, fills: seq<Fill>, j: nat)
    requires j < |fills|
  {
    Replay(l, fills[..j + 1]).realized < Replay(l, fills[..j]).realized
  }

  /** The ledger that a log leads to: at each bar a seed takes its entry price, then the fills are booked in turn. */
  function LedgerAfter(l: Ledger, steps: seq<StepRecord>): Ledger {
    if steps == [] then l else
      var r := steps[|steps| - 1];
      Replay(SeedEntry(LedgerAfter(l, steps[..|steps| - 1]), r.bar.symbol, r.bar.open), r.fills)
  }

  /** Some fill of bar k lost money. */
  ghost predicate BarLoses(l: Ledger, steps: seq<StepRecord>, k: nat)
    requires k < |steps|
  {
    var r := steps[k];
    var before := SeedEntry(LedgerAfter(l, steps[..k]), r.bar.symbol, r.bar.open);
    exists j :: 0 <= j < |r.fills| && Loses(before, r.fills, j)
  }

  /** The group of the last bar that lost money. */
  ghost function LastLosingGroup(l: Ledger, steps: seq<StepRecord>): Option<nat> {
    if steps == [] then None
    else if BarLoses(l, steps, |steps| - 1) then Some(steps[|steps| - 1].group)
    else LastLosingGroup(l, steps[..|steps| - 1])
  }

  // ----- The outcomes tell of the losses -----

  predicate OutcomesTell(l: Ledger, fills: seq<Fill>, applied: seq<FillOutcome>) {
    |applied| == |fills| && forall j :: 0 <= j < |fills| ==> (LossClose(applied[j]) <==> Loses(l, fills, j))
  }

  lemma OutcomesTellOneMore(l: Ledger, fills: seq<Fill>, applied: seq<FillOutcome>, f: Fill)
    requires OutcomesTell(l, fills, applied) && EntryKnown(Replay(l, fills), f.symbol)
    ensures OutcomesTell(l, fills + [f], applied + [FillOutcomeOf(Replay(l, fills), f)])
    ensures Replay(l, fills + [f]) == Booked(Replay(l, fills), f)
  {
    var more, outcomes := fills + [f], applied + [FillOutcomeOf(Replay(l, fills), f)];
    assert more[..|fills|] == fills && more[..|fills| + 1] == more;
    LossClosesLose(Replay(l, fills), f);
    hide Booked, FillOutcomeOf, LossClose;
    forall j | 0 <= j < |more| ensures LossClose(outcomes[j]) <==> Loses(l, more, j) {
      if j < |fills| {
        assert more[..j] == fills[..j] && more[..j + 1] == fills[..j + 1];
        assert LossClose(applied[j]) <==> Loses(l, fills, j);
      }
    }
  }

  lemma LossClosesLose(l: Ledger, f: Fill)
    requires EntryKnown(l, f.symbol)
    ensures LossClose(FillOutcomeOf(l, f)) <==> Booked(l, f).realized < l.realized
  {
  }

  lemma {:induction false} PassReplays(cfg: RunConfig, start: FillPass, queue: seq<Order>, bar: Bar)
    requires EntryKnown(start.ledger, bar.symbol) && FillPending(cfg, start, queue, bar).Ok?
    requires start.fills == [] && start.applied == []
    ensures var end := FillPending(cfg, start, queue, bar).value;
            end.ledger == Replay(start.ledger, end.fills) && OutcomesTell(start.ledger, end.fills, end.applied)
  {
    hide Process, Booked, FillOutcomeOf, LossClose, Observed, OutcomesTell;
    if queue == [] {
      NothingToTell(start.ledger);
    } else {
      var init, o := queue[..|queue| - 1], queue[|queue| - 1];
      PassReplays(cfg, start, init, bar);
      var earlier := FillPending(cfg, start, init, bar).value;
      var update := Process(cfg.costs, o, bar, earlier.nextFill).value;
      if update.Some? {
        FillSymbol(cfg.costs, o, bar, earlier.nextFill);
        OutcomesTellOneMore(start.ledger, earlier.fills, earlier.applied, update.value);
      }
    }
  }

  lemma NothingToTell(l: Ledger)
    ensures OutcomesTell(l, [], []) && Replay(l, []) == l
  {
  }

  /** The log replays to the ledger, and its outcomes tell which bars lost money. */
  ghost predicate LogTells(l: Ledger, st: RunState) {
    && LedgerAfter(l, st.steps) == st.ledger
    && forall k :: 0 <= k < |st.steps| ==> (HasLoss(st.steps[k].applied) <==> BarLoses(l, st.steps, k))
  }

  lemma EarlierBarLoses(l: Ledger, steps: seq<StepRecord>, r: StepRecord, k: nat)
    requires k < |steps|
    ensures BarLoses(l, steps + [r], k) <==> BarLoses(l, steps, k)
  {
    assert (steps + [r])[..k] == steps[..k];
  }

  lemma StepReplays(cfg: RunConfig, strategy: Strategy, st: RunState, bar: Bar, l: Ledger) returns (r: StepRecord)
    requires StepBar(cfg, strategy, st, bar).Ok? && LedgerAfter(l, st.steps) == st.ledger
    ensures var after := StepBar(cfg, strategy, st, bar).value;
            && after.steps == st.steps + [r] && LedgerAfter(l, after.steps) == after.ledger
            && (HasLoss(r.applied) <==> BarLoses(l, after.steps, |st.steps|))
  {
    hide StepBar, FillPending, SceneAt, Plan, Filter, Shown, OrdersFor, LossClose, MarkOf, Replay, Loses;
    var pass, _, _ := StepParts(cfg, strategy, st, bar);
    var after := StepBar(cfg, strategy, st, bar).value;
    r := after.steps[|st.steps|];
    PassReplays(cfg, OpenPass(st, bar), Queue(st.pending, bar.symbol), bar);
    assert after.steps[..|st.steps|] == st.steps;
    var before := SeedEntry(st.ledger, bar.symbol, bar.open);
    LossAmong(before, r.fills, r.applied);
  }

  lemma LossAmong(l: Ledger, fills: seq<Fill>, applied: seq<FillOutcome>)
    requires OutcomesTell(l, fills, applied)
    ensures HasLoss(applied) <==> exists j :: 0 <= j < |fills| && Loses(l, fills, j)
  {
    hide LossClose, Loses;
    if HasLoss(applied) {
      var o :| o in applied && LossClose(o);
      var j :| 0 <= j < |applied| && applied[j] == o;
      assert Loses(l, fills, j);
    }
    if j :| 0 <= j < |fills| && Loses(l, fills, j) {
      assert applied[j] in applied;
    }
  }

  /** In every reachable state the ledger is what its log replays to. */
  lemma {:induction false} RunReplaysItsLog(cfg: RunConfig, strategy: Strategy, st0: RunState, bars: seq<Bar>, n: nat)
    requires st0.steps == [] && n <= |bars| && Stepped(cfg, strategy, st0, bars, n).Ok?
    ensures LogTells(st0.ledger, Stepped(cfg, strategy, st0, bars, n).value)
  {
    hide Stepped, StepBar, Before, CloseGroup, HasLoss, BarLoses;
    if n == 0 {
      NoStep(cfg, strategy, st0, bars);
    } else {
      var earlier, st := LastStep(cfg, strategy, st0, bars, n);
      RunReplaysItsLog(cfg, strategy, st0, bars, n - 1);
      if st != earlier { CloseKeeps(earlier, bars[n - 2].time); }
      hide LedgerAfter;
      var r := StepReplays(cfg, strategy, st, bars[n - 1], st0.ledger);
      var steps := Stepped(cfg, strategy, st0, bars, n).value.steps;
      forall k | 0 <= k < |steps| ensures HasLoss(steps[k].applied) <==> BarLoses(st0.ledger, steps, k) {
        if k < |st.steps| { EarlierBarLoses(st0.ledger, st.steps, r, k); }
      }
    }
  }

  lemma {:induction false} LossGroupsAgree(l: Ledger, steps: seq<StepRecord>)
    requires forall k :: 0 <= k < |steps| ==> (HasLoss(steps[k].applied) <==> BarLoses(l, steps, k))
    ensures LastLosingGroup(l, steps) == LastLossGroup(steps)
  {
    hide HasLoss, BarLoses;
    if steps != [] {
      var init, last := steps[..|steps| - 1], steps[|steps| - 1];
      assert steps == init + [last];
      forall k | 0 <= k < |init| ensures HasLoss(init[k].applied) <==> BarLoses(l, init, k) {
        EarlierBarLoses(l, init, last, k);
      }
      LossGroupsAgree(l, init);
    }
  }

  // ----- The cooldown of a run -----

  /**
   * In every reachable state the counter is the policy's count less the groups completed since the last bar on which
   * some fill lowered the realized profit, and 0 if there is none or the count has run down.
   */
  lemma CooldownFollowsLosses(cfg: RunConfig, strategy: Strategy, st0: RunState, bars: seq<Bar>, n: nat)
    requires st0.session.cooldown == 0 && st0.steps == [] && st0.points == []
    requires n <= |bars| && Stepped(cfg, strategy, st0, bars, n).Ok?
    ensures var st := Stepped(cfg, strategy, st0, bars, n).value;
            st.session.cooldown == CooldownIn(cfg.policy, LastLosingGroup(st0.ledger, st.steps), |st.points|)
  {
    hide Stepped, CooldownIn, HasLoss, BarLoses;
    CooldownHasClosedForm(cfg, strategy, st0, bars, n);
    RunReplaysItsLog(cfg, strategy, st0, bars, n);
    LossGroupsAgree(st0.ledger, Stepped(cfg, strategy, st0, bars, n).value.steps);
  }

  /**
   * If some fill of bar i lowers the realized profit, then from that bar on, through group L + N - 1 (L its group, N
   * the policy's count), nothing the guard permits expands exposure.
   */
  lemma NoExpansionAfterLosingBar(
    cfg: RunConfig, strategy: Strategy, st0: RunState, bars: seq<Bar>, n: nat, i: nat, j: nat, o: RiskOutcome)
    requires st0.session.cooldown == 0 && st0.steps == [] && st0.points == [] && st0.seen == []
    requires n <= |bars| && Stepped(cfg, strategy, st0, bars, n).Ok? && cfg.policy.cooldownBarsAfterStop.Some?
    requires i <= j < n == |Stepped(cfg, strategy, st0, bars, n).value.steps|
    requires BarLoses(st0.ledger, Stepped(cfg, strategy, st0, bars, n).value.steps, i)
    requires o in Stepped(cfg, strategy, st0, bars, n).value.steps[j].outcomes && Permits(o.ruling)
             && Expands(o.currentQty, o.targetQty)
    ensures var steps := Stepped(cfg, strategy, st0, bars, n).value.steps;
            steps[j].group >= steps[i].group + cfg.policy.cooldownBarsAfterStop.value
  {
    hide Stepped, HasLoss, BarLoses, Expands, Permits;
    RunReplaysItsLog(cfg, strategy, st0, bars, n);
    NoExpansionAfterLoss(cfg, strategy, st0, bars, n, i, j, o);
  }
}
