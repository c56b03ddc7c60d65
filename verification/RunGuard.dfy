/** The guard's session over whole runs: cooldown in closed form, and cached values against their naive definitions. */
module RunGuard {
  import opened Wrappers
  import opened Market
  import opened Portfolio
  import opened Lifecycle
  import opened Fills
  import opened Risk
  import opened RunSpec
  import opened RunLaws

  // ----- Cooldown -----

  predicate HasLoss(applied: seq<FillOutcome>) {
    exists o :: o in applied && LossClose(o)
  }

  /** The group of the last record in which some fill closed at a loss. */
  function LastLossGroup(steps: seq<StepRecord>): Option<nat> {
    if steps == [] then None
    else if HasLoss(steps[|steps| - 1].applied) then Some(steps[|steps| - 1].group)
    else LastLossGroup(steps[..|steps| - 1])
  }

  /** The cooldown left in group g: the policy's count, less one for every group completed since the last loss. */
  function CooldownIn(p: Policy, lastLoss: Option<nat>, g: nat): int {
    if p.cooldownBarsAfterStop.None? || lastLoss.None? then 0
    else
      var left := p.cooldownBarsAfterStop.value - (g - lastLoss.value);
      if left > 0 then left else 0
  }

  predicate GroupsUpTo(steps: seq<StepRecord>, g: nat) {
    forall k :: 0 <= k < |steps| ==> steps[k].group <= g
  }

  predicate CooldownClosed(st: RunState, p: Policy) {
    && st.session.cooldown == CooldownIn(p, LastLossGroup(st.steps), |st.points|)
    && GroupsUpTo(st.steps, |st.points|)
  }

  lemma {:induction false} LastLossIsPast(steps: seq<StepRecord>, g: nat)
    requires GroupsUpTo(steps, g)
    ensures LastLossGroup(steps).Some? ==> LastLossGroup(steps).value <= g
  {
    hide HasLoss;
    if steps != [] && !HasLoss(steps[|steps| - 1].applied) {
      assert GroupsUpTo(steps[..|steps| - 1], g);
      LastLossIsPast(steps[..|steps| - 1], g);
    }
  }

  /** Filling a queue sets the cooldown to the policy's count if a fill closed at a loss, and touches nothing else. */
  lemma {:induction false} FillingSetsCooldown(cfg: RunConfig, start: FillPass, queue: seq<Order>, bar: Bar)
    requires EntryKnown(start.ledger, bar.symbol) && FillPending(cfg, start, queue, bar).Ok? && start.applied == []
    requires cfg.policy.cooldownBarsAfterStop.Some? ==> start.session.cooldown <= cfg.policy.cooldownBarsAfterStop.value
    ensures var end := FillPending(cfg, start, queue, bar).value;
            && end.session == start.session.(cooldown := end.session.cooldown, activations := end.session.activations)
            && end.session.cooldown ==
               if cfg.policy.cooldownBarsAfterStop.Some? && HasLoss(end.applied)
               then cfg.policy.cooldownBarsAfterStop.value
               else start.session.cooldown
  {
    hide Process, Booked, FillOutcomeOf, LossClose;
    if queue != [] {
      var init, o := queue[..|queue| - 1], queue[|queue| - 1];
      FillingSetsCooldown(cfg, start, init, bar);
      var earlier, end := FillPending(cfg, start, init, bar).value, FillPending(cfg, start, queue, bar).value;
      if Process(cfg.costs, o, bar, earlier.nextFill).value.Some? {
        var last := end.applied[|earlier.applied|];
        assert last in end.applied;
        assert forall x :: x in earlier.applied ==> x in end.applied;
      }
    }
  }

  /** Every step ends by refreshing the session with the equity it records. */
  lemma StepRefreshes(
    cfg: RunConfig, strategy: Strategy, st: RunState, bar: Bar)
    returns (r: StepRecord, session: Session)
    requires StepBar(cfg, strategy, st, bar).Ok?
    ensures var after := StepBar(cfg, strategy, st, bar).value;
            && after.steps == st.steps + [r] && r.mark == MarkOf(after.ledger, after.marks)
            && after.session == Refreshed(session, cfg.zoneOffset, bar.time, r.mark.equity)
  {
    hide StepBar, FillPending, Filter, Plan, Equity, OrdersFor, Shown, Refreshed;
    var pass, _, _ := StepParts(cfg, strategy, st, bar);
    var after := StepBar(cfg, strategy, st, bar).value;
    r, session := after.steps[|st.steps|], pass.session;
  }

  lemma StepSession(cfg: RunConfig, strategy: Strategy, st: RunState, bar: Bar) returns (r: StepRecord, pass: FillPass)
    requires StepBar(cfg, strategy, st, bar).Ok?
    requires cfg.policy.cooldownBarsAfterStop.Some? ==> st.session.cooldown <= cfg.policy.cooldownBarsAfterStop.value
    ensures var after := StepBar(cfg, strategy, st, bar).value;
            && after.steps == st.steps + [r] && r.bar == bar && r.group == |st.points| == |after.points|
            && after.session == Refreshed(pass.session, cfg.zoneOffset, bar.time, r.mark.equity)
            && r.mark == MarkOf(after.ledger, after.marks)
            && pass.session == st.session.(cooldown := pass.session.cooldown, activations := pass.session.activations)
            && pass.session.cooldown ==
               (if cfg.policy.cooldownBarsAfterStop.Some? && HasLoss(r.applied)
                then cfg.policy.cooldownBarsAfterStop.value else st.session.cooldown)
            && (forall o :: o in r.outcomes && Permits(o.ruling) && Expands(o.currentQty, o.targetQty) ==>
                 pass.session.cooldown == 0)
  {
    hide StepBar, FillPending, Filter, Plan, Equity, OrdersFor, Shown, HasLoss, Judge, Refreshed, Expands;
    var intents, filtered;
    pass, intents, filtered := StepParts(cfg, strategy, st, bar);
    FillingSetsCooldown(cfg, OpenPass(st, bar), Queue(st.pending, bar.symbol), bar);
    var after, scene := StepBar(cfg, strategy, st, bar).value, SceneAt(cfg, st, pass, bar);
    r := after.steps[|st.steps|];
    PlannedAreCoherent(cfg.venue, strategy(st.seen + [Shown(cfg, st, pass.ledger, bar)]),
        Shown(cfg, st, pass.ledger, bar).positions);
    FilterJudgesEach(scene, intents);
    RefreshKeepsCooldown(pass.session, cfg.zoneOffset, bar.time, Equity(pass.ledger, scene.marks));
    forall o | o in r.outcomes && Permits(o.ruling) && Expands(o.currentQty, o.targetQty)
      ensures pass.session.cooldown == 0
    {
      var k :| 0 <= k < |r.outcomes| && r.outcomes[k] == o;
      NoExpansionInCooldown(scene, intents[k], Shown(cfg, st, pass.ledger, bar).positions);
    }
  }

  lemma RefreshKeepsCooldown(s: Session, offset: int, t: Instant, equity: real)
    ensures Refreshed(s, offset, t, equity).cooldown == s.cooldown
  {
  }

  lemma PlannedAreCoherent(v: Venue, d: Decision, positions: map<Symbol, real>)
    requires Plan(v, d, positions).Ok?
    ensures forall i :: i in Plan(v, d, positions).value ==> Coherent(i, positions)
  {
    hide PlanItems, Coherent;
    if !d.Pass? {
      PlannedIntentsAreCoherent(v, d.time, Targets(d).value, positions);
    }
  }

  /** While the cooldown runs, the guard permits no intent that expands exposure, bypass or not. */
  lemma NoExpansionInCooldown(sc: Scene, i: Intent, positions: map<Symbol, real>)
    requires Coherent(i, positions) && Judge(sc, i).Ok? && Permits(Judge(sc, i).value.ruling)
    requires Expands(Judge(sc, i).value.currentQty, Judge(sc, i).value.targetQty)
    ensures sc.session.cooldown == 0
  {
    hide DetectFrom, WithinLimits, Crashing;
    assert WouldExpand(i);
    ExpansionAllowedIffWithinLimits(sc, i);
    assert WithinLimits(sc, i);
    WithinLimitsNoCooldown(sc, i);
  }

  lemma WithinLimitsNoCooldown(sc: Scene, i: Intent)
    requires WithinLimits(sc, i) && WouldExpand(i)
    ensures sc.session.cooldown == 0
  {
    assert Bound(sc, CooldownActive, i);
  }

  lemma StepKeepsCooldown(cfg: RunConfig, strategy: Strategy, st: RunState, bar: Bar)
    requires StepBar(cfg, strategy, st, bar).Ok? && CooldownClosed(st, cfg.policy)
    ensures CooldownClosed(StepBar(cfg, strategy, st, bar).value, cfg.policy)
  {
    hide StepBar, MarkOf, HasLoss, Permits, Expands, Refreshed;
    LastLossIsPast(st.steps, |st.points|);
    var r, pass := StepSession(cfg, strategy, st, bar);
    var after := StepBar(cfg, strategy, st, bar).value;
    RefreshKeepsCooldown(pass.session, cfg.zoneOffset, bar.time, r.mark.equity);
    assert after.steps[..|st.steps|] == st.steps;
  }

  lemma CloseKeepsCooldown(st: RunState, time: Instant, p: Policy)
    requires CooldownClosed(st, p)
    ensures CooldownClosed(CloseGroup(st, time), p)
  {
    hide CloseGroup;
    CloseKeeps(st, time);
    LastLossIsPast(st.steps, |st.points|);
  }

  /** From a fresh start, the counter has its closed form in every reachable state. */
  lemma {:induction false} CooldownHasClosedForm(
    cfg: RunConfig, strategy: Strategy, st0: RunState, bars: seq<Bar>, n: nat)
    requires st0.session.cooldown == 0 && st0.steps == [] && st0.points == []
    requires n <= |bars| && Stepped(cfg, strategy, st0, bars, n).Ok?
    ensures CooldownClosed(Stepped(cfg, strategy, st0, bars, n).value, cfg.policy)
  {
    hide Stepped, StepBar, Before, CloseGroup;
    if n == 0 {
      NoStep(cfg, strategy, st0, bars);
    } else {
      hide CooldownClosed;
      var earlier, st := LastStep(cfg, strategy, st0, bars, n);
      CooldownHasClosedForm(cfg, strategy, st0, bars, n - 1);
      if st != earlier {
        CloseKeepsCooldown(earlier, bars[n - 2].time, cfg.policy);
      }
      StepKeepsCooldown(cfg, strategy, st, bars[n - 1]);
    }
  }

  /** A losing record bounds the last losing group from below. */
  lemma {:induction false} LastLossAtLeast(steps: seq<StepRecord>, i: nat)
    requires i < |steps| && HasLoss(steps[i].applied)
    requires forall a, b :: 0 <= a <= b < |steps| ==> steps[a].group <= steps[b].group
    ensures LastLossGroup(steps).Some? && LastLossGroup(steps).value >= steps[i].group
  {
    hide HasLoss;
    if !HasLoss(steps[|steps| - 1].applied) {
      var init := steps[..|steps| - 1];
      assert forall a, b :: 0 <= a <= b < |init| ==> init[a] == steps[a] && init[b] == steps[b];
      LastLossAtLeast(init, i);
    }
  }

  lemma {:induction false} GroupsAscend(cfg: RunConfig, strategy: Strategy, st0: RunState, bars: seq<Bar>, n: nat)
    requires st0.steps == [] && n <= |bars| && Stepped(cfg, strategy, st0, bars, n).Ok?
    ensures var st := Stepped(cfg, strategy, st0, bars, n).value;
            && GroupsUpTo(st.steps, |st.points|)
            && forall a, b :: 0 <= a <= b < |st.steps| ==> st.steps[a].group <= st.steps[b].group
  {
    hide Stepped, StepBar, Before, CloseGroup;
    if n == 0 {
      NoStep(cfg, strategy, st0, bars);
    } else {
      var earlier, st := LastStep(cfg, strategy, st0, bars, n);
      GroupsAscend(cfg, strategy, st0, bars, n - 1);
      if st != earlier {
        CloseKeeps(earlier, bars[n - 2].time);
      }
      var _, _ := StepAppends(cfg, strategy, st, bars[n - 1]);
    }
  }

  /**
   * If record i closes at a loss, then from that record on, through group L + N - 1 (L its group, N the policy's
   * count), nothing the guard permits expands exposure.
   */
  lemma {:induction false} NoExpansionAfterLoss(
    cfg: RunConfig, strategy: Strategy, st0: RunState, bars: seq<Bar>, n: nat, i: nat, j: nat, o: RiskOutcome)
    requires st0.session.cooldown == 0 && st0.steps == [] && st0.points == [] && st0.seen == []
    requires n <= |bars| && Stepped(cfg, strategy, st0, bars, n).Ok? && cfg.policy.cooldownBarsAfterStop.Some?
    requires i <= j < n == |Stepped(cfg, strategy, st0, bars, n).value.steps|
    requires HasLoss(Stepped(cfg, strategy, st0, bars, n).value.steps[i].applied)
    requires o in Stepped(cfg, strategy, st0, bars, n).value.steps[j].outcomes && Permits(o.ruling)
             && Expands(o.currentQty, o.targetQty)
    ensures var steps := Stepped(cfg, strategy, st0, bars, n).value.steps;
            steps[j].group >= steps[i].group + cfg.policy.cooldownBarsAfterStop.value
    decreases n
  {
    hide Stepped, StepBar, Before, CloseGroup, HasLoss, Expands, Permits, MarkOf, Refreshed;
    var earlier, st := LastStep(cfg, strategy, st0, bars, n);
    if st != earlier {
      CloseKeeps(earlier, bars[n - 2].time);
    }
    CooldownHasClosedForm(cfg, strategy, st0, bars, n - 1);
    if st != earlier {
      CloseKeepsCooldown(earlier, bars[n - 2].time, cfg.policy);
    }
    GroupsAscend(cfg, strategy, st0, bars, n);
    GroupsAscend(cfg, strategy, st0, bars, n - 1);
    LastLossIsPast(st.steps, |st.points|);
    var r, pass := StepSession(cfg, strategy, st, bars[n - 1]);
    StepsFollowBars(cfg, strategy, st0, bars, n - 1);
    if j < n - 1 {
      NoExpansionAfterLoss(cfg, strategy, st0, bars, n - 1, i, j, o);
    } else if i < j {
      LastLossAtLeast(st.steps, i);
    }
  }
}
