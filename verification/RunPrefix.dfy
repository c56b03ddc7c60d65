/** No lookahead: what a run has done by the end of a bar time does not depend on later bars. */
module RunPrefix {
  import opened Market
  import opened Portfolio
  import opened Performance
  import opened RunSpec
  import opened RunLaws

  /** Two bar sequences that agree on their first n bars are in the same state after n bars. */
  lemma {:induction false} SteppedDependsOnPrefix(
    cfg: RunConfig, strategy: Strategy, st0: RunState, a: seq<Bar>, b: seq<Bar>, n: nat)
    requires n <= |a| && n <= |b| && a[..n] == b[..n]
    ensures Stepped(cfg, strategy, st0, a, n) == Stepped(cfg, strategy, st0, b, n)
    decreases n
  {
    hide StepBar, CloseGroup;
    if n > 0 {
      assert a[..n - 1] == a[..n][..n - 1] && b[..n - 1] == b[..n][..n - 1];
      assert a[n - 1] == a[..n][n - 1] == b[n - 1];
      SteppedDependsOnPrefix(cfg, strategy, st0, a, b, n - 1);
      if n > 1 {
        assert a[n - 2] == a[..n][n - 2] == b[n - 2];
      }
    }
  }

  /** A run that raises on some bar raises on every continuation. */
  lemma {:induction false} RaisedStays(
    cfg: RunConfig, strategy: Strategy, st0: RunState, bars: seq<Bar>, m: nat, n: nat)
    requires m <= n <= |bars| && Stepped(cfg, strategy, st0, bars, m).Raised?
    ensures Stepped(cfg, strategy, st0, bars, n) == Stepped(cfg, strategy, st0, bars, m)
    decreases n - m
  {
    hide StepBar, CloseGroup;
    if m < n {
      RaisedStays(cfg, strategy, st0, bars, m, n - 1);
    }
  }

  /** Everything a run logs or shows only ever grows. */
  predicate Extends(a: RunState, b: RunState) {
    a.steps <= b.steps && a.seen <= b.seen && a.points <= b.points
  }

  lemma {:induction false} LaterExtends(
    cfg: RunConfig, strategy: Strategy, st0: RunState, bars: seq<Bar>, m: nat, n: nat)
    requires m < n <= |bars| && Stepped(cfg, strategy, st0, bars, n).Ok?
    ensures Before(cfg, strategy, st0, bars, m).Ok?
    ensures Extends(Before(cfg, strategy, st0, bars, m).value, Stepped(cfg, strategy, st0, bars, n).value)
    decreases n - m
  {
    hide Stepped, Before, StepBar, CloseGroup;
    var earlier, st := LastStep(cfg, strategy, st0, bars, n);
    var _, _ := StepAppends(cfg, strategy, st, bars[n - 1]);
    if m < n - 1 {
      LaterExtends(cfg, strategy, st0, bars, m, n - 1);
      if st != earlier {
        CloseAppends(earlier, bars[n - 2].time);
      }
    }
  }

  lemma CloseAppends(st: RunState, time: Instant)
    ensures Extends(st, CloseGroup(st, time))
  {
    hide MarkOf, PointAt;
  }

  /**
   * Cut the bars of a run where the bar time changes. Running only the first part gives exactly a prefix of what the
   * full run logs (fills, orders, risk outcomes), shows the strategy, and reports as performance points; and if the
   * first part raises, so does the full run, with the same error.
   */
  lemma NoLookahead(cfg: RunConfig, strategy: Strategy, st0: RunState, bars: seq<Bar>, more: seq<Bar>)
    requires bars != [] && more != [] && bars[|bars| - 1].time != more[0].time
    ensures Run(cfg, strategy, st0, bars).Raised? ==>
            Run(cfg, strategy, st0, bars + more) == Run(cfg, strategy, st0, bars)
    ensures Run(cfg, strategy, st0, bars + more).Ok? ==>
              && Run(cfg, strategy, st0, bars).Ok?
              && Extends(Run(cfg, strategy, st0, bars).value, Run(cfg, strategy, st0, bars + more).value)
  {
    var m, all := |bars|, bars + more;
    assert all[..m] == bars[..m];
    CutIsClosed(cfg, strategy, st0, bars, more);
    if Stepped(cfg, strategy, st0, bars, m).Raised? {
      RaisedStays(cfg, strategy, st0, all, m, |all|);
    }
    if Run(cfg, strategy, st0, all).Ok? {
      LaterExtends(cfg, strategy, st0, all, m, |all|);
      CloseAppends(Stepped(cfg, strategy, st0, all, |all|).value, all[|all| - 1].time);
    }
  }

  /** At a cut, the full run is where the run of the first part ended. */
  lemma CutIsClosed(cfg: RunConfig, strategy: Strategy, st0: RunState, bars: seq<Bar>, more: seq<Bar>)
    requires bars != [] && more != [] && bars[|bars| - 1].time != more[0].time
    ensures Stepped(cfg, strategy, st0, bars + more, |bars|) == Stepped(cfg, strategy, st0, bars, |bars|)
    ensures Before(cfg, strategy, st0, bars + more, |bars|) == Run(cfg, strategy, st0, bars)
  {
    hide StepBar, CloseGroup;
    assert (bars + more)[..|bars|] == bars[..|bars|];
    SteppedDependsOnPrefix(cfg, strategy, st0, bars, bars + more, |bars|);
  }
}
