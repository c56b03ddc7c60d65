/** The session history theorem carried through whole runs. */
module RunSession {
  import opened Wrappers
  import opened Market
  import opened Portfolio
  import opened Risk
  import opened RunSpec
  import opened RunLaws
  import opened RunGuard
  import opened SessionHistory

  function Observations(steps: seq<StepRecord>): seq<Observation> {
    seq(|steps|, k requires 0 <= k < |steps| => Observation(steps[k].bar.time, steps[k].mark.equity))
  }

  predicate TimesAscend(bars: seq<Bar>) {
    forall a, b :: 0 <= a <= b < |bars| ==> bars[a].time <= bars[b].time
  }

  lemma SameClockTracks(s: Session, t: Session, h: seq<Observation>, offset: int)
    requires Tracks(s, h, offset) && SameClock(s, t)
    ensures Tracks(t, h, offset)
  {
  }

  /**
   * In every reachable state of a run that starts fresh, over bars in time order from 1970 on, the session holds the
   * local date of the last bar, the first equity seen that date, the largest equity seen, and the last one.
   */
  lemma {:induction false} SessionRefinesHistory(
    cfg: RunConfig, strategy: Strategy, cash: real, seeds: map<Symbol, real>, bars: seq<Bar>, n: nat)
    requires n <= |bars| && Stepped(cfg, strategy, FreshStart(cash, seeds), bars, n).Ok?
    requires TimesAscend(bars) && (bars != [] ==> bars[0].time >= 0)
    ensures var st := Stepped(cfg, strategy, FreshStart(cash, seeds), bars, n).value;
            Tracks(st.session, Observations(st.steps), cfg.zoneOffset)
    decreases n
  {
    hide Stepped, StepBar, Before, CloseGroup, Tracks, Refreshed, HasLoss, MarkOf;
    var st0 := FreshStart(cash, seeds);
    if n == 0 {
      NoStep(cfg, strategy, st0, bars);
      FreshTracksNothing(cfg.zoneOffset);
      assert Observations(st0.steps) == [];
    } else {
      var earlier, st := LastStep(cfg, strategy, st0, bars, n);
      SessionRefinesHistory(cfg, strategy, cash, seeds, bars, n - 1);
      CooldownHasClosedForm(cfg, strategy, st0, bars, n - 1);
      LastLossIsPast(earlier.steps, |earlier.points|);
      if st != earlier {
        CloseKeeps(earlier, bars[n - 2].time);
        SameClockTracks(earlier.session, st.session, Observations(st.steps), cfg.zoneOffset);
      }
      StepsFollowBars(cfg, strategy, st0, bars, n - 1);
      var r, pass := StepSession(cfg, strategy, st, bars[n - 1]);
      SameClockTracks(st.session, pass.session, Observations(st.steps), cfg.zoneOffset);
      var o := Observation(r.bar.time, r.mark.equity);
      assert Observations(st.steps + [r]) == Observations(st.steps) + [o];
      RefreshTracks(pass.session, cfg.zoneOffset, Observations(st.steps), o);
    }
  }

  /** When a group closes, the session's last equity is the equity of the performance point, intents or not. */
  lemma LastEquityIsThePoint(cfg: RunConfig, strategy: Strategy, st0: RunState, bars: seq<Bar>, n: nat)
    requires 0 < n <= |bars| && Closed(cfg, strategy, st0, bars, n).Ok?
    ensures var st := Closed(cfg, strategy, st0, bars, n).value;
            |st.points| > 0 && st.session.lastEquity == Some(st.points[|st.points| - 1].mark.equity)
  {
    hide Stepped, StepBar;
    var _, st := LastStep(cfg, strategy, st0, bars, n);
    var _, _ := StepRefreshes(cfg, strategy, st, bars[n - 1]);
  }
}
