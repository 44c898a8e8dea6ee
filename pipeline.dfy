/**
 * The frontend reads the backend's response. These lemmas evaluate the
 * frontend's functions on the record the backend returns (levels and
 * percentages unrounded) and relate the results to the backend's own
 * figures.
 */
module Pipeline {
  import opened Wrappers
  import opened Trade
  import App
  import Analyzer

  /** The string the backend writes for a signal. */
  function SignalName(s: Analyzer.Signal): string
  {
    match s
    case BUY => "BUY"
    case SELL => "SELL"
    case HOLD => "HOLD"
  }

  /** A row of the backend table as the frontend receives it: JSON booleans. */
  function AsIndicator(v: Analyzer.Vote): App.Indicator
  {
    App.Indicator(v.name, App.JsBool(v.buy), App.JsBool(v.sell))
  }

  function AsIndicators(votes: seq<Analyzer.Vote>): (cs: seq<App.Indicator>)
    ensures |cs| == |votes|
  {
    if votes == [] then []
    else AsIndicators(votes[..|votes| - 1]) + [AsIndicator(votes[|votes| - 1])]
  }

  /** The fields of the response the frontend evaluator reads. */
  function AsAnalysisData(rep: Analyzer.Report): App.AnalysisData
  {
    App.AnalysisData(
      Some(SignalName(rep.finalSignal)),
      Some(rep.entry), Some(rep.sl), Some(rep.tp),
      Some(AsIndicators(rep.confirmations)))
  }

  /** The frontend resolves the backend's signal to the same position. */
  lemma SignalResolvesToSameSide(s: Analyzer.Signal)
    ensures App.ToUpper(SignalName(s)) == SignalName(s)
    ensures App.SideOf(Some(SignalName(s))) == Analyzer.SideOfSignal(s)
  {
  }

  lemma {:induction false} FilterCommutes(votes: seq<Analyzer.Vote>)
    ensures App.CountedIndicators(AsIndicators(votes)) == AsIndicators(Analyzer.CountedKeys(votes))
  {
    if votes != [] {
      var init := votes[..|votes| - 1];
      FilterCommutes(init);
      var cs := AsIndicators(votes);
      assert cs[..|cs| - 1] == AsIndicators(init);
      var rest := Analyzer.CountedKeys(init);
      if votes[|votes| - 1].name != Analyzer.PIVOT_KEY {
        var keys := rest + [votes[|votes| - 1]];
        assert keys[..|keys| - 1] == rest;
      }
    }
  }

  lemma {:induction false} CountsOfConverted(keys: seq<Analyzer.Vote>)
    ensures App.BuyCount(AsIndicators(keys)) == Analyzer.LongTrueCount(keys)
    ensures App.SellCount(AsIndicators(keys)) == Analyzer.ShortTrueCount(keys)
  {
    if keys != [] {
      CountsOfConverted(keys[..|keys| - 1]);
      var cs := AsIndicators(keys);
      assert cs[..|cs| - 1] == AsIndicators(keys[..|keys| - 1]);
    }
  }

  /**
   * The percentages the frontend computes from the returned confirmation
   * table are the backend's own long and short percentages.
   */
  lemma PercentsAgree(r: Analyzer.Readings, price: real, amount: real)
    requires Analyzer.Analysis(r, price, amount).Ok?
    ensures var rep := Analyzer.Analysis(r, price, amount).value;
      var data := Some(AsAnalysisData(rep));
      App.LongPercent(data) == App.Pct(rep.longPercent) &&
      App.ShortPercent(data) == App.Pct(rep.shortPercent)
  {
    var rep := Analyzer.Analysis(r, price, amount).value;
    var close := Analyzer.PriceBar(r, price).close;
    Analyzer.TwentyPerVote(r, close);
    FilterCommutes(rep.confirmations);
    CountsOfConverted(Analyzer.CountedKeys(rep.confirmations));
  }

  /** Levels on the sides of the close that a sane bar guarantees. */
  predicate Bracketed(signal: Analyzer.Signal, close: real, sl: real, tp: real)
  {
    0.0 < close &&
    (signal == Analyzer.BUY ==> 0.0 < sl < close < tp) &&
    (signal == Analyzer.SELL ==> 0.0 < tp < close < sl) &&
    (signal == Analyzer.HOLD ==> 0.0 < sl && 0.0 < tp)
  }

  /** The conclusion of RiskFiguresAgree for one report. */
  predicate FiguresAgree(rep: Analyzer.Report, amount: real)
  {
    var data := Some(AsAnalysisData(rep));
    (rep.finalSignal != Analyzer.HOLD ==>
      rep.gain.Some? && rep.loss.Some? && rep.rr.Some? &&
      App.GainLossOf(data, Some(amount)) == Some(App.GainLoss(rep.gain.value, rep.loss.value)) &&
      App.CalculateRR(data) == App.Ratio(rep.rr.value)) &&
    (rep.finalSignal == Analyzer.HOLD ==>
      rep.gain.None? && rep.loss.None? && rep.rr.None? &&
      App.GainLossOf(data, Some(amount)) == Some(App.GainLoss(0.0, 0.0)) &&
      App.CalculateRR(data) == App.NoRatio)
  }

  /**
   * For a report whose levels bracket its entry and whose figures are the
   * backend's, the frontend computes the same figures (zeros and no ratio
   * for HOLD).
   */
  lemma FiguresAgreeOnLevels(rep: Analyzer.Report, amount: real)
    requires Bracketed(rep.finalSignal, rep.entry, rep.sl, rep.tp)
    requires Analyzer.MetricsOf(rep.finalSignal, rep.entry, Analyzer.Stops(rep.sl, rep.tp), amount)
      == Ok(Analyzer.Metrics(rep.rr, rep.gain, rep.loss))
    ensures FiguresAgree(rep, amount)
  {
    var data := Some(AsAnalysisData(rep));
    SignalResolvesToSameSide(rep.finalSignal);
    assert App.Direction(data) == Some(SignalName(rep.finalSignal));
    if rep.finalSignal != Analyzer.HOLD {
      var side := Analyzer.SideOfSignal(rep.finalSignal).value;
      var risk := -Move(side, rep.entry, rep.sl);
      var reward := Move(side, rep.entry, rep.tp);
      assert risk > 0.0;
      var rr := App.CalculateRR(data);
      assert rr.Ratio?;
      assert rr.value * risk == reward;
      assert rr.value == reward / risk;
    }
  }

  /**
   * On a sane bar the backend never fails, and for BUY and SELL the
   * frontend's gain, loss and ratio on the returned levels are the
   * backend's own. For HOLD the backend has no figures while the frontend
   * shows a gain and a loss of 0 and no ratio.
   */
  lemma RiskFiguresAgree(r: Analyzer.Readings, price: real, amount: real)
    requires Analyzer.SaneBar(Analyzer.PriceBar(r, price))
    ensures Analyzer.Analysis(r, price, amount).Ok?
    ensures FiguresAgree(Analyzer.Analysis(r, price, amount).value, amount)
  {
    var bar := Analyzer.PriceBar(r, price);
    var votes := Analyzer.Confirmations(r, bar.close);
    var keys := Analyzer.CountedKeys(votes);
    var signal := Analyzer.FinalSignal(
      Analyzer.Percentage(Analyzer.LongTrueCount(keys), |keys|),
      Analyzer.Percentage(Analyzer.ShortTrueCount(keys), |keys|));
    var stops := Analyzer.StopLevels(signal, bar.close,
      Analyzer.CalculatePivotPoints(bar.high, bar.low, bar.close));
    Analyzer.StopsBracketClose(signal, bar);
    var m := Analyzer.MetricsOf(signal, bar.close, stops, amount);
    assert m.Ok?;
    var rep := Analyzer.Analysis(r, price, amount).value;
    assert rep.finalSignal == signal && rep.entry == bar.close && rep.sl == stops.sl && rep.tp == stops.tp;
    assert rep.rr == m.value.rr && rep.gain == m.value.gain && rep.loss == m.value.loss;
    FiguresAgreeOnLevels(rep, amount);
  }
}
