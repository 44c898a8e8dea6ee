/**
 * The decision rules of backend/main.py: classic floor-trader pivot points,
 * the confirmation table, the confirmation percentages and the final
 * BUY/SELL/HOLD rule, the stop-loss/take-profit selection with its
 * correction step, and the risk-reward, gain and loss figures. The
 * indicator readings and the spot price that `analyze` fetches from the
 * market-data provider are parameters.
 */
module Analyzer {
  import opened Wrappers
  import opened Trade

  // ---------------------------------------------------------------------
  // calculate_pivot_points
  // ---------------------------------------------------------------------

  datatype Pivots = Pivots(
    pivot: real,
    resistance1: real,
    support1: real,
    resistance2: real,
    support2: real)

  /**
   * The first resistance and support are one bar range apart, and the
   * second pair sits one bar range either side of the pivot.
   */
  function CalculatePivotPoints(high: real, low: real, close: real): (p: Pivots)
    ensures p.resistance1 - p.support1 == high - low
    ensures p.resistance2 == p.pivot + (high - low)
    ensures p.support2 == p.pivot - (high - low)
    ensures p.resistance2 - p.pivot == p.pivot - p.support2
    ensures low <= p.pivot <= high <== low <= close <= high
  {
    var pivot := (high + low + close) / 3.0;
    var resistance1 := 2.0 * pivot - low;
    var support1 := 2.0 * pivot - high;
    var resistance2 := pivot + (resistance1 - support1);
    var support2 := pivot - (resistance1 - support1);
    Pivots(pivot, resistance1, support1, resistance2, support2)
  }

  /** For a well-formed bar the five levels are in ascending order. */
  lemma PivotLevelsOrdered(high: real, low: real, close: real)
    requires low <= close <= high
    ensures var p := CalculatePivotPoints(high, low, close);
      p.support2 <= p.support1 <= p.pivot <= p.resistance1 <= p.resistance2
  {
  }

  // ---------------------------------------------------------------------
  // Readings and the price fallback
  // ---------------------------------------------------------------------

  /** The provider's readings; a reading the provider omits is 0. */
  datatype Readings = Readings(
    high: real, low: real, close: real,
    rsi: real,
    macdLine: real, signalLine: real,
    bbUpper: real, bbLower: real, bbMiddle: real,
    psar: real,
    stochK: real, stochD: real)

  datatype Bar = Bar(high: real, low: real, close: real)

  /**
   * The bar `analyze` works with: the readings, unless one of high, low or
   * close is 0, in which case the spot price with a 1% band either side.
   */
  function PriceBar(r: Readings, price: real): (b: Bar)
    ensures r.high != 0.0 && r.low != 0.0 && r.close != 0.0 ==> b == Bar(r.high, r.low, r.close)
    ensures r.high == 0.0 || r.low == 0.0 || r.close == 0.0 ==>
      b.close == price && b.high - b.low == 0.02 * price && b.high + b.low == 2.0 * price
  {
    if r.high == 0.0 || r.low == 0.0 || r.close == 0.0 then
      var close := price;
      Bar(close * 1.01, close * 0.99, close)
    else Bar(r.high, r.low, r.close)
  }

  /** A bar whose close lies within a positive range. */
  predicate SaneBar(b: Bar)
  {
    0.0 < b.low <= b.close <= b.high
  }

  /** The fallback bar of a positive price is sane. */
  lemma FallbackBarIsSane(r: Readings, price: real)
    requires r.high == 0.0 || r.low == 0.0 || r.close == 0.0
    requires price > 0.0
    ensures SaneBar(PriceBar(r, price))
  {
  }

  // ---------------------------------------------------------------------
  // The confirmation table
  // ---------------------------------------------------------------------

  const PIVOT_KEY: string := "Pivot Support/Resistance"

  /** One row of the confirmation table. */
  datatype Vote = Vote(name: string, buy: bool, sell: bool)

  /**
   * The confirmation table, in the dictionary's order. The pivot row always
   * votes both ways; RSI, MACD, PSAR and Stoch RSI never do, and Bollinger
   * Bands never do while the lower band is not above the upper one.
   */
  function Confirmations(r: Readings, close: real): (votes: seq<Vote>)
    ensures |votes| == 6
    ensures votes[2] == Vote(PIVOT_KEY, true, true)
    ensures forall i :: 0 <= i < 6 && i != 2 && i != 3 ==> !(votes[i].buy && votes[i].sell)
    ensures r.bbLower <= r.bbUpper ==> !(votes[3].buy && votes[3].sell)
    ensures forall i :: 0 <= i < 6 && i != 2 ==> votes[i].name != PIVOT_KEY
  {
    [ Vote("RSI", r.rsi < 40.0, r.rsi > 70.0),
      Vote("MACD", r.macdLine > r.signalLine, r.macdLine < r.signalLine),
      Vote(PIVOT_KEY, true, true),
      Vote("Bollinger Bands", close < r.bbLower, close > r.bbUpper),
      Vote("PSAR", close > r.psar, close < r.psar),
      Vote("Stoch RSI", r.stochK < 30.0 && r.stochD < 30.0, r.stochK > 70.0 && r.stochD > 70.0) ]
  }

  // ---------------------------------------------------------------------
  // Counts, percentages and the final signal
  // ---------------------------------------------------------------------

  /** The rows other than the pivot row, in order. */
  function CountedKeys(votes: seq<Vote>): (keys: seq<Vote>)
    ensures |keys| <= |votes|
    ensures forall i :: 0 <= i < |keys| ==> keys[i].name != PIVOT_KEY && keys[i] in votes
  {
    if votes == [] then []
    else
      var rest := CountedKeys(votes[..|votes| - 1]);
      if votes[|votes| - 1].name != PIVOT_KEY then rest + [votes[|votes| - 1]] else rest
  }

  /** Every row other than the pivot row is kept, and the pivot row is not. */
  lemma {:induction false} CountedKeysKeepNonPivot(votes: seq<Vote>)
    ensures forall v :: v in votes ==> (v in CountedKeys(votes) <==> v.name != PIVOT_KEY)
  {
    if votes != [] {
      var init := votes[..|votes| - 1];
      CountedKeysKeepNonPivot(init);
      forall v | v in votes
        ensures v in CountedKeys(votes) <==> v.name != PIVOT_KEY
      {
        if v != votes[|votes| - 1] {
          assert v in init;
        }
      }
    }
  }

  /**
   * The filter keeps order: the counted rows of a table split in two are
   * the counted rows of the first part followed by those of the second.
   * With CountedKeys([v]) being [v] or [] this fixes the result entirely.
   */
  lemma {:induction false} CountedKeysKeepOrder(a: seq<Vote>, b: seq<Vote>)
    ensures CountedKeys(a + b) == CountedKeys(a) + CountedKeys(b)
  {
    if b == [] {
      assert a + b == a;
    } else {
      CountedKeysKeepOrder(a, b[..|b| - 1]);
      assert (a + b)[..|a + b| - 1] == a + b[..|b| - 1];
    }
  }

  /** The number of counted rows that vote for a long position. */
  function LongTrueCount(keys: seq<Vote>): (n: nat)
    ensures n <= |keys|
    ensures n == 0 <==> forall i :: 0 <= i < |keys| ==> !keys[i].buy
    ensures n == |keys| <==> forall i :: 0 <= i < |keys| ==> keys[i].buy
  {
    if keys == [] then 0
    else LongTrueCount(keys[..|keys| - 1]) + (if keys[|keys| - 1].buy then 1 else 0)
  }

  /** The number of counted rows that vote for a short position. */
  function ShortTrueCount(keys: seq<Vote>): (n: nat)
    ensures n <= |keys|
    ensures n == 0 <==> forall i :: 0 <= i < |keys| ==> !keys[i].sell
    ensures n == |keys| <==> forall i :: 0 <= i < |keys| ==> keys[i].sell
  {
    if keys == [] then 0
    else ShortTrueCount(keys[..|keys| - 1]) + (if keys[|keys| - 1].sell then 1 else 0)
  }

  /**
   * The percentage of counted rows that vote, 0 when none is counted: it
   * is count per hundred of total and lies in [0, 100].
   */
  function Percentage(count: nat, total: nat): (p: real)
    ensures total == 0 ==> p == 0.0
    ensures total != 0 ==> p * total as real == count as real * 100.0
    ensures count <= total ==> 0.0 <= p <= 100.0
  {
    if total != 0 then count as real / total as real * 100.0 else 0.0
  }

  /**
   * Five rows are counted (the pivot row never is), so each percentage is
   * 20 per agreeing row and lies in [0, 100].
   */
  lemma TwentyPerVote(r: Readings, close: real)
    ensures var keys := CountedKeys(Confirmations(r, close));
      |keys| == 5 &&
      Percentage(LongTrueCount(keys), |keys|) == 20.0 * LongTrueCount(keys) as real &&
      Percentage(ShortTrueCount(keys), |keys|) == 20.0 * ShortTrueCount(keys) as real &&
      LongTrueCount(keys) <= 5 && ShortTrueCount(keys) <= 5
  {
    var votes := Confirmations(r, close);
    assert votes[..1][..0] == [];
    assert |CountedKeys(votes[..1])| == 1;
    assert votes[..2][..1] == votes[..1];
    assert |CountedKeys(votes[..2])| == 2;
    assert votes[..3][..2] == votes[..2];
    assert |CountedKeys(votes[..3])| == 2;
    assert votes[..4][..3] == votes[..3];
    assert |CountedKeys(votes[..4])| == 3;
    assert votes[..5][..4] == votes[..4];
    assert |CountedKeys(votes[..5])| == 4;
    assert votes[..6][..5] == votes[..5];
    assert votes[..6] == votes;
    var keys := CountedKeys(votes);
    assert |keys| == 5;
  }

  datatype Signal = BUY | SELL | HOLD

  /**
   * The final signal rule on the two percentages: BUY exactly when the long
   * percentage leads and reaches 50, SELL exactly when the short one does.
   */
  function FinalSignal(longPercent: real, shortPercent: real): (s: Signal)
    ensures s == BUY <==> longPercent > shortPercent && longPercent >= 50.0
    ensures s == SELL <==> shortPercent > longPercent && shortPercent >= 50.0
    ensures s == HOLD ==> (longPercent < 50.0 && shortPercent < 50.0) || longPercent == shortPercent
  {
    if longPercent > shortPercent && longPercent >= 50.0 then BUY
    else if shortPercent > longPercent && shortPercent >= 50.0 then SELL
    else HOLD
  }

  /**
   * On the five counted rows, BUY means more long than short votes and at
   * least three long votes, SELL the mirror image, HOLD everything else.
   */
  lemma SignalByVoteCount(longCount: nat, shortCount: nat)
    ensures FinalSignal(20.0 * longCount as real, 20.0 * shortCount as real) == BUY <==>
      longCount > shortCount && longCount >= 3
    ensures FinalSignal(20.0 * longCount as real, 20.0 * shortCount as real) == SELL <==>
      shortCount > longCount && shortCount >= 3
  {
  }

  // ---------------------------------------------------------------------
  // Stop-loss and take-profit
  // ---------------------------------------------------------------------

  const STOP_LOSS_BUFFER: real := 0.007
  const TAKE_PROFIT_BUFFER: real := 0.01

  datatype Stops = Stops(sl: real, tp: real)

  function Abs(x: real): real
  {
    if x < 0.0 then -x else x
  }

  /** The pivot distance window: between 5% and 50% of the close. */
  predicate InWindow(close: real, distance: real)
  {
    close * 0.05 <= distance <= close * 0.5
  }

  /** The pivot levels proposed for a signal; HOLD takes BUY's. */
  function Candidates(signal: Signal, p: Pivots): Stops
  {
    match signal
    case SELL => Stops(p.resistance1, p.support1)
    case _ => Stops(p.support1, p.resistance1)
  }

  /** The levels a fixed buffer away from the close; HOLD takes BUY's. */
  function BufferStops(signal: Signal, close: real): Stops
  {
    match signal
    case SELL => Stops(close * (1.0 + STOP_LOSS_BUFFER), close * (1.0 - TAKE_PROFIT_BUFFER))
    case _ => Stops(close * (1.0 - STOP_LOSS_BUFFER), close * (1.0 + TAKE_PROFIT_BUFFER))
  }

  /** Levels on the wrong side of each other for the signal. */
  predicate Misordered(signal: Signal, s: Stops)
  {
    (signal == BUY && s.tp <= s.sl) || (signal == SELL && s.tp >= s.sl)
  }

  /**
   * The levels `analyze` settles on: the pivot candidates when their
   * distance is in the window and they are ordered for the signal, the
   * buffer levels otherwise. For a positive close a BUY has its take-profit
   * above its stop and a SELL below it.
   */
  function StopLevels(signal: Signal, close: real, p: Pivots): (s: Stops)
    ensures signal == BUY && close > 0.0 ==> s.sl < s.tp
    ensures signal == SELL && close > 0.0 ==> s.tp < s.sl
    ensures s == Candidates(signal, p) || s == BufferStops(signal, close)
  {
    var c := Candidates(signal, p);
    if InWindow(close, Abs(c.tp - c.sl)) && !Misordered(signal, c) then c
    else BufferStops(signal, close)
  }

  /**
   * The selection and correction steps of the source, proved to compute
   * StopLevels.
   */
  method SelectStops(tradeDirection: Signal, close: real, pivots: Pivots)
    returns (sl: real, tp: real)
    ensures Stops(sl, tp) == StopLevels(tradeDirection, close, pivots)
  {
    var minDistance := close * 0.05;
    var maxDistance := close * 0.5;

    var slCandidate, tpCandidate;
    if tradeDirection == BUY {
      slCandidate, tpCandidate := pivots.support1, pivots.resistance1;
    } else if tradeDirection == SELL {
      slCandidate, tpCandidate := pivots.resistance1, pivots.support1;
    } else {
      slCandidate, tpCandidate := pivots.support1, pivots.resistance1;
    }

    var pivotDistance := Abs(tpCandidate - slCandidate);

    if minDistance <= pivotDistance <= maxDistance {
      sl, tp := slCandidate, tpCandidate;
    } else {
      if tradeDirection == BUY {
        sl := close * (1.0 - STOP_LOSS_BUFFER);
        tp := close * (1.0 + TAKE_PROFIT_BUFFER);
      } else if tradeDirection == SELL {
        sl := close * (1.0 + STOP_LOSS_BUFFER);
        tp := close * (1.0 - TAKE_PROFIT_BUFFER);
      } else {
        sl := close * (1.0 - STOP_LOSS_BUFFER);
        tp := close * (1.0 + TAKE_PROFIT_BUFFER);
      }
    }

    if tradeDirection == BUY && tp <= sl {
      tp := close * (1.0 + TAKE_PROFIT_BUFFER);
      sl := close * (1.0 - STOP_LOSS_BUFFER);
    } else if tradeDirection == SELL && tp >= sl {
      tp := close * (1.0 - TAKE_PROFIT_BUFFER);
      sl := close * (1.0 + STOP_LOSS_BUFFER);
    }
  }

  /**
   * For a bar with high above low, a BUY or SELL keeps the pivot levels
   * exactly when the bar range is in the distance window, and falls back to
   * the buffer levels otherwise.
   */
  lemma PivotStopsKeptIffInWindow(signal: Signal, high: real, low: real, close: real)
    requires signal != HOLD && high > low
    ensures var p := CalculatePivotPoints(high, low, close);
      (InWindow(close, high - low) ==> StopLevels(signal, close, p) == Candidates(signal, p)) &&
      (!InWindow(close, high - low) ==> StopLevels(signal, close, p) == BufferStops(signal, close))
  {
  }

  /** HOLD keeps the BUY-style pivot levels in the window, with no correction. */
  lemma HoldUsesBuyLevels(close: real, p: Pivots)
    ensures var c := Candidates(BUY, p);
      StopLevels(HOLD, close, p) ==
        if InWindow(close, Abs(c.tp - c.sl)) then c else BufferStops(BUY, close)
  {
  }

  /**
   * When the provider lacked high, low or close, the 1% band around a
   * positive price is narrower than the window, so the buffer levels are
   * always used.
   */
  lemma FallbackUsesBuffers(r: Readings, price: real, signal: Signal)
    requires r.high == 0.0 || r.low == 0.0 || r.close == 0.0
    requires price > 0.0
    ensures var b := PriceBar(r, price);
      StopLevels(signal, b.close, CalculatePivotPoints(b.high, b.low, b.close)) == BufferStops(signal, b.close)
  {
  }

  /**
   * On a sane bar, a BUY's stop lies strictly between 0 and the close and
   * its take-profit above the close; a SELL mirrors this; HOLD's levels are
   * positive.
   */
  lemma StopsBracketClose(signal: Signal, b: Bar)
    requires SaneBar(b)
    ensures var s := StopLevels(signal, b.close, CalculatePivotPoints(b.high, b.low, b.close));
      (signal == BUY ==> 0.0 < s.sl < b.close < s.tp) &&
      (signal == SELL ==> 0.0 < s.tp < b.close < s.sl) &&
      (signal == HOLD ==> 0.0 < s.sl && 0.0 < s.tp)
  {
  }

  // ---------------------------------------------------------------------
  // Risk-reward, gain and loss
  // ---------------------------------------------------------------------

  datatype Metrics = Metrics(rr: Option<real>, gain: Option<real>, loss: Option<real>)

  /** The one failure the pure part can raise; the source returns it as an error. */
  datatype AnalyzeError = FloatDivisionByZero

  function SideOfSignal(signal: Signal): Option<Side>
  {
    match signal
    case BUY => Some(Long)
    case SELL => Some(Short)
    case HOLD => None
  }

  /**
   * What the figures mean: for HOLD none; for BUY or SELL, a division by
   * zero when the close is 0, otherwise the ratio of the move to the
   * take-profit over the move to the stop (none when the stop is the
   * close), the profit at the take-profit and the negated profit at the
   * stop-loss.
   */
  function MetricsOf(signal: Signal, close: real, s: Stops, amount: real): (res: Result<Metrics, AnalyzeError>)
    ensures res.Err? <==> signal != HOLD && close == 0.0
    ensures res.Ok? ==> (res.value.rr.None? <==> signal == HOLD || s.sl == close)
    ensures res.Ok? ==> (res.value.gain.None? <==> signal == HOLD)
    ensures res.Ok? ==> (res.value.loss.None? <==> signal == HOLD)
  {
    match SideOfSignal(signal)
    case None => Ok(Metrics(None, None, None))
    case Some(side) =>
      if close == 0.0 then Err(FloatDivisionByZero)
      else
        var rr := if s.sl == close then None
                  else Some(Move(side, close, s.tp) / -Move(side, close, s.sl));
        Ok(Metrics(rr, Some(Pnl(side, close, s.tp, amount)), Some(-Pnl(side, close, s.sl, amount))))
  }

  /** The source's rr/gain/loss block, proved to compute MetricsOf. */
  method ComputeMetrics(tradeDirection: Signal, close: real, sl: real, tp: real, amount: real)
    returns (res: Result<Metrics, AnalyzeError>)
    ensures res == MetricsOf(tradeDirection, close, Stops(sl, tp), amount)
  {
    var rr: Option<real> := None;
    if tradeDirection == BUY && sl != close {
      rr := if close - sl != 0.0 then Some((tp - close) / (close - sl)) else None;
    } else if tradeDirection == SELL && sl != close {
      rr := if sl - close != 0.0 then Some((close - tp) / (sl - close)) else None;
    }

    var gain: Option<real> := None;
    var loss: Option<real> := None;
    if tradeDirection == BUY {
      if close == 0.0 {
        return Err(FloatDivisionByZero);
      }
      gain := Some((tp - close) * amount / close);
      loss := Some((close - sl) * amount / close);
      PnlBackendForm(close, tp, sl, amount);
    } else if tradeDirection == SELL {
      if close == 0.0 {
        return Err(FloatDivisionByZero);
      }
      gain := Some((close - tp) * amount / close);
      loss := Some((sl - close) * amount / close);
      PnlBackendForm(close, tp, sl, amount);
    }
    return Ok(Metrics(rr, gain, loss));
  }

  /**
   * A BUY or SELL on a sane bar has a ratio, and it is positive: the
   * take-profit lies on the winning side and the stop on the losing side.
   */
  lemma SaneBarRatioPositive(signal: Signal, b: Bar, amount: real)
    requires SaneBar(b) && signal != HOLD
    ensures var s := StopLevels(signal, b.close, CalculatePivotPoints(b.high, b.low, b.close));
      var m := MetricsOf(signal, b.close, s, amount);
      m.Ok? && m.value.rr.Some? && m.value.rr.value > 0.0 &&
      (amount >= 0.0 ==> m.value.gain.value >= 0.0 && m.value.loss.value >= 0.0)
  {
    StopsBracketClose(signal, b);
    var s := StopLevels(signal, b.close, CalculatePivotPoints(b.high, b.low, b.close));
    BracketedMetrics(signal, b.close, s, amount);
  }

  /**
   * With the stop on the losing side and the take-profit on the winning
   * side of a positive close, the ratio exists and is positive, and the
   * gain and loss are non-negative for a non-negative amount.
   */
  lemma BracketedMetrics(signal: Signal, close: real, s: Stops, amount: real)
    requires close > 0.0
    requires signal == BUY ==> s.sl < close < s.tp
    requires signal == SELL ==> s.tp < close < s.sl
    requires signal != HOLD
    ensures var m := MetricsOf(signal, close, s, amount);
      m.Ok? && m.value.rr.Some? && m.value.rr.value > 0.0 &&
      (amount >= 0.0 ==> m.value.gain.value >= 0.0 && m.value.loss.value >= 0.0)
  {
  }

  // ---------------------------------------------------------------------
  // analyze
  // ---------------------------------------------------------------------

  /** The fields of the response that the decision rules produce. */
  datatype Report = Report(
    direction: Signal,
    entry: real,
    sl: real,
    tp: real,
    rr: Option<real>,
    gain: Option<real>,
    loss: Option<real>,
    confirmations: seq<Vote>,
    longPercent: real,
    shortPercent: real,
    finalSignal: Signal)

  /**
   * The pure part of `analyze`, from readings, spot price and amount to the
   * report: the entry is the bar's close, the table has six rows, both
   * percentages lie in [0, 100], and gain and loss are reported exactly
   * when the signal is not HOLD.
   */
  function Analysis(r: Readings, price: real, amount: real): (res: Result<Report, AnalyzeError>)
    ensures res.Ok? ==> res.value.entry == PriceBar(r, price).close
    ensures res.Ok? ==> |res.value.confirmations| == 6
    ensures res.Ok? ==> 0.0 <= res.value.longPercent <= 100.0 && 0.0 <= res.value.shortPercent <= 100.0
    ensures res.Ok? ==> (res.value.finalSignal == HOLD <==> res.value.gain.None? && res.value.loss.None?)
  {
    var bar := PriceBar(r, price);
    var pivots := CalculatePivotPoints(bar.high, bar.low, bar.close);
    var votes := Confirmations(r, bar.close);
    var keys := CountedKeys(votes);
    var longPercent := Percentage(LongTrueCount(keys), |keys|);
    var shortPercent := Percentage(ShortTrueCount(keys), |keys|);
    var signal := FinalSignal(longPercent, shortPercent);
    var stops := StopLevels(signal, bar.close, pivots);
    match MetricsOf(signal, bar.close, stops, amount)
    case Err(e) => Err(e)
    case Ok(m) =>
      Ok(Report(signal, bar.close, stops.sl, stops.tp, m.rr, m.gain, m.loss,
                votes, longPercent, shortPercent, signal))
  }

  /** The body of `analyze` after the readings are fetched, proved to compute Analysis. */
  method Analyze(r: Readings, price: real, amount: real) returns (res: Result<Report, AnalyzeError>)
    ensures res == Analysis(r, price, amount)
  {
    var high, low, close := r.high, r.low, r.close;
    if high == 0.0 || low == 0.0 || close == 0.0 {
      close := price;
      high := close * 1.01;
      low := close * 0.99;
    }
    var pivots := CalculatePivotPoints(high, low, close);
    var confirmations := Confirmations(r, close);
    var keys := CountedKeys(confirmations);
    var longPercent := Percentage(LongTrueCount(keys), |keys|);
    var shortPercent := Percentage(ShortTrueCount(keys), |keys|);
    var finalSignal := FinalSignal(longPercent, shortPercent);
    var tradeDirection := finalSignal;
    var sl, tp := SelectStops(tradeDirection, close, pivots);
    var metrics := ComputeMetrics(tradeDirection, close, sl, tp, amount);
    if metrics.Err? {
      return Err(metrics.error);
    }
    var m := metrics.value;
    return Ok(Report(tradeDirection, close, sl, tp, m.rr, m.gain, m.loss,
                     confirmations, longPercent, shortPercent, finalSignal));
  }

  /**
   * The pure part fails only by dividing by a zero close, which needs a
   * BUY or SELL signal.
   */
  lemma AnalysisFailsOnlyOnZeroClose(r: Readings, price: real, amount: real)
    ensures Analysis(r, price, amount).Err? <==>
      PriceBar(r, price).close == 0.0 &&
      var keys := CountedKeys(Confirmations(r, 0.0));
      FinalSignal(Percentage(LongTrueCount(keys), |keys|),
                  Percentage(ShortTrueCount(keys), |keys|)) != HOLD
  {
  }
}
