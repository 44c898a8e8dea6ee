/**
 * The frontend evaluator of src/App.js: the flag normaliser, the direction
 * read from `final_signal`, the confirmation percentages, the projected gain
 * and loss, and the risk-reward ratio. The React state the source reads
 * (`data`, `amount`) is passed in as parameters.
 */
module App {
  import opened Wrappers
  import opened Trade

  // ---------------------------------------------------------------------
  // Values as they arrive in the JSON payload
  // ---------------------------------------------------------------------

  /** A JSON value in a confirmation flag, tagged by its JavaScript type. */
  datatype JsValue =
    | JsBool(b: bool)
    | JsString(s: string)
    | JsNumber(n: real)
    | JsNull
    | JsUndefined
    | JsObject

  /**
   * One entry of `data.confirmations`, in `Object.keys` order. A flag the
   * entry lacks, or any flag of an entry that is not an object, reads as
   * JsUndefined (what `?.buy` yields).
   */
  datatype Indicator = Indicator(name: string, buy: JsValue, sell: JsValue)

  /**
   * The analysis record received from the backend. Numeric levels are
   * already parsed; None is a missing field.
   */
  datatype AnalysisData = AnalysisData(
    finalSignal: Option<string>,
    entry: Option<real>,
    sl: Option<real>,
    tp: Option<real>,
    confirmations: Option<seq<Indicator>>)

  /** JavaScript truthiness of a parsed number: present and nonzero. */
  predicate Truthy(x: Option<real>)
  {
    x.Some? && x.value != 0.0
  }

  // ---------------------------------------------------------------------
  // Case mapping (ASCII letters)
  // ---------------------------------------------------------------------

  function LowerChar(c: char): char
  {
    if 'A' <= c <= 'Z' then (c as int + 32) as char else c
  }

  function UpperChar(c: char): char
  {
    if 'a' <= c <= 'z' then (c as int - 32) as char else c
  }

  function ToLower(s: string): string
  {
    seq(|s|, i requires 0 <= i < |s| => LowerChar(s[i]))
  }

  function ToUpper(s: string): string
  {
    seq(|s|, i requires 0 <= i < |s| => UpperChar(s[i]))
  }

  /** A string without lower-case letters is its own upper-case form. */
  lemma UpperOfUpper(s: string)
    requires forall i :: 0 <= i < |s| ==> !('a' <= s[i] <= 'z')
    ensures ToUpper(s) == s
  {
  }

  // ---------------------------------------------------------------------
  // toBoolean
  // ---------------------------------------------------------------------

  /**
   * The flag normaliser: total over every JSON value. Only booleans,
   * strings and numbers can be true, and a true string has the length of
   * "yes" or "true".
   */
  function ToBoolean(v: JsValue): (b: bool)
    ensures b ==> v.JsBool? || v.JsString? || v.JsNumber?
    ensures b && v.JsString? ==> |v.s| == 3 || |v.s| == 4
  {
    match v
    case JsBool(b) => b
    case JsString(s) => ToLower(s) == "true" || ToLower(s) == "yes"
    case JsNumber(n) => n != 0.0
    case _ => false
  }

  /** `s` spells the lower-case word `w` with each letter in either case. */
  ghost predicate SpelledAnyCase(s: string, w: string)
  {
    |s| == |w| && forall i :: 0 <= i < |s| ==> s[i] == w[i] || s[i] == UpperChar(w[i])
  }

  /**
   * A string flag is true exactly when it spells "true" or "yes" in any
   * mix of cases.
   */
  lemma ToBooleanOnStrings(s: string)
    ensures ToBoolean(JsString(s)) <==> SpelledAnyCase(s, "true") || SpelledAnyCase(s, "yes")
  {
  }

  /**
   * The coercion table: booleans pass through, numbers are true iff
   * nonzero, null, undefined and objects are false, and the normaliser is
   * idempotent.
   */
  lemma ToBooleanTable(v: JsValue)
    ensures ToBoolean(JsBool(ToBoolean(v))) == ToBoolean(v)
    ensures v.JsBool? ==> ToBoolean(v) == v.b
    ensures v.JsNumber? ==> (ToBoolean(v) <==> v.n != 0.0)
    ensures v.JsNull? || v.JsUndefined? || v.JsObject? ==> !ToBoolean(v)
    ensures ToBoolean(JsBool(true)) && !ToBoolean(JsBool(false))
    ensures ToBoolean(JsString("YES")) && ToBoolean(JsString("True"))
    ensures !ToBoolean(JsString("no")) && !ToBoolean(JsString(""))
    ensures !ToBoolean(JsNumber(0.0)) && ToBoolean(JsNumber(5.0)) && ToBoolean(JsNumber(-0.5))
    ensures !ToBoolean(JsNull) && !ToBoolean(JsUndefined) && !ToBoolean(JsObject)
  {
  }

  // ---------------------------------------------------------------------
  // direction
  // ---------------------------------------------------------------------

  /**
   * The upper-cased final signal, if there is a record and a signal: a
   * string of the same length with no lower-case letter left.
   */
  function Direction(data: Option<AnalysisData>): (d: Option<string>)
    ensures d.Some? <==> data.Some? && data.value.finalSignal.Some?
    ensures d.Some? ==> |d.value| == |data.value.finalSignal.value|
    ensures d.Some? ==> forall i :: 0 <= i < |d.value| ==> !('a' <= d.value[i] <= 'z')
  {
    if data.None? || data.value.finalSignal.None? then None
    else Some(ToUpper(data.value.finalSignal.value))
  }

  /** `s` upper-cases to the upper-case form of the lower-case word `w` exactly when it spells `w`. */
  lemma UpperIsWord(s: string, w: string)
    requires forall i :: 0 <= i < |w| ==> 'a' <= w[i] <= 'z'
    ensures ToUpper(s) == ToUpper(w) <==> SpelledAnyCase(s, w)
  {
    if ToUpper(s) == ToUpper(w) {
      forall i | 0 <= i < |s|
        ensures s[i] == w[i] || s[i] == UpperChar(w[i])
      {
        assert UpperChar(s[i]) == ToUpper(s)[i] == ToUpper(w)[i] == UpperChar(w[i]);
      }
    }
    if SpelledAnyCase(s, w) {
      forall i | 0 <= i < |s|
        ensures ToUpper(s)[i] == ToUpper(w)[i]
      {
      }
    }
  }

  /**
   * A signal resolves to the direction "BUY" exactly when it spells "buy"
   * in any mix of cases, and to "SELL" exactly when it spells "sell".
   */
  lemma DirectionMatchesAnyCase(d: AnalysisData)
    ensures Direction(Some(d)) == Some("BUY") <==>
      d.finalSignal.Some? && SpelledAnyCase(d.finalSignal.value, "buy")
    ensures Direction(Some(d)) == Some("SELL") <==>
      d.finalSignal.Some? && SpelledAnyCase(d.finalSignal.value, "sell")
  {
    if d.finalSignal.Some? {
      UpperIsWord(d.finalSignal.value, "buy");
      UpperIsWord(d.finalSignal.value, "sell");
      assert ToUpper("buy") == "BUY";
      assert ToUpper("sell") == "SELL";
    }
  }

  /** The position a direction opens, if it is exactly "BUY" or "SELL". */
  function SideOf(direction: Option<string>): Option<Side>
  {
    if direction == Some("BUY") then Some(Long)
    else if direction == Some("SELL") then Some(Short)
    else None
  }

  /** The record with `final_signal` replaced by `signal`. */
  function WithSignal(data: AnalysisData, signal: string): AnalysisData
  {
    data.(finalSignal := Some(signal))
  }

  // ---------------------------------------------------------------------
  // calculateConfirmationsPercent
  // ---------------------------------------------------------------------

  const PIVOT_KEY: string := "Pivot Support/Resistance"

  /** The entries whose key is not the pivot key, in order. */
  function CountedIndicators(cs: seq<Indicator>): seq<Indicator>
  {
    if cs == [] then []
    else
      var rest := CountedIndicators(cs[..|cs| - 1]);
      if cs[|cs| - 1].name != PIVOT_KEY then rest + [cs[|cs| - 1]] else rest
  }

  /** Number of entries whose normalised `buy` flag is true. */
  function BuyCount(ks: seq<Indicator>): nat
  {
    if ks == [] then 0
    else BuyCount(ks[..|ks| - 1]) + (if ToBoolean(ks[|ks| - 1].buy) then 1 else 0)
  }

  /** Number of entries whose normalised `sell` flag is true. */
  function SellCount(ks: seq<Indicator>): nat
  {
    if ks == [] then 0
    else SellCount(ks[..|ks| - 1]) + (if ToBoolean(ks[|ks| - 1].sell) then 1 else 0)
  }

  /** A percentage, or the "-" shown when there is nothing to count. */
  datatype Percent = Dash | Pct(value: real)

  /** `v` is `count` per hundred of `total`. */
  predicate IsPercentage(v: real, count: nat, total: nat)
  {
    0.0 <= v && v * total as real == count as real * 100.0
  }

  function PercentOf(count: nat, total: nat): (p: Percent)
    ensures p.Dash? <==> total == 0
    ensures p.Pct? ==> IsPercentage(p.value, count, total)
  {
    if total == 0 then Dash else Pct(count as real / total as real * 100.0)
  }

  /** The long percentage the frontend shows (before `toFixed(1)`). */
  function LongPercent(data: Option<AnalysisData>): (r: Percent)
    ensures r.Pct? ==> data.Some? && data.value.confirmations.Some?
    ensures r.Pct? ==> (var keys := CountedIndicators(data.value.confirmations.value);
      IsPercentage(r.value, BuyCount(keys), |keys|))
  {
    if data.None? || data.value.confirmations.None? then Dash
    else
      var keys := CountedIndicators(data.value.confirmations.value);
      PercentOf(BuyCount(keys), |keys|)
  }

  /** The short percentage the frontend shows (before `toFixed(1)`). */
  function ShortPercent(data: Option<AnalysisData>): (r: Percent)
    ensures r.Pct? ==> data.Some? && data.value.confirmations.Some?
    ensures r.Pct? ==> (var keys := CountedIndicators(data.value.confirmations.value);
      IsPercentage(r.value, SellCount(keys), |keys|))
  {
    if data.None? || data.value.confirmations.None? then Dash
    else
      var keys := CountedIndicators(data.value.confirmations.value);
      PercentOf(SellCount(keys), |keys|)
  }

  /** The counting loop of the source, proved to compute both percentages. */
  method CalculateConfirmationsPercent(data: Option<AnalysisData>)
    returns (longPercent: Percent, shortPercent: Percent)
    ensures longPercent == LongPercent(data)
    ensures shortPercent == ShortPercent(data)
  {
    if data.None? || data.value.confirmations.None? {
      return Dash, Dash;
    }
    var keys := CountedIndicators(data.value.confirmations.value);
    var longTrueCount := 0;
    var shortTrueCount := 0;
    var total := |keys|;
    for i := 0 to |keys|
      invariant longTrueCount == BuyCount(keys[..i])
      invariant shortTrueCount == SellCount(keys[..i])
    {
      var buy := ToBoolean(keys[i].buy);
      var sell := ToBoolean(keys[i].sell);
      if buy {
        longTrueCount := longTrueCount + 1;
      }
      if sell {
        shortTrueCount := shortTrueCount + 1;
      }
      assert keys[..i + 1][..i] == keys[..i];
    }
    assert keys[..|keys|] == keys;
    longPercent := if total != 0 then Pct(longTrueCount as real / total as real * 100.0) else Dash;
    shortPercent := if total != 0 then Pct(shortTrueCount as real / total as real * 100.0) else Dash;
  }

  lemma {:induction false} CountsWithinTotal(ks: seq<Indicator>)
    ensures BuyCount(ks) <= |ks| && SellCount(ks) <= |ks|
  {
    if ks != [] {
      CountsWithinTotal(ks[..|ks| - 1]);
    }
  }

  /** Each percentage, when there is one, lies in [0, 100]. */
  lemma PercentsInRange(data: Option<AnalysisData>)
    ensures LongPercent(data).Pct? ==> 0.0 <= LongPercent(data).value <= 100.0
    ensures ShortPercent(data).Pct? ==> 0.0 <= ShortPercent(data).value <= 100.0
  {
    if data.Some? && data.value.confirmations.Some? {
      var keys := CountedIndicators(data.value.confirmations.value);
      CountsWithinTotal(keys);
      if |keys| > 0 {
        FractionAtMostOne(BuyCount(keys), |keys|);
        FractionAtMostOne(SellCount(keys), |keys|);
      }
    }
  }

  lemma FractionAtMostOne(count: nat, total: nat)
    requires 0 < total && count <= total
    ensures 0.0 <= count as real / total as real * 100.0 <= 100.0
  {
  }

  lemma {:induction false} NoCountedIffAllPivot(cs: seq<Indicator>)
    ensures CountedIndicators(cs) == [] <==> forall i :: 0 <= i < |cs| ==> cs[i].name == PIVOT_KEY
  {
    if cs != [] {
      NoCountedIffAllPivot(cs[..|cs| - 1]);
      assert forall i :: 0 <= i < |cs| - 1 ==> cs[..|cs| - 1][i] == cs[i];
    }
  }

  /**
   * Both percentages are "-" exactly when there is no record, no
   * confirmations, or every key is the pivot key (an empty mapping
   * included).
   */
  lemma DashIffNothingCounted(data: Option<AnalysisData>)
    ensures LongPercent(data).Dash? <==>
      data.None? || data.value.confirmations.None? ||
      forall i :: 0 <= i < |data.value.confirmations.value| ==>
        data.value.confirmations.value[i].name == PIVOT_KEY
    ensures ShortPercent(data).Dash? <==> LongPercent(data).Dash?
  {
    if data.Some? && data.value.confirmations.Some? {
      NoCountedIffAllPivot(data.value.confirmations.value);
    }
  }

  lemma {:induction false} CountedConcat(a: seq<Indicator>, b: seq<Indicator>)
    ensures CountedIndicators(a + b) == CountedIndicators(a) + CountedIndicators(b)
  {
    if b == [] {
      assert a + b == a;
    } else {
      CountedConcat(a, b[..|b| - 1]);
      assert (a + b)[..|a + b| - 1] == a + b[..|b| - 1];
    }
  }

  /**
   * An entry under the pivot key, wherever it stands, changes neither the
   * counts nor the denominator.
   */
  lemma PivotNeverCounts(a: seq<Indicator>, b: seq<Indicator>, buy: JsValue, sell: JsValue)
    ensures CountedIndicators(a + [Indicator(PIVOT_KEY, buy, sell)] + b) == CountedIndicators(a + b)
  {
    var p := [Indicator(PIVOT_KEY, buy, sell)];
    CountedConcat(a + p, b);
    CountedConcat(a, p);
    CountedConcat(a, b);
    assert CountedIndicators(p) == [] by {
      assert p[..0] == [];
    }
  }

  /** Entry-wise agreement on keys and on the normalised buy flag. */
  ghost predicate SameBuyVotes(a: seq<Indicator>, b: seq<Indicator>)
  {
    |a| == |b| &&
    forall i :: 0 <= i < |a| ==> a[i].name == b[i].name && ToBoolean(a[i].buy) == ToBoolean(b[i].buy)
  }

  /** Entry-wise agreement on keys and on the normalised sell flag. */
  ghost predicate SameSellVotes(a: seq<Indicator>, b: seq<Indicator>)
  {
    |a| == |b| &&
    forall i :: 0 <= i < |a| ==> a[i].name == b[i].name && ToBoolean(a[i].sell) == ToBoolean(b[i].sell)
  }

  lemma {:induction false} BuyVotesDecideLong(a: seq<Indicator>, b: seq<Indicator>)
    requires SameBuyVotes(a, b)
    ensures |CountedIndicators(a)| == |CountedIndicators(b)|
    ensures BuyCount(CountedIndicators(a)) == BuyCount(CountedIndicators(b))
  {
    if a != [] {
      var a', b' := a[..|a| - 1], b[..|b| - 1];
      assert SameBuyVotes(a', b');
      BuyVotesDecideLong(a', b');
      var ka, kb := CountedIndicators(a'), CountedIndicators(b');
      assert (ka + [a[|a| - 1]])[..|ka|] == ka;
      assert (kb + [b[|b| - 1]])[..|kb|] == kb;
    }
  }

  lemma {:induction false} SellVotesDecideShort(a: seq<Indicator>, b: seq<Indicator>)
    requires SameSellVotes(a, b)
    ensures |CountedIndicators(a)| == |CountedIndicators(b)|
    ensures SellCount(CountedIndicators(a)) == SellCount(CountedIndicators(b))
  {
    if a != [] {
      var a', b' := a[..|a| - 1], b[..|b| - 1];
      assert SameSellVotes(a', b');
      SellVotesDecideShort(a', b');
      var ka, kb := CountedIndicators(a'), CountedIndicators(b');
      assert (ka + [a[|a| - 1]])[..|ka|] == ka;
      assert (kb + [b[|b| - 1]])[..|kb|] == kb;
    }
  }

  /** The long percentage depends on the keys and the buy flags only. */
  lemma LongIgnoresSellFlags(d: AnalysisData, e: AnalysisData)
    requires d.confirmations.Some? && e.confirmations.Some?
    requires SameBuyVotes(d.confirmations.value, e.confirmations.value)
    ensures LongPercent(Some(d)) == LongPercent(Some(e))
  {
    BuyVotesDecideLong(d.confirmations.value, e.confirmations.value);
  }

  /** The short percentage depends on the keys and the sell flags only. */
  lemma ShortIgnoresBuyFlags(d: AnalysisData, e: AnalysisData)
    requires d.confirmations.Some? && e.confirmations.Some?
    requires SameSellVotes(d.confirmations.value, e.confirmations.value)
    ensures ShortPercent(Some(d)) == ShortPercent(Some(e))
  {
    SellVotesDecideShort(d.confirmations.value, e.confirmations.value);
  }

  // ---------------------------------------------------------------------
  // calculateGainLoss
  // ---------------------------------------------------------------------

  datatype GainLoss = GainLoss(gain: real, loss: real)

  /**
   * The guard of calculateGainLoss: a record, a truthy entry, sl and tp,
   * and a non-empty amount (an amount of 0 passes; only emptiness is
   * tested).
   */
  predicate GainLossInputs(data: Option<AnalysisData>, amount: Option<real>)
  {
    data.Some? && Truthy(data.value.entry) && Truthy(data.value.sl) && Truthy(data.value.tp) &&
    amount.Some?
  }

  /**
   * What the projected gain and loss mean: the profit of the position if
   * the take-profit is hit, and the negated profit if the stop-loss is hit;
   * 0 and 0 when the direction is neither BUY nor SELL.
   */
  function GainLossOf(data: Option<AnalysisData>, amount: Option<real>): (r: Option<GainLoss>)
    ensures r.Some? <==> GainLossInputs(data, amount)
    ensures r.Some? ==> data.Some? && data.value.entry.Some? && data.value.entry.value != 0.0
    ensures r.Some? ==> data.value.sl.Some? && data.value.tp.Some? && amount.Some?
    ensures r.Some? && SideOf(Direction(data)).None? ==> r.value == GainLoss(0.0, 0.0)
    ensures r.Some? && SideOf(Direction(data)).Some? ==>
      var side, d := SideOf(Direction(data)).value, data.value;
      r.value.gain * d.entry.value == amount.value * Move(side, d.entry.value, d.tp.value) &&
      r.value.loss * d.entry.value == -(amount.value * Move(side, d.entry.value, d.sl.value))
  {
    if !GainLossInputs(data, amount) then None
    else
      var d := data.value;
      match SideOf(Direction(data))
      case Some(side) =>
        Some(GainLoss(Pnl(side, d.entry.value, d.tp.value, amount.value),
                      -Pnl(side, d.entry.value, d.sl.value, amount.value)))
      case None => Some(GainLoss(0.0, 0.0))
  }

  /** The source's calculateGainLoss, proved to compute GainLossOf. */
  method CalculateGainLoss(data: Option<AnalysisData>, amount: Option<real>)
    returns (r: Option<GainLoss>)
    ensures r == GainLossOf(data, amount)
  {
    if data.None? || !Truthy(data.value.entry) || !Truthy(data.value.sl) ||
       !Truthy(data.value.tp) || amount.None? {
      return None;
    }
    var entry := data.value.entry.value;
    var sl := data.value.sl.value;
    var tp := data.value.tp.value;
    var amt := amount.value;
    var direction := Direction(data);

    var gain := 0.0;
    var loss := 0.0;
    if direction == Some("BUY") {
      gain := (tp - entry) / entry * amt;
      loss := (entry - sl) / entry * amt;
      assert gain == Pnl(Long, entry, tp, amt) && loss == -Pnl(Long, entry, sl, amt);
    } else if direction == Some("SELL") {
      gain := (entry - tp) / entry * amt;
      loss := (sl - entry) / entry * amt;
      assert gain == Pnl(Short, entry, tp, amt) && loss == -Pnl(Short, entry, sl, amt);
    }
    return Some(GainLoss(gain, loss));
  }

  /**
   * On the same record and amount, SELL yields exactly the negation of
   * what BUY yields, and any other signal yields 0 and 0.
   */
  lemma SellNegatesBuy(d: AnalysisData, amount: Option<real>, other: string)
    requires ToUpper(other) != "BUY" && ToUpper(other) != "SELL"
    ensures GainLossOf(Some(WithSignal(d, "BUY")), amount).Some? <==> GainLossInputs(Some(d), amount)
    ensures GainLossInputs(Some(d), amount) ==>
      var buy := GainLossOf(Some(WithSignal(d, "BUY")), amount).value;
      var sell := GainLossOf(Some(WithSignal(d, "SELL")), amount).value;
      sell.gain == -buy.gain && sell.loss == -buy.loss &&
      GainLossOf(Some(WithSignal(d, other)), amount) == Some(GainLoss(0.0, 0.0))
  {
    UpperOfUpper("BUY");
    UpperOfUpper("SELL");
    if GainLossInputs(Some(d), amount) {
      ShortMirrorsLong(d.entry.value, d.tp.value, amount.value);
      ShortMirrorsLong(d.entry.value, d.sl.value, amount.value);
    }
  }

  /**
   * A missing or zero entry, stop-loss or take-profit, or an empty amount,
   * gives no gain and loss; so a zero entry is never divided by.
   */
  lemma GainLossNeedsAllInputs(data: Option<AnalysisData>, amount: Option<real>)
    ensures data.None? || amount.None? ==> GainLossOf(data, amount).None?
    ensures data.Some? && data.value.entry == Some(0.0) ==> GainLossOf(data, amount).None?
    ensures data.Some? && data.value.sl == Some(0.0) ==> GainLossOf(data, amount).None?
    ensures data.Some? && data.value.tp == Some(0.0) ==> GainLossOf(data, amount).None?
    ensures GainLossOf(data, amount).Some? ==> data.value.entry.value != 0.0
  {
  }

  // ---------------------------------------------------------------------
  // calculateRR
  // ---------------------------------------------------------------------

  /** A risk-reward ratio, or the "-" shown when it is not computable. */
  datatype Ratio = NoRatio | Ratio(value: real)

  predicate LevelsPresent(data: Option<AnalysisData>)
  {
    data.Some? && Truthy(data.value.entry) && Truthy(data.value.sl) && Truthy(data.value.tp)
  }

  /**
   * The source's calculateRR. A ratio exists exactly when the three levels
   * are truthy, the direction is BUY or SELL and the stop lies against the
   * position (positive risk); it is then reward over risk.
   */
  function CalculateRR(data: Option<AnalysisData>): (r: Ratio)
    ensures r.Ratio? <==>
      LevelsPresent(data) && SideOf(Direction(data)).Some? &&
      Move(SideOf(Direction(data)).value, data.value.entry.value, data.value.sl.value) < 0.0
    ensures r.Ratio? ==>
      var side, d := SideOf(Direction(data)).value, data.value;
      r.value * -Move(side, d.entry.value, d.sl.value) == Move(side, d.entry.value, d.tp.value)
  {
    var direction := Direction(data);
    if !LevelsPresent(data) || direction.None? || direction.value == "" then NoRatio
    else
      var entry, sl, tp := data.value.entry.value, data.value.sl.value, data.value.tp.value;
      if direction.value == "BUY" then
        var risk := entry - sl;
        var reward := tp - entry;
        if risk <= 0.0 then NoRatio else Ratio(reward / risk)
      else if direction.value == "SELL" then
        var risk := sl - entry;
        var reward := entry - tp;
        if risk <= 0.0 then NoRatio else Ratio(reward / risk)
      else NoRatio
  }

  /**
   * With a nonzero amount, the ratio is the projected gain over the
   * projected loss.
   */
  lemma RatioIsGainOverLoss(data: Option<AnalysisData>, amount: real)
    requires amount != 0.0
    requires CalculateRR(data).Ratio?
    ensures GainLossOf(data, Some(amount)).Some?
    ensures var gl := GainLossOf(data, Some(amount)).value;
      gl.loss != 0.0 && CalculateRR(data).value == gl.gain / gl.loss
  {
  }

  /**
   * Direction is case-insensitive: two signals with the same upper-case
   * form give the same gain, loss and ratio; "buy" acts as "BUY".
   */
  lemma DirectionIgnoresCase(d: AnalysisData, s: string, t: string, amount: Option<real>)
    requires ToUpper(s) == ToUpper(t)
    ensures GainLossOf(Some(WithSignal(d, s)), amount) == GainLossOf(Some(WithSignal(d, t)), amount)
    ensures CalculateRR(Some(WithSignal(d, s))) == CalculateRR(Some(WithSignal(d, t)))
  {
  }

  lemma LowerCaseBuyIsBuy(d: AnalysisData, amount: Option<real>)
    ensures GainLossOf(Some(WithSignal(d, "buy")), amount) == GainLossOf(Some(WithSignal(d, "BUY")), amount)
    ensures CalculateRR(Some(WithSignal(d, "buy"))) == CalculateRR(Some(WithSignal(d, "BUY")))
    ensures Direction(Some(WithSignal(d, "buy"))) == Some("BUY")
  {
    UpperOfUpper("BUY");
    assert ToUpper("buy") == "BUY" by {
      assert forall i :: 0 <= i < 3 ==> ToUpper("buy")[i] == "BUY"[i];
    }
    DirectionIgnoresCase(d, "buy", "BUY", amount);
  }

  /**
   * Entry 100, stop 90, take-profit 120, amount 1000: a BUY gains 200,
   * loses 100 and has ratio 2; a SELL on the same levels gains -200, loses
   * -100 and has no ratio, its risk being negative.
   */
  lemma WorkedExample()
    ensures var d := AnalysisData(Some("BUY"), Some(100.0), Some(90.0), Some(120.0), None);
      GainLossOf(Some(d), Some(1000.0)) == Some(GainLoss(200.0, 100.0)) &&
      CalculateRR(Some(d)) == Ratio(2.0) &&
      GainLossOf(Some(WithSignal(d, "SELL")), Some(1000.0)) == Some(GainLoss(-200.0, -100.0)) &&
      CalculateRR(Some(WithSignal(d, "SELL"))) == NoRatio
  {
    UpperOfUpper("BUY");
    UpperOfUpper("SELL");
  }
}
