/** `TechnicalAnalystAgent`: the request built from the price, the candle
    listing and the technical indicators, and `analyze`, which sends it and
    parses the reply. */
module TechnicalAnalyst {
  import opened Wrappers
  import opened Models
  import opened Prompt
  import opened DecisionParser

  /** The optional candle fields the indicators filter on. */
  datatype Measure = HighMeasure | LowMeasure | VolumeMeasure

  function Reading(k: KLine, m: Measure): Option<real> {
    match m
    case HighMeasure => k.high
    case LowMeasure => k.low
    case VolumeMeasure => k.volume
  }

  /** `[k.high for k in klines if k.high is not None]` (and likewise for the low
      and the volume): the present readings, in candle order. */
  function Readings(ks: seq<KLine>, m: Measure): (r: seq<real>)
    ensures |r| <= |ks|
  {
    if ks == [] then []
    else
      var r0 := Readings(ks[..|ks| - 1], m);
      match Reading(ks[|ks| - 1], m)
      case None => r0
      case Some(x) => r0 + [x]
  }

  /** The positions, in order, of the candles that have the reading. */
  function ReadingIndices(ks: seq<KLine>, m: Measure): seq<nat> {
    if ks == [] then []
    else
      var i0 := ReadingIndices(ks[..|ks| - 1], m);
      if Reading(ks[|ks| - 1], m).Some? then i0 + [|ks| - 1] else i0
  }

  /** `r` lists the readings of the candles at the increasing positions `idx`,
      which are all the candles that have the reading. */
  predicate Enumerates(ks: seq<KLine>, m: Measure, r: seq<real>, idx: seq<nat>) {
    && |idx| == |r|
    && (forall j :: 0 <= j < |idx| ==> idx[j] < |ks| && Reading(ks[idx[j]], m) == Some(r[j]))
    && (forall j, j' :: 0 <= j < j' < |idx| ==> idx[j] < idx[j'])
    && (forall i :: 0 <= i < |ks| && Reading(ks[i], m).Some? ==> i in idx)
  }

  /** The readings list is the comprehension over the candles in order: its
      `j`-th entry is the reading of the `j`-th candle that has one, the
      positions increase, and every candle with the reading contributes. */
  lemma {:induction false} ReadingsFollowCandles(ks: seq<KLine>, m: Measure)
    ensures var r := Readings(ks, m); var idx := ReadingIndices(ks, m);
            && |idx| == |r|
            && (forall j :: 0 <= j < |idx| ==> idx[j] < |ks| && Reading(ks[idx[j]], m) == Some(r[j]))
            && (forall j, j' :: 0 <= j < j' < |idx| ==> idx[j] < idx[j'])
            && (forall i :: 0 <= i < |ks| && Reading(ks[i], m).Some? ==> i in idx)
  {
    EnumeratedReadings(ks, m);
  }

  lemma {:induction false} EnumeratedReadings(ks: seq<KLine>, m: Measure)
    ensures Enumerates(ks, m, Readings(ks, m), ReadingIndices(ks, m))
  {
    if ks != [] {
      EnumeratedReadings(ks[..|ks| - 1], m);
      if Reading(ks[|ks| - 1], m).Some? {
        StepWithReading(ks, m);
      } else {
        StepWithoutReading(ks, m);
      }
    }
  }

  lemma StepWithReading(ks: seq<KLine>, m: Measure)
    requires ks != [] && Reading(ks[|ks| - 1], m).Some?
    requires Enumerates(ks[..|ks| - 1], m, Readings(ks[..|ks| - 1], m), ReadingIndices(ks[..|ks| - 1], m))
    ensures Enumerates(ks, m, Readings(ks, m), ReadingIndices(ks, m))
  {
    var n := |ks| - 1;
    var init := ks[..n];
    assert forall i :: 0 <= i < |init| ==> init[i] == ks[i];
    var r0 := Readings(init, m);
    var idx0 := ReadingIndices(init, m);
    var r := r0 + [Reading(ks[n], m).value];
    var idx := idx0 + [n];
    assert Readings(ks, m) == r && ReadingIndices(ks, m) == idx;
    forall j | 0 <= j < |idx| ensures idx[j] < |ks| && Reading(ks[idx[j]], m) == Some(r[j]) {
      if j < |idx0| {
        assert idx[j] == idx0[j] && r[j] == r0[j];
      }
    }
    forall j, j' | 0 <= j < j' < |idx| ensures idx[j] < idx[j'] {
      if j' < |idx0| {
        assert idx[j] == idx0[j] && idx[j'] == idx0[j'];
      } else {
        assert idx[j] == idx0[j];
      }
    }
    forall i | 0 <= i < |ks| && Reading(ks[i], m).Some? ensures i in idx {
      if i < n {
        assert i in idx0;
      } else {
        assert idx[|idx0|] == i;
      }
    }
  }

  lemma StepWithoutReading(ks: seq<KLine>, m: Measure)
    requires ks != [] && Reading(ks[|ks| - 1], m).None?
    requires Enumerates(ks[..|ks| - 1], m, Readings(ks[..|ks| - 1], m), ReadingIndices(ks[..|ks| - 1], m))
    ensures Enumerates(ks, m, Readings(ks, m), ReadingIndices(ks, m))
  {
    var init := ks[..|ks| - 1];
    assert forall i :: 0 <= i < |init| ==> init[i] == ks[i];
    var idx := ReadingIndices(init, m);
    assert Readings(ks, m) == Readings(init, m) && ReadingIndices(ks, m) == idx;
    forall i | 0 <= i < |ks| && Reading(ks[i], m).Some? ensures i in idx {
      assert i < |init| && init[i] == ks[i];
    }
  }

  /** The readings list is empty exactly when no candle has the reading; each
      entry is some candle's reading, and the last entry is the reading of the
      last candle that has one. */
  lemma {:induction false} ReadingsArePresentOnes(ks: seq<KLine>, m: Measure)
    ensures var r := Readings(ks, m);
            && (r == [] <==> forall i :: 0 <= i < |ks| ==> Reading(ks[i], m).None?)
            && (forall j :: 0 <= j < |r| ==> exists i :: 0 <= i < |ks| && Reading(ks[i], m) == Some(r[j]))
            && (r != [] ==> exists i :: 0 <= i < |ks| && Reading(ks[i], m) == Some(r[|r| - 1])
                                        && forall j :: i < j < |ks| ==> Reading(ks[j], m).None?)
  {
    if ks != [] {
      var init := ks[..|ks| - 1];
      ReadingsArePresentOnes(init, m);
      assert forall i :: 0 <= i < |init| ==> init[i] == ks[i];
      var r0 := Readings(init, m);
      var r := Readings(ks, m);
      if Reading(ks[|ks| - 1], m).None? {
        assert r == r0;
      } else {
        assert r == r0 + [Reading(ks[|ks| - 1], m).value];
        forall j | 0 <= j < |r| ensures exists i :: 0 <= i < |ks| && Reading(ks[i], m) == Some(r[j]) {
          if j < |r0| {
            var i :| 0 <= i < |init| && Reading(init[i], m) == Some(r0[j]);
            assert Reading(ks[i], m) == Some(r[j]);
          } else {
            assert Reading(ks[|ks| - 1], m) == Some(r[j]);
          }
        }
      }
    }
  }

  /** The line listing one candle: its number (from 1), the close, the change
      from the open when there is an open, the other present fields, and the
      timestamp when it is non-empty. The change percentage is guarded: it is
      the relative change when the open is positive and 0 otherwise, and it
      is shown as a magnitude beside an arrow that rises when close >= open. */
  function CandleLine(index: nat, k: KLine): (l: Line)
    ensures l.TechCandle? && l.index == index && l.close == k.close
    ensures l.high == k.high && l.low == k.low && l.volume == k.volume
    ensures l.timestamp.Some? <==> Truthy(k.timestamp)
    ensures l.timestamp.Some? ==> l.timestamp == k.timestamp
    ensures l.change.Some? <==> k.open.Some?
    ensures l.change.Some? ==> l.change.value.open == k.open.value && (l.change.value.rising <==> k.close >= k.open.value)
  {
    var change :=
      if k.open.None? then None
      else Some(Change(k.open.value, k.close >= k.open.value, Abs(PercentChange(k.open.value, k.close))));
    TechCandle(index, ShownTimestamp(k), k.close, change, k.high, k.low, k.volume)
  }

  /** The percentage beside a candle's open is a magnitude: the change relative
      to a positive open, times 100, and 0 when the open is not positive. */
  lemma CandleChangeIs(index: nat, k: KLine)
    requires k.open.Some?
    ensures var c := CandleLine(index, k).change.value; var o := k.open.value;
            && c.percent >= 0.0
            && (o > 0.0 ==> c.percent * o == Abs(k.close - o) * 100.0)
            && (o <= 0.0 ==> c.percent == 0.0)
  {
    var o := k.open.value;
    PercentChangeMeaning(o, k.close);
    AbsScales(PercentChange(o, k.close), o, k.close - o);
  }

  lemma AbsScales(p: real, base: real, diff: real)
    requires base > 0.0 ==> p * base == diff * 100.0
    ensures base > 0.0 ==> Abs(p) * base == Abs(diff) * 100.0
  {
    if base > 0.0 && p < 0.0 {
      assert Abs(p) * base == -(p * base);
    }
  }

  /** The candle listing: one line per candle, numbered from 1, in order. */
  function CandleLines(ks: seq<KLine>): (r: seq<Line>)
    ensures |r| == |ks| && forall i :: 0 <= i < |ks| ==> r[i] == CandleLine(i + 1, ks[i])
  {
    if ks == [] then []
    else
      var init := ks[..|ks| - 1];
      assert forall i :: 0 <= i < |init| ==> init[i] == ks[i];
      CandleLines(init) + [CandleLine(|ks|, ks[|ks| - 1])]
  }

  /** MA5 when there are at least 5 closes, and MA10 (inside it) when there are
      at least 10: the mean of the last 5 (10) closes. */
  function MovingAverages(closes: seq<real>): seq<Line> {
    if |closes| >= 5 then
      [MovingAverage(5, Mean(LastUpTo(closes, 5)))]
      + (if |closes| >= 10 then [MovingAverage(10, Mean(LastUpTo(closes, 10)))] else [])
    else []
  }

  /** The recent high: the greatest of the last (up to) 20 present highs. */
  function HighLines(highs: seq<real>): seq<Line> {
    if highs == [] then [] else [RecentHigh(MaxOf(LastUpTo(highs, 20)))]
  }

  /** The recent low: the least of the last (up to) 20 present lows. */
  function LowLines(lows: seq<real>): seq<Line> {
    if lows == [] then [] else [RecentLow(MinOf(LastUpTo(lows, 20)))]
  }

  /** The volume line: the last present volume, the mean of the last (up to)
      10 present volumes, and their ratio (1.0 when the mean is not positive). */
  function VolumeLines(volumes: seq<real>): seq<Line> {
    if volumes == [] then []
    else
      var average := Mean(LastUpTo(volumes, 10));
      var current := volumes[|volumes| - 1];
      [VolumeLine(current, average, Ratio(current, average))]
  }

  /** The trend line and the moving averages. */
  function TrendSection(closes: seq<real>): seq<Line>
    requires |closes| >= 2
  {
    var first := closes[0];
    var last := closes[|closes| - 1];
    [IndicatorsHeader, TrendLine(first, last, PercentChange(first, last))] + MovingAverages(closes)
  }

  /** The recent high, the recent low and the volume line, each shown when
      some candle has that reading. */
  function RangeSection(ks: seq<KLine>): seq<Line> {
    HighLines(Readings(ks, HighMeasure)) + LowLines(Readings(ks, LowMeasure))
    + VolumeLines(Readings(ks, VolumeMeasure))
  }

  /** The indicators section, for at least two candles. */
  function Indicators(ks: seq<KLine>): seq<Line>
    requires |ks| >= 2
  {
    TrendSection(Closes(ks)) + RangeSection(ks)
  }

  /** Everything after the price line and before the closing instruction. */
  function CandleSection(input: TradingInput): seq<Line> {
    if HasCandles(input) then
      var ks := input.klines.value;
      [CandleHeader(|ks|)] + CandleLines(ks) + (if |ks| >= 2 then Indicators(ks) else [])
    else [NoCandlesNotice(Technical)]
  }

  function Heading(input: TradingInput): seq<Line> {
    [Intro(Technical)]
    + (if Truthy(input.symbol) then [SymbolLine(input.symbol.value)] else [])
    + [PriceLine(input.currentPrice)]
  }

  /** The request `_build_analysis_prompt` builds. */
  function AnalysisPrompt(input: TradingInput): seq<Line> {
    Heading(input) + CandleSection(input) + [Closing(Technical)]
  }

  /** One pass of the listing loop: `kline_info` grown field by field. */
  method DescribeCandle(index: nat, k: KLine) returns (line: Line)
    ensures line == CandleLine(index, k)
  {
    var change: Option<Change> := None;
    if k.open.Some? {
      var o := k.open.value;
      var diff := k.close - o;
      var percent := if o > 0.0 then diff / o * 100.0 else 0.0;
      change := Some(Change(o, diff >= 0.0, Abs(percent)));
    }
    var timestamp: Option<string> := None;
    if Truthy(k.timestamp) {
      timestamp := k.timestamp;
    }
    line := TechCandle(index, timestamp, k.close, change, k.high, k.low, k.volume);
  }

  /** The trend line and the moving averages, from the closes. */
  method TrendAndAverages(closes: seq<real>) returns (lines: seq<Line>)
    requires |closes| >= 2
    ensures lines == TrendSection(closes)
  {
    var first := closes[0];
    var last := closes[|closes| - 1];
    var percent := if first > 0.0 then (last - first) / first * 100.0 else 0.0;
    assert percent == PercentChange(first, last);
    lines := [IndicatorsHeader, TrendLine(first, last, percent)];
    ghost var trend := lines;
    if |closes| >= 5 {
      var ma5 := Sum(closes[|closes| - 5..]) / 5.0;
      assert ma5 == Mean(LastUpTo(closes, 5));
      lines := lines + [MovingAverage(5, ma5)];
      if |closes| >= 10 {
        var ma10 := Sum(closes[|closes| - 10..]) / 10.0;
        assert ma10 == Mean(LastUpTo(closes, 10));
        AppendAssoc(trend, [MovingAverage(5, ma5)], [MovingAverage(10, ma10)]);
        lines := lines + [MovingAverage(10, ma10)];
      } else {
        assert [MovingAverage(5, ma5)] + [] == [MovingAverage(5, ma5)];
      }
    } else {
      assert trend + [] == trend;
    }
  }

  /** The recent high and low, from the present highs and lows. */
  method PriceRange(highs: seq<real>, lows: seq<real>) returns (lines: seq<Line>)
    ensures lines == HighLines(highs) + LowLines(lows)
  {
    lines := [];
    if highs != [] {
      var recentHigh := if |highs| >= 20 then MaxOf(highs[|highs| - 20..]) else MaxOf(highs);
      lines := lines + [RecentHigh(recentHigh)];
    }
    ghost var withHigh := lines;
    if lows != [] {
      var recentLow := if |lows| >= 20 then MinOf(lows[|lows| - 20..]) else MinOf(lows);
      lines := lines + [RecentLow(recentLow)];
    } else {
      assert withHigh + [] == withHigh;
    }
  }

  /** The volume line, from the present volumes. */
  method VolumeSummary(volumes: seq<real>) returns (lines: seq<Line>)
    ensures lines == VolumeLines(volumes)
  {
    lines := [];
    if volumes != [] {
      var window := if |volumes| >= 10 then volumes[|volumes| - 10..] else volumes;
      var average := Sum(window) / |window| as real;
      assert window == LastUpTo(volumes, 10);
      var current := volumes[|volumes| - 1];
      var ratio := if average > 0.0 then current / average else 1.0;
      lines := lines + [VolumeLine(current, average, ratio)];
    }
  }

  /** The indicators part of `_build_analysis_prompt`, appended section by
      section. */
  method ComputeIndicators(ks: seq<KLine>) returns (lines: seq<Line>)
    requires |ks| >= 2
    ensures lines == Indicators(ks)
  {
    var closes := Closes(ks);
    var trend := TrendAndAverages(closes);
    var highs := Readings(ks, HighMeasure);
    var lows := Readings(ks, LowMeasure);
    var range := PriceRange(highs, lows);
    var volumes := Readings(ks, VolumeMeasure);
    var volume := VolumeSummary(volumes);
    lines := trend + (range + volume);
  }

  /** The listing loop of `_build_analysis_prompt`: one line per candle,
      numbered from 1. */
  method ListCandles(ks: seq<KLine>) returns (lines: seq<Line>)
    ensures lines == CandleLines(ks)
  {
    lines := [];
    var i := 0;
    while i < |ks|
      invariant 0 <= i <= |ks|
      invariant lines == CandleLines(ks[..i])
    {
      var line := DescribeCandle(i + 1, ks[i]);
      assert ks[..i + 1][..i] == ks[..i];
      lines := lines + [line];
      i := i + 1;
    }
    assert ks[..i] == ks;
  }

  /** The part of `_build_analysis_prompt` after the price line: the candle
      header, the listing and the indicators, or the notice. */
  method DescribeCandles(input: TradingInput) returns (lines: seq<Line>)
    ensures lines == CandleSection(input)
  {
    if HasCandles(input) {
      var ks := input.klines.value;
      var listing := ListCandles(ks);
      lines := [CandleHeader(|ks|)] + listing;
      if |ks| >= 2 {
        var indicators := ComputeIndicators(ks);
        lines := lines + indicators;
      } else {
        assert lines + [] == lines;
      }
    } else {
      lines := [NoCandlesNotice(Technical)];
    }
  }

  /** `_build_analysis_prompt`: appends the heading, then the candles and
      indicators, then the closing instruction. */
  method BuildPrompt(input: TradingInput) returns (prompt: seq<Line>)
    ensures prompt == AnalysisPrompt(input)
  {
    prompt := [Intro(Technical)];
    if Truthy(input.symbol) {
      prompt := prompt + [SymbolLine(input.symbol.value)];
    } else {
      assert prompt + [] == prompt;
    }
    prompt := prompt + [PriceLine(input.currentPrice)];
    assert prompt == Heading(input);
    var candles := DescribeCandles(input);
    prompt := prompt + candles;
    prompt := prompt + [Closing(Technical)];
  }

  /** The lines of the indicators section. */
  predicate IsIndicator(l: Line) {
    l.IndicatorsHeader? || l.TrendLine? || l.MovingAverage? || l.RecentHigh? || l.RecentLow? || l.VolumeLine?
  }

  /** What an indicator line of the section for `ks` says. */
  predicate IndicatorFact(ks: seq<KLine>, l: Line)
    requires |ks| >= 2
  {
    var closes := Closes(ks);
    match l
    case IndicatorsHeader => true
    case TrendLine(first, last, percent) =>
      first == closes[0] && last == closes[|closes| - 1] && percent == PercentChange(first, last)
    case MovingAverage(period, average) =>
      (period == 5 || period == 10) && |closes| >= period && average == Mean(LastUpTo(closes, period))
    case RecentHigh(highest) =>
      var highs := Readings(ks, HighMeasure);
      highs != [] && highest == MaxOf(LastUpTo(highs, 20))
    case RecentLow(lowest) =>
      var lows := Readings(ks, LowMeasure);
      lows != [] && lowest == MinOf(LastUpTo(lows, 20))
    case VolumeLine(current, average, ratio) =>
      var volumes := Readings(ks, VolumeMeasure);
      && volumes != [] && current == volumes[|volumes| - 1]
      && average == Mean(LastUpTo(volumes, 10)) && ratio == Ratio(current, average)
    case _ => false
  }

  lemma TrendSectionFacts(ks: seq<KLine>)
    requires |ks| >= 2
    ensures forall l :: l in TrendSection(Closes(ks)) ==> IndicatorFact(ks, l)
  {
    var closes := Closes(ks);
    forall l | l in MovingAverages(closes) ensures IndicatorFact(ks, l) {
    }
  }

  lemma RangeSectionFacts(ks: seq<KLine>)
    requires |ks| >= 2
    ensures forall l :: l in RangeSection(ks) ==> IndicatorFact(ks, l)
  {
    forall l | l in HighLines(Readings(ks, HighMeasure)) ensures IndicatorFact(ks, l) {
    }
    forall l | l in LowLines(Readings(ks, LowMeasure)) ensures IndicatorFact(ks, l) {
    }
    forall l | l in VolumeLines(Readings(ks, VolumeMeasure)) ensures IndicatorFact(ks, l) {
    }
  }

  /** Every line of the indicators section says what `IndicatorFact` states. */
  lemma IndicatorFacts(ks: seq<KLine>)
    requires |ks| >= 2
    ensures forall l :: l in Indicators(ks) ==> IsIndicator(l) && IndicatorFact(ks, l)
  {
    TrendSectionFacts(ks);
    RangeSectionFacts(ks);
  }

  /** The indicators section holds indicator lines only. */
  lemma IndicatorKinds(ks: seq<KLine>)
    requires |ks| >= 2
    ensures forall l :: l in Indicators(ks) ==> IsIndicator(l)
  {
    IndicatorFacts(ks);
  }

  /** Where a line of the prompt comes from: the heading, the candle listing,
      the indicators (only with two candles or more), the notice, or the
      closing instruction. */
  lemma {:induction false} PromptParts(input: TradingInput, l: Line)
    requires l in AnalysisPrompt(input)
    ensures || l in Heading(input)
            || (HasCandles(input) && l == CandleHeader(|Candles(input)|))
            || (HasCandles(input) && l in CandleLines(Candles(input)))
            || (|Candles(input)| >= 2 && l in Indicators(Candles(input)))
            || (!HasCandles(input) && l == NoCandlesNotice(Technical))
            || l == Closing(Technical)
  {
  }

  /** The request opens with the technical persona's introduction, always
      shows the current price, shows the symbol exactly when it is non-empty,
      and ends with the closing instruction. */
  lemma PriceAlwaysShown(input: TradingInput)
    ensures var p := AnalysisPrompt(input);
            && p[0] == Intro(Technical)
            && PriceLine(input.currentPrice) in p
            && p[|p| - 1] == Closing(Technical)
            && (Truthy(input.symbol) ==> SymbolLine(input.symbol.value) in p)
            && (forall l :: l in p && l.SymbolLine? ==> Truthy(input.symbol) && l.symbol == input.symbol.value)
  {
    var p := AnalysisPrompt(input);
    assert PriceLine(input.currentPrice) in Heading(input);
    forall l | l in p && l.SymbolLine? ensures Truthy(input.symbol) && l.symbol == input.symbol.value {
      SymbolLineIs(input, l);
    }
  }

  lemma SymbolLineIs(input: TradingInput, l: Line)
    requires l in AnalysisPrompt(input) && l.SymbolLine?
    ensures Truthy(input.symbol) && l.symbol == input.symbol.value
  {
    CandleSectionKinds(input);
    InFirstPart(Heading(input), CandleSection(input), Closing(Technical), l);
    HeadingSymbol(input, l);
  }

  /** A line of `a + b + [last]` that is of no kind found in `b` or `last`
      is in `a`. */
  lemma InFirstPart(a: seq<Line>, b: seq<Line>, last: Line, l: Line)
    requires l in a + b + [last] && l.SymbolLine? && !last.SymbolLine?
    requires forall x :: x in b ==> !x.SymbolLine?
    ensures l in a
  {
  }

  /** The candle section holds the header, candle lines, indicators and the
      notice only. */
  lemma CandleSectionKinds(input: TradingInput)
    ensures forall l :: l in CandleSection(input) ==> !l.SymbolLine?
  {
    forall l | l in CandleSection(input) ensures !l.SymbolLine? {
      var ks := Candles(input);
      if HasCandles(input) && l in CandleLines(ks) {
        CandleLinesKinds(ks);
      } else if HasCandles(input) && |ks| >= 2 && l in Indicators(ks) {
        IndicatorKinds(ks);
      }
    }
  }

  /** The listing holds candle lines only. */
  lemma CandleLinesKinds(ks: seq<KLine>)
    ensures forall l :: l in CandleLines(ks) ==> l.TechCandle?
  {
    forall l | l in CandleLines(ks) ensures l.TechCandle? {
      var i :| 0 <= i < |ks| && CandleLines(ks)[i] == l;
    }
  }

  lemma HeadingSymbol(input: TradingInput, l: Line)
    requires l in Heading(input) && l.SymbolLine?
    ensures Truthy(input.symbol) && l.symbol == input.symbol.value
  {
  }

  /** Without candles (absent, null or empty) the request carries the notice
      and neither a candle listing nor any indicator; with candles it carries
      no notice. */
  lemma NoCandlesMeansNotice(input: TradingInput)
    ensures var p := AnalysisPrompt(input);
            && (NoCandlesNotice(Technical) in p <==> !HasCandles(input))
            && (!HasCandles(input) ==> forall l :: l in p ==> !l.TechCandle? && !l.CandleHeader? && !IsIndicator(l))
  {
    var p := AnalysisPrompt(input);
    if NoCandlesNotice(Technical) in p {
      NoticeOnlyWithoutCandles(input);
    }
    if !HasCandles(input) {
      HeadingKinds(input);
      forall l | l in p ensures !l.TechCandle? && !l.CandleHeader? && !IsIndicator(l) {
        WithoutCandles(input, l);
      }
    }
  }

  /** The heading holds only the introduction, the symbol and the price. */
  lemma HeadingKinds(input: TradingInput)
    ensures forall l :: l in Heading(input) ==> l.Intro? || l.SymbolLine? || l.PriceLine?
  {
  }

  lemma NoticeOnlyWithoutCandles(input: TradingInput)
    requires NoCandlesNotice(Technical) in AnalysisPrompt(input)
    ensures !HasCandles(input)
  {
    if HasCandles(input) {
      NoticeAbsentWithCandles(input);
    }
  }

  lemma NoticeAbsentWithCandles(input: TradingInput)
    requires HasCandles(input)
    ensures NoCandlesNotice(Technical) !in AnalysisPrompt(input)
  {
    var ks := Candles(input);
    var n := NoCandlesNotice(Technical);
    HeadingKinds(input);
    assert n !in Heading(input);
    CandleLinesOnly(ks);
    assert n !in CandleLines(ks);
    if |ks| >= 2 {
      IndicatorKinds(ks);
      assert n !in Indicators(ks);
    }
    assert n !in CandleSection(input);
  }

  lemma WithoutCandles(input: TradingInput, l: Line)
    requires !HasCandles(input) && l in AnalysisPrompt(input)
    ensures l in Heading(input) || l == NoCandlesNotice(Technical) || l == Closing(Technical)
  {
    assert AnalysisPrompt(input) == Heading(input) + [NoCandlesNotice(Technical)] + [Closing(Technical)];
  }

  /** Every line of the listing is the line of the candle it numbers. */
  lemma CandleLinesOnly(ks: seq<KLine>)
    ensures forall l :: l in CandleLines(ks) ==>
              l.TechCandle? && 1 <= l.index <= |ks| && l == CandleLine(l.index, ks[l.index - 1])
  {
    forall l | l in CandleLines(ks)
      ensures l.TechCandle? && 1 <= l.index <= |ks| && l == CandleLine(l.index, ks[l.index - 1])
    {
      var i :| 0 <= i < |ks| && CandleLines(ks)[i] == l;
    }
  }

  /** An indicator line of the prompt comes from the indicators section. */
  lemma IndicatorSource(input: TradingInput, l: Line)
    requires l in AnalysisPrompt(input) && IsIndicator(l)
    ensures |Candles(input)| >= 2 && l in Indicators(Candles(input))
  {
    var ks := Candles(input);
    HeadingKinds(input);
    assert l in CandleSection(input);
    if HasCandles(input) {
      CandleLinesKinds(ks);
      assert l !in CandleLines(ks);
    }
  }

  /** A candle line of the prompt comes from the listing. */
  lemma CandleSource(input: TradingInput, l: Line)
    requires l in AnalysisPrompt(input) && l.TechCandle?
    ensures HasCandles(input) && l in CandleLines(Candles(input))
  {
    PromptParts(input, l);
    if |Candles(input)| >= 2 {
      IndicatorKinds(Candles(input));
    }
  }

  lemma SectionIncluded(input: TradingInput)
    ensures forall l :: l in CandleSection(input) ==> l in AnalysisPrompt(input)
  {
  }

  lemma ListingIncluded(input: TradingInput, l: Line)
    requires HasCandles(input) && l in CandleLines(Candles(input))
    ensures l in CandleSection(input)
  {
  }

  /** Each candle is listed, in order under a header giving their number, and
      every listed candle line is the one for its candle. */
  lemma CandlesListed(input: TradingInput)
    ensures var p := AnalysisPrompt(input); var ks := Candles(input);
            && (HasCandles(input) ==> CandleHeader(|ks|) in p)
            && (HasCandles(input) ==> forall i :: 0 <= i < |ks| ==> CandleLine(i + 1, ks[i]) in p)
            && (forall l :: l in p && l.TechCandle? ==>
                  1 <= l.index <= |ks| && l == CandleLine(l.index, ks[l.index - 1]))
  {
    var p := AnalysisPrompt(input);
    var ks := Candles(input);
    if HasCandles(input) {
      SectionIncluded(input);
      assert CandleHeader(|ks|) in CandleSection(input);
      forall i | 0 <= i < |ks| ensures CandleLine(i + 1, ks[i]) in p {
        ListingIncluded(input, CandleLines(ks)[i]);
      }
    }
    CandleLinesOnly(ks);
    forall l | l in p && l.TechCandle? ensures 1 <= l.index <= |ks| && l == CandleLine(l.index, ks[l.index - 1]) {
      CandleSource(input, l);
    }
  }

  /** The indicators section is present exactly when there are at least two
      candles. */
  lemma IndicatorsNeedTwoCandles(input: TradingInput)
    ensures var p := AnalysisPrompt(input);
            && (IndicatorsHeader in p <==> |Candles(input)| >= 2)
            && (forall l :: l in p && IsIndicator(l) ==> |Candles(input)| >= 2)
  {
    var p := AnalysisPrompt(input);
    var ks := Candles(input);
    if |ks| >= 2 {
      assert IndicatorsHeader in Indicators(ks);
    }
    forall l | l in p && IsIndicator(l) ensures |ks| >= 2 {
      IndicatorSource(input, l);
    }
  }

  /** Shown with two candles or more: the indicators section is part of the
      prompt. */
  lemma IndicatorsIncluded(input: TradingInput)
    requires |Candles(input)| >= 2
    ensures forall l :: l in Indicators(Candles(input)) ==> l in AnalysisPrompt(input)
  {
    var ks := Candles(input);
    var listing := [CandleHeader(|ks|)] + CandleLines(ks);
    assert AnalysisPrompt(input) == Heading(input) + (listing + Indicators(ks)) + [Closing(Technical)];
  }

  lemma TrendLineIs(input: TradingInput, l: Line)
    requires l in AnalysisPrompt(input) && l.TrendLine?
    ensures var ks := Candles(input);
            && |ks| >= 2 && l.first == ks[0].close && l.last == ks[|ks| - 1].close
            && l.percent == PercentChange(l.first, l.last)
  {
    IndicatorSource(input, l);
    IndicatorFacts(Candles(input));
  }

  /** The trend line, shown with two candles or more, compares the first and
      the last close; its percentage is the relative change, and 0 when the
      first close is not positive. */
  lemma TrendIsRelativeChange(input: TradingInput)
    ensures var p := AnalysisPrompt(input); var ks := Candles(input);
            && (|ks| >= 2 ==> TrendLine(ks[0].close, ks[|ks| - 1].close,
                                        PercentChange(ks[0].close, ks[|ks| - 1].close)) in p)
            && forall l :: l in p && l.TrendLine? ==>
                 && |ks| >= 2 && l.first == ks[0].close && l.last == ks[|ks| - 1].close
                 && l.percent == PercentChange(l.first, l.last)
  {
    var p := AnalysisPrompt(input);
    var ks := Candles(input);
    if |ks| >= 2 {
      var closes := Closes(ks);
      var trend := TrendLine(closes[0], closes[|ks| - 1], PercentChange(closes[0], closes[|ks| - 1]));
      assert trend in TrendSection(closes);
      assert trend in Indicators(ks);
      IndicatorsIncluded(input);
    }
    forall l | l in p && l.TrendLine?
      ensures |ks| >= 2 && l.first == ks[0].close && l.last == ks[|ks| - 1].close
      ensures l.percent == PercentChange(l.first, l.last)
    {
      TrendLineIs(input, l);
    }
  }

  lemma MovingAverageIs(input: TradingInput, l: Line)
    requires l in AnalysisPrompt(input) && l.MovingAverage?
    ensures var closes := Closes(Candles(input));
            && (l.period == 5 || l.period == 10) && |closes| >= l.period
            && l.average == Mean(LastUpTo(closes, l.period))
  {
    IndicatorSource(input, l);
    AverageFromTrendSection(Candles(input), l);
    AveragesAreMeans(Closes(Candles(input)));
  }

  /** Each moving average is the mean of the last 5 or 10 closes, shown only
      when there are that many. */
  lemma AveragesAreMeans(closes: seq<real>)
    ensures forall l :: l in MovingAverages(closes) ==>
              && l.MovingAverage? && (l.period == 5 || l.period == 10) && |closes| >= l.period
              && l.average == Mean(LastUpTo(closes, l.period))
  {
  }

  /** The moving averages of the indicators are those of the trend part. */
  lemma AverageFromTrendSection(ks: seq<KLine>, l: Line)
    requires |ks| >= 2 && l in Indicators(ks) && l.MovingAverage?
    ensures l in MovingAverages(Closes(ks))
  {
    RangeKinds(ks);
  }

  /** The range part holds the recent high, the recent low and the volume line only. */
  lemma RangeKinds(ks: seq<KLine>)
    ensures forall l :: l in RangeSection(ks) ==> l.RecentHigh? || l.RecentLow? || l.VolumeLine?
  {
    HighLinesKinds(Readings(ks, HighMeasure));
    LowLinesKinds(Readings(ks, LowMeasure));
    VolumeLinesKinds(Readings(ks, VolumeMeasure));
  }

  lemma HighLinesKinds(highs: seq<real>)
    ensures forall l :: l in HighLines(highs) ==> l.RecentHigh?
  {
  }

  lemma LowLinesKinds(lows: seq<real>)
    ensures forall l :: l in LowLines(lows) ==> l.RecentLow?
  {
  }

  lemma VolumeLinesKinds(volumes: seq<real>)
    ensures forall l :: l in VolumeLines(volumes) ==> l.VolumeLine?
  {
  }

  /** MA5 is shown exactly when there are at least 5 candles and MA10 exactly
      when there are at least 10; each is the mean of that many last closes,
      so it lies between their least and greatest. */
  lemma MovingAveragesShown(input: TradingInput)
    ensures var p := AnalysisPrompt(input); var closes := Closes(Candles(input));
            && (|closes| >= 5 ==> MovingAverage(5, Mean(LastUpTo(closes, 5))) in p)
            && (|closes| >= 10 ==> MovingAverage(10, Mean(LastUpTo(closes, 10))) in p)
            && forall l :: l in p && l.MovingAverage? ==> (
                 && (l.period == 5 || l.period == 10) && |closes| >= l.period
                 && l.average == Mean(LastUpTo(closes, l.period))
                 && MinOf(LastUpTo(closes, l.period)) <= l.average <= MaxOf(LastUpTo(closes, l.period)))
  {
    var p := AnalysisPrompt(input);
    var closes := Closes(Candles(input));
    if |closes| >= 5 {
      AveragesListed(closes);
      AverageShown(input, MovingAverage(5, Mean(LastUpTo(closes, 5))));
      if |closes| >= 10 {
        AverageShown(input, MovingAverage(10, Mean(LastUpTo(closes, 10))));
      }
    }
    forall l | l in p && l.MovingAverage?
      ensures (l.period == 5 || l.period == 10) && |closes| >= l.period
      ensures l.average == Mean(LastUpTo(closes, l.period))
      ensures MinOf(LastUpTo(closes, l.period)) <= l.average <= MaxOf(LastUpTo(closes, l.period))
    {
      MovingAverageIs(input, l);
      MeanBetween(LastUpTo(closes, l.period));
    }
  }

  /** MA5 is listed from 5 closes on, MA10 from 10. */
  lemma AveragesListed(closes: seq<real>)
    ensures |closes| >= 5 ==> MovingAverage(5, Mean(LastUpTo(closes, 5))) in MovingAverages(closes)
    ensures |closes| >= 10 ==> MovingAverage(10, Mean(LastUpTo(closes, 10))) in MovingAverages(closes)
  {
  }

  lemma AverageShown(input: TradingInput, l: Line)
    requires l in MovingAverages(Closes(Candles(input)))
    ensures l in AnalysisPrompt(input)
  {
    var ks := Candles(input);
    assert |ks| >= 2;
    assert l in Indicators(ks);
    IndicatorsIncluded(input);
  }


  /** A line of the range section is part of the prompt when there are two
      candles or more. */
  lemma RangeIncluded(input: TradingInput, l: Line)
    requires |Candles(input)| >= 2 && l in RangeSection(Candles(input))
    ensures l in AnalysisPrompt(input)
  {
    IndicatorsIncluded(input);
  }

  /** A range or volume line of the prompt says what `IndicatorFact` states. */
  lemma RangeLineIs(input: TradingInput, l: Line)
    requires l in AnalysisPrompt(input) && (l.RecentHigh? || l.RecentLow? || l.VolumeLine?)
    ensures |Candles(input)| >= 2 && IndicatorFact(Candles(input), l)
  {
    IndicatorSource(input, l);
    IndicatorFacts(Candles(input));
  }

  /** The recent high is shown, with two candles or more, exactly when some
      candle has a high; it is the greatest of the last (up to) 20 present
      highs: one of them, and no less than any of them. */
  lemma RecentHighIsWindowMax(input: TradingInput)
    ensures var p := AnalysisPrompt(input); var ks := Candles(input);
            var highs := Readings(ks, HighMeasure);
            && (highs != [] <==> exists i :: 0 <= i < |ks| && ks[i].high.Some?)
            && (|ks| >= 2 && highs != [] ==> RecentHigh(MaxOf(LastUpTo(highs, 20))) in p)
            && forall l :: l in p && l.RecentHigh? ==>
                 && |ks| >= 2 && highs != []
                 && l.highest in LastUpTo(highs, 20)
                 && forall x :: x in LastUpTo(highs, 20) ==> x <= l.highest
  {
    var ks := Candles(input);
    var highs := Readings(ks, HighMeasure);
    HighsPresent(ks);
    if |ks| >= 2 && highs != [] {
      assert RecentHigh(MaxOf(LastUpTo(highs, 20))) in RangeSection(ks);
      RangeIncluded(input, RecentHigh(MaxOf(LastUpTo(highs, 20))));
    }
    forall l | l in AnalysisPrompt(input) && l.RecentHigh?
      ensures |ks| >= 2 && highs != [] && l.highest == MaxOf(LastUpTo(highs, 20))
    {
      RangeLineIs(input, l);
    }
  }

  /** The recent low is shown, with two candles or more, exactly when some
      candle has a low; it is the least of the last (up to) 20 present lows:
      one of them, and no greater than any of them. */
  lemma RecentLowIsWindowMin(input: TradingInput)
    ensures var p := AnalysisPrompt(input); var ks := Candles(input);
            var lows := Readings(ks, LowMeasure);
            && (lows != [] <==> exists i :: 0 <= i < |ks| && ks[i].low.Some?)
            && (|ks| >= 2 && lows != [] ==> RecentLow(MinOf(LastUpTo(lows, 20))) in p)
            && forall l :: l in p && l.RecentLow? ==>
                 && |ks| >= 2 && lows != []
                 && l.lowest in LastUpTo(lows, 20)
                 && forall x :: x in LastUpTo(lows, 20) ==> l.lowest <= x
  {
    var ks := Candles(input);
    var lows := Readings(ks, LowMeasure);
    LowsPresent(ks);
    if |ks| >= 2 && lows != [] {
      assert RecentLow(MinOf(LastUpTo(lows, 20))) in RangeSection(ks);
      RangeIncluded(input, RecentLow(MinOf(LastUpTo(lows, 20))));
    }
    forall l | l in AnalysisPrompt(input) && l.RecentLow?
      ensures |ks| >= 2 && lows != [] && l.lowest == MinOf(LastUpTo(lows, 20))
    {
      RangeLineIs(input, l);
    }
  }

  /** The volume line is shown, with two candles or more, exactly when some
      candle has a volume. It gives the last present volume, the mean of the
      last (up to) 10 present volumes (which lies between their least and
      greatest), and the ratio of the two, 1.0 when the mean is not
      positive. */
  lemma VolumeRatioShown(input: TradingInput)
    ensures var p := AnalysisPrompt(input); var ks := Candles(input);
            var volumes := Readings(ks, VolumeMeasure);
            && (volumes != [] <==> exists i :: 0 <= i < |ks| && ks[i].volume.Some?)
            && (|ks| >= 2 && volumes != [] ==>
                  var current := volumes[|volumes| - 1];
                  var average := Mean(LastUpTo(volumes, 10));
                  VolumeLine(current, average, Ratio(current, average)) in p)
            && forall l :: l in p && l.VolumeLine? ==>
                 && |ks| >= 2 && volumes != []
                 && l.current == volumes[|volumes| - 1]
                 && l.average == Mean(LastUpTo(volumes, 10))
                 && MinOf(LastUpTo(volumes, 10)) <= l.average <= MaxOf(LastUpTo(volumes, 10))
                 && l.ratio == Ratio(l.current, l.average)
  {
    var ks := Candles(input);
    var volumes := Readings(ks, VolumeMeasure);
    VolumesPresent(ks);
    if |ks| >= 2 && volumes != [] {
      var current := volumes[|volumes| - 1];
      var average := Mean(LastUpTo(volumes, 10));
      assert VolumeLine(current, average, Ratio(current, average)) in RangeSection(ks);
      RangeIncluded(input, VolumeLine(current, average, Ratio(current, average)));
    }
    forall l | l in AnalysisPrompt(input) && l.VolumeLine?
      ensures |ks| >= 2 && volumes != [] && l.current == volumes[|volumes| - 1]
      ensures l.average == Mean(LastUpTo(volumes, 10)) && l.ratio == Ratio(l.current, l.average)
      ensures MinOf(LastUpTo(volumes, 10)) <= l.average <= MaxOf(LastUpTo(volumes, 10))
    {
      VolumeLineIs(input, l);
    }
  }

  lemma HighsPresent(ks: seq<KLine>)
    ensures Readings(ks, HighMeasure) != [] <==> exists i :: 0 <= i < |ks| && ks[i].high.Some?
  {
    ReadingsArePresentOnes(ks, HighMeasure);
    assert forall i :: 0 <= i < |ks| ==> Reading(ks[i], HighMeasure) == ks[i].high;
  }

  lemma LowsPresent(ks: seq<KLine>)
    ensures Readings(ks, LowMeasure) != [] <==> exists i :: 0 <= i < |ks| && ks[i].low.Some?
  {
    ReadingsArePresentOnes(ks, LowMeasure);
    assert forall i :: 0 <= i < |ks| ==> Reading(ks[i], LowMeasure) == ks[i].low;
  }

  lemma VolumesPresent(ks: seq<KLine>)
    ensures Readings(ks, VolumeMeasure) != [] <==> exists i :: 0 <= i < |ks| && ks[i].volume.Some?
  {
    ReadingsArePresentOnes(ks, VolumeMeasure);
    assert forall i :: 0 <= i < |ks| ==> Reading(ks[i], VolumeMeasure) == ks[i].volume;
  }

  lemma VolumeLineIs(input: TradingInput, l: Line)
    requires l in AnalysisPrompt(input) && l.VolumeLine?
    ensures var volumes := Readings(Candles(input), VolumeMeasure);
            && |Candles(input)| >= 2 && volumes != [] && l.current == volumes[|volumes| - 1]
            && l.average == Mean(LastUpTo(volumes, 10)) && l.ratio == Ratio(l.current, l.average)
            && MinOf(LastUpTo(volumes, 10)) <= l.average <= MaxOf(LastUpTo(volumes, 10))
  {
    var ks := Candles(input);
    var volumes := Readings(ks, VolumeMeasure);
    RangeLineIs(input, l);
    assert volumes != [] && l.average == Mean(LastUpTo(volumes, 10));
    MeanBetween(LastUpTo(volumes, 10));
  }

  /** `analyze`: build the request, send it with the technical persona, and
      parse the reply against the current price; a failing service call
      propagates, and a reply without content makes the parser raise
      `TypeError`. */
  method Analyze(input: TradingInput, complete: (Persona, seq<Line>) -> Reply, b: Builtins)
    returns (o: Outcome)
    ensures o == match complete(Technical, AnalysisPrompt(input))
                 case GatewayFailed => Raised(GatewayFailure)
                 case NoContent => Raised(TypeError)
                 case Completed(text) => ParseResponse(text, input.currentPrice, b)
    ensures o.Decided? ==> o.decision.price == input.currentPrice && ValidDecision(o.decision)
  {
    var prompt := BuildPrompt(input);
    var reply := complete(Technical, prompt);
    match reply
    case GatewayFailed =>
      o := Raised(GatewayFailure);
    case NoContent =>
      // `"```json" in None` raises TypeError, which nothing catches.
      o := Raised(TypeError);
    case Completed(text) =>
      o := ParseResponse(text, input.currentPrice, b);
  }
}
