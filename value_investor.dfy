/** `ValueInvestorAgent`: the request built from the identity fields, the
    price, the last candles, the trend and the fundamentals, and `analyze`,
    which sends it and parses the reply. */
module ValueInvestor {
  import opened Wrappers
  import opened Models
  import opened Prompt
  import opened DecisionParser

  /** How many of the most recent candles are listed. */
  const Listed: nat := 20

  /** A line shown only when its condition holds. */
  function When(shown: bool, l: Line): seq<Line> {
    if shown then [l] else []
  }

  /** The line listing one candle: the close, the timestamp when it is
      non-empty, and each optional price or volume exactly when present. */
  function CandleLine(k: KLine): (l: Line)
    ensures l.ValueCandle? && l.close == k.close
    ensures l.open == k.open && l.high == k.high && l.low == k.low && l.volume == k.volume
    ensures l.timestamp.Some? <==> Truthy(k.timestamp)
    ensures l.timestamp.Some? ==> l.timestamp == k.timestamp
  {
    ValueCandle(ShownTimestamp(k), k.close, k.open, k.high, k.low, k.volume)
  }

  /** One line per candle, in order. */
  function CandleLines(ks: seq<KLine>): (r: seq<Line>)
    ensures |r| == |ks| && forall i :: 0 <= i < |ks| ==> r[i] == CandleLine(ks[i])
  {
    if ks == [] then []
    else
      var init := ks[..|ks| - 1];
      assert forall i :: 0 <= i < |init| ==> init[i] == ks[i];
      CandleLines(init) + [CandleLine(ks[|ks| - 1])]
  }

  /** The opening, the identity lines that are non-empty, and the price. */
  function Heading(input: TradingInput): seq<Line> {
    [Intro(Fundamentals)]
    + When(Truthy(input.symbol), SymbolLine(input.symbol.GetOr("")))
    + When(Truthy(input.companyName), CompanyLine(input.companyName.GetOr("")))
    + When(Truthy(input.industry), IndustryLine(input.industry.GetOr("")))
    + [PriceLine(input.currentPrice)]
  }

  /** The trend over all the candles (not only the listed ones). */
  function TrendLines(ks: seq<KLine>): seq<Line> {
    if |ks| >= 2 then
      var first := ks[0].close;
      var last := ks[|ks| - 1].close;
      [TrendLine(first, last, PercentChange(first, last))]
    else []
  }

  function CandleSection(input: TradingInput): seq<Line> {
    if HasCandles(input) then
      var ks := input.klines.value;
      [CandleHeader(|ks|)] + CandleLines(LastUpTo(ks, Listed)) + TrendLines(ks)
    else [NoCandlesNotice(Fundamentals)]
  }

  /** `any([market_cap, pe_ratio, pb_ratio, revenue, profit])`: a zero counts
      as missing. */
  predicate HasFundamentals(input: TradingInput) {
    || NonZero(input.marketCap) || NonZero(input.peRatio) || NonZero(input.pbRatio)
    || NonZero(input.revenue) || NonZero(input.profit)
  }

  /** The field lines, each shown exactly when the field is non-zero. */
  function FundamentalLines(input: TradingInput): seq<Line> {
    When(NonZero(input.marketCap), MarketCapLine(input.marketCap.GetOr(0.0)))
    + When(NonZero(input.peRatio), PeLine(input.peRatio.GetOr(0.0)))
    + When(NonZero(input.pbRatio), PbLine(input.pbRatio.GetOr(0.0)))
    + When(NonZero(input.revenue), RevenueLine(input.revenue.GetOr(0.0)))
    + When(NonZero(input.profit), ProfitLine(input.profit.GetOr(0.0)))
  }

  function FundamentalsSection(input: TradingInput): seq<Line> {
    if HasFundamentals(input) then [FundamentalsHeader] + FundamentalLines(input)
    else [NoFundamentalsNotice]
  }

  /** The request `_build_analysis_prompt` builds. */
  function AnalysisPrompt(input: TradingInput): seq<Line> {
    Heading(input) + CandleSection(input) + FundamentalsSection(input) + [Closing(Fundamentals)]
  }

  /** One pass of the listing loop: `kline_info` grown field by field. */
  method DescribeCandle(k: KLine) returns (line: Line)
    ensures line == CandleLine(k)
  {
    var timestamp: Option<string> := None;
    if Truthy(k.timestamp) {
      timestamp := k.timestamp;
    }
    var open: Option<real> := None;
    if k.open.Some? {
      open := k.open;
    }
    var high: Option<real> := None;
    if k.high.Some? {
      high := k.high;
    }
    var low: Option<real> := None;
    if k.low.Some? {
      low := k.low;
    }
    var volume: Option<real> := None;
    if k.volume.Some? {
      volume := k.volume;
    }
    line := ValueCandle(timestamp, k.close, open, high, low, volume);
  }

  /** The candle part of `_build_analysis_prompt`: the header with the total
      count, the last (up to) 20 candles one by one, and the trend. */
  method ListCandles(ks: seq<KLine>) returns (lines: seq<Line>)
    requires |ks| > 0
    ensures lines == [CandleHeader(|ks|)] + CandleLines(LastUpTo(ks, Listed)) + TrendLines(ks)
  {
    var recent := if |ks| > Listed then ks[|ks| - Listed..] else ks;
    assert recent == LastUpTo(ks, Listed);
    var listing := [];
    var i := 0;
    while i < |recent|
      invariant 0 <= i <= |recent|
      invariant listing == CandleLines(recent[..i])
    {
      var line := DescribeCandle(recent[i]);
      assert recent[..i + 1][..i] == recent[..i];
      listing := listing + [line];
      i := i + 1;
    }
    assert recent[..i] == recent;
    var trend := Trend(ks);
    lines := [CandleHeader(|ks|)] + listing + trend;
  }

  /** The trend part: shown with two candles or more. */
  method Trend(ks: seq<KLine>) returns (lines: seq<Line>)
    ensures lines == TrendLines(ks)
  {
    lines := [];
    if |ks| >= 2 {
      var closes := Closes(ks);
      var first := closes[0];
      var last := closes[|closes| - 1];
      var percent := if first > 0.0 then (last - first) / first * 100.0 else 0.0;
      lines := [TrendLine(first, last, percent)];
    }
  }

  /** The fundamentals part of `_build_analysis_prompt`: a chain of
      conditional appends, or the notice. */
  method ListFundamentals(input: TradingInput) returns (lines: seq<Line>)
    ensures lines == FundamentalsSection(input)
  {
    var hasFundamental := NonZero(input.marketCap) || NonZero(input.peRatio) || NonZero(input.pbRatio)
                          || NonZero(input.revenue) || NonZero(input.profit);
    if hasFundamental {
      var shown: seq<Line> := [];
      if NonZero(input.marketCap) {
        shown := shown + [MarketCapLine(input.marketCap.value)];
      }
      assert shown == When(NonZero(input.marketCap), MarketCapLine(input.marketCap.GetOr(0.0)));
      ghost var before := shown;
      if NonZero(input.peRatio) {
        shown := shown + [PeLine(input.peRatio.value)];
      }
      Appended(before, shown, NonZero(input.peRatio), PeLine(input.peRatio.GetOr(0.0)));
      before := shown;
      if NonZero(input.pbRatio) {
        shown := shown + [PbLine(input.pbRatio.value)];
      }
      Appended(before, shown, NonZero(input.pbRatio), PbLine(input.pbRatio.GetOr(0.0)));
      before := shown;
      if NonZero(input.revenue) {
        shown := shown + [RevenueLine(input.revenue.value)];
      }
      Appended(before, shown, NonZero(input.revenue), RevenueLine(input.revenue.GetOr(0.0)));
      before := shown;
      if NonZero(input.profit) {
        shown := shown + [ProfitLine(input.profit.value)];
      }
      Appended(before, shown, NonZero(input.profit), ProfitLine(input.profit.GetOr(0.0)));
      lines := [FundamentalsHeader] + shown;
    } else {
      lines := [NoFundamentalsNotice];
    }
  }

  /** One conditional append of `ListFundamentals`. */
  lemma Appended(before: seq<Line>, after: seq<Line>, shown: bool, l: Line)
    requires after == if shown then before + [l] else before
    ensures after == before + When(shown, l)
  {
    if !shown {
      assert before + [] == before;
    }
  }

  /** `_build_analysis_prompt`: appends the identity lines that are given, the
      price, the candle part or its notice, the fundamentals part or its
      notice, and the closing instruction. */
  method BuildPrompt(input: TradingInput) returns (prompt: seq<Line>)
    ensures prompt == AnalysisPrompt(input)
  {
    prompt := [Intro(Fundamentals)];
    ghost var before := prompt;
    if Truthy(input.symbol) {
      prompt := prompt + [SymbolLine(input.symbol.value)];
    }
    Appended(before, prompt, Truthy(input.symbol), SymbolLine(input.symbol.GetOr("")));
    before := prompt;
    if Truthy(input.companyName) {
      prompt := prompt + [CompanyLine(input.companyName.value)];
    }
    Appended(before, prompt, Truthy(input.companyName), CompanyLine(input.companyName.GetOr("")));
    before := prompt;
    if Truthy(input.industry) {
      prompt := prompt + [IndustryLine(input.industry.value)];
    }
    Appended(before, prompt, Truthy(input.industry), IndustryLine(input.industry.GetOr("")));
    prompt := prompt + [PriceLine(input.currentPrice)];
    assert prompt == Heading(input);
    if HasCandles(input) {
      var candles := ListCandles(input.klines.value);
      prompt := prompt + candles;
    } else {
      prompt := prompt + [NoCandlesNotice(Fundamentals)];
    }
    var fundamentals := ListFundamentals(input);
    prompt := prompt + fundamentals;
    prompt := prompt + [Closing(Fundamentals)];
  }

  /** What a line of the heading says about the input. */
  predicate HeadingFact(input: TradingInput, l: Line) {
    match l
    case Intro(persona) => persona == Fundamentals
    case SymbolLine(symbol) => Truthy(input.symbol) && symbol == input.symbol.value
    case CompanyLine(name) => Truthy(input.companyName) && name == input.companyName.value
    case IndustryLine(name) => Truthy(input.industry) && name == input.industry.value
    case PriceLine(price) => price == input.currentPrice
    case _ => false
  }

  /** What a line of the candle part says about the input: the listed candles
      are among the last 20. */
  predicate CandleFact(input: TradingInput, l: Line) {
    var ks := Candles(input);
    match l
    case CandleHeader(count) => HasCandles(input) && count == |ks|
    case ValueCandle(_, _, _, _, _, _) =>
      HasCandles(input) && exists i :: 0 <= i < |ks| && |ks| - Listed <= i && l == CandleLine(ks[i])
    case TrendLine(first, last, percent) =>
      && HasCandles(input) && |ks| >= 2 && first == ks[0].close && last == ks[|ks| - 1].close
      && percent == PercentChange(first, last)
    case NoCandlesNotice(persona) => !HasCandles(input) && persona == Fundamentals
    case _ => false
  }

  /** What a line of the fundamentals part says about the input. */
  predicate FundamentalFact(input: TradingInput, l: Line) {
    match l
    case FundamentalsHeader => HasFundamentals(input)
    case MarketCapLine(x) => NonZero(input.marketCap) && x == input.marketCap.value
    case PeLine(x) => NonZero(input.peRatio) && x == input.peRatio.value
    case PbLine(x) => NonZero(input.pbRatio) && x == input.pbRatio.value
    case RevenueLine(x) => NonZero(input.revenue) && x == input.revenue.value
    case ProfitLine(x) => NonZero(input.profit) && x == input.profit.value
    case NoFundamentalsNotice => !HasFundamentals(input)
    case _ => false
  }

  lemma HeadingFacts(input: TradingInput)
    ensures forall l :: l in Heading(input) ==> HeadingFact(input, l)
  {
  }

  /** The listed lines are those of the last (up to) 20 candles. */
  lemma ListedAreRecent(ks: seq<KLine>)
    ensures forall l :: l in CandleLines(LastUpTo(ks, Listed)) ==>
              exists i :: 0 <= i < |ks| && |ks| - Listed <= i && l == CandleLine(ks[i])
  {
    var recent := LastUpTo(ks, Listed);
    forall l | l in CandleLines(recent)
      ensures exists i :: 0 <= i < |ks| && |ks| - Listed <= i && l == CandleLine(ks[i])
    {
      var j :| 0 <= j < |recent| && CandleLines(recent)[j] == l;
      ListedIndex(ks, j);
    }
  }

  /** The `j`-th listed line is that of candle `|ks| - |recent| + j`. */
  lemma ListedIndex(ks: seq<KLine>, j: nat)
    requires j < |LastUpTo(ks, Listed)|
    ensures var recent := LastUpTo(ks, Listed); var i := |ks| - |recent| + j;
            && 0 <= i < |ks| && |ks| - Listed <= i && CandleLines(recent)[j] == CandleLine(ks[i])
  {
    var recent := LastUpTo(ks, Listed);
    assert recent[j] == ks[|ks| - |recent| + j];
  }

  lemma ListedFact(input: TradingInput, l: Line)
    requires HasCandles(input) && l in CandleLines(LastUpTo(Candles(input), Listed))
    ensures CandleFact(input, l)
  {
    ListedAreRecent(Candles(input));
  }

  lemma CandleFacts(input: TradingInput)
    ensures forall l :: l in CandleSection(input) ==> CandleFact(input, l)
  {
    var ks := Candles(input);
    if HasCandles(input) {
      var recent := LastUpTo(ks, Listed);
      forall l | l in CandleSection(input) ensures CandleFact(input, l) {
        if l in CandleLines(recent) {
          ListedFact(input, l);
        }
      }
    }
  }

  lemma FundamentalFacts(input: TradingInput)
    ensures forall l :: l in FundamentalsSection(input) ==> FundamentalFact(input, l)
  {
    forall l | l in FundamentalLines(input) ensures FundamentalFact(input, l) {
      FieldLineFact(input, l);
    }
  }

  lemma FieldLineFact(input: TradingInput, l: Line)
    requires l in FundamentalLines(input)
    ensures FundamentalFact(input, l)
  {
    var c := When(NonZero(input.marketCap), MarketCapLine(input.marketCap.GetOr(0.0)));
    var e := When(NonZero(input.peRatio), PeLine(input.peRatio.GetOr(0.0)));
    var b := When(NonZero(input.pbRatio), PbLine(input.pbRatio.GetOr(0.0)));
    var r := When(NonZero(input.revenue), RevenueLine(input.revenue.GetOr(0.0)));
    var f := When(NonZero(input.profit), ProfitLine(input.profit.GetOr(0.0)));
    assert l in c || l in e || l in b || l in r || l in f;
  }

  /** Every line of the prompt is one of the heading, candle or fundamentals
      lines, saying what the corresponding fact states, or the closing
      instruction. */
  lemma PromptFacts(input: TradingInput)
    ensures forall l :: l in AnalysisPrompt(input) ==>
              || HeadingFact(input, l) || CandleFact(input, l) || FundamentalFact(input, l)
              || l == Closing(Fundamentals)
  {
    HeadingFacts(input);
    CandleFacts(input);
    FundamentalFacts(input);
  }

  /** Every line of each part is a line of the prompt. */
  lemma PartsIncluded(input: TradingInput)
    ensures forall l :: l in Heading(input) ==> l in AnalysisPrompt(input)
    ensures forall l :: l in CandleSection(input) ==> l in AnalysisPrompt(input)
    ensures forall l :: l in FundamentalsSection(input) ==> l in AnalysisPrompt(input)
  {
  }

  /** `PromptFacts` for one line. */
  lemma FactOf(input: TradingInput, l: Line)
    requires l in AnalysisPrompt(input)
    ensures || HeadingFact(input, l) || CandleFact(input, l) || FundamentalFact(input, l)
            || l == Closing(Fundamentals)
  {
    PromptFacts(input);
  }

  /** The request opens with the value-investing persona's introduction,
      shows each identity field exactly when it is non-empty, always shows the
      current price, and ends with the closing instruction. */
  lemma IdentityAndPriceLines(input: TradingInput)
    ensures var p := AnalysisPrompt(input);
            && p[0] == Intro(Fundamentals)
            && p[|p| - 1] == Closing(Fundamentals)
            && PriceLine(input.currentPrice) in p
            && (Truthy(input.symbol) ==> SymbolLine(input.symbol.value) in p)
            && (Truthy(input.companyName) ==> CompanyLine(input.companyName.value) in p)
            && (Truthy(input.industry) ==> IndustryLine(input.industry.value) in p)
            && forall l :: l in p && (l.SymbolLine? || l.CompanyLine? || l.IndustryLine? || l.PriceLine?) ==>
                 HeadingFact(input, l)
  {
    var p := AnalysisPrompt(input);
    PartsIncluded(input);
    forall l | l in p && (l.SymbolLine? || l.CompanyLine? || l.IndustryLine? || l.PriceLine?)
      ensures HeadingFact(input, l)
    {
      FactOf(input, l);
    }
  }

  /** Each of the last (up to) 20 candles has its line in the listing. */
  lemma RecentListed(ks: seq<KLine>)
    ensures forall i :: 0 <= i < |ks| && |ks| - Listed <= i ==> CandleLine(ks[i]) in CandleLines(LastUpTo(ks, Listed))
  {
    var recent := LastUpTo(ks, Listed);
    var lines := CandleLines(recent);
    forall i | 0 <= i < |ks| && |ks| - Listed <= i ensures CandleLine(ks[i]) in lines {
      var j := i - (|ks| - |recent|);
      assert recent[j] == ks[i];
      assert lines[j] == CandleLine(ks[i]);
    }
  }

  /** Without candles (absent, null or empty) the request carries the
      notice, and only then. */
  lemma NoticeWithoutCandles(input: TradingInput)
    ensures NoCandlesNotice(Fundamentals) in AnalysisPrompt(input) <==> !HasCandles(input)
  {
    PartsIncluded(input);
    if NoCandlesNotice(Fundamentals) in AnalysisPrompt(input) {
      FactOf(input, NoCandlesNotice(Fundamentals));
    }
    if !HasCandles(input) {
      assert NoCandlesNotice(Fundamentals) in CandleSection(input);
    }
  }

  /** With candles the request gives their total count and lists each of the
      last (up to) 20 of them. */
  lemma RecentCandlesListed(input: TradingInput)
    requires HasCandles(input)
    ensures var p := AnalysisPrompt(input); var ks := Candles(input);
            && CandleHeader(|ks|) in p
            && forall i :: 0 <= i < |ks| && |ks| - Listed <= i ==> CandleLine(ks[i]) in p
  {
    var ks := Candles(input);
    PartsIncluded(input);
    assert CandleHeader(|ks|) in CandleSection(input);
    RecentListed(ks);
    forall i | 0 <= i < |ks| && |ks| - Listed <= i ensures CandleLine(ks[i]) in AnalysisPrompt(input) {
      assert CandleLine(ks[i]) in CandleLines(LastUpTo(ks, Listed));
      assert CandleLine(ks[i]) in CandleSection(input);
    }
  }

  /** Every candle line shown is one of the last `Listed` candles, and the
      header counts all the candles. */
  lemma ListedCandlesAreRecent(input: TradingInput)
    ensures forall l :: l in AnalysisPrompt(input) && (l.ValueCandle? || l.CandleHeader?) ==> CandleFact(input, l)
  {
    forall l | l in AnalysisPrompt(input) && (l.ValueCandle? || l.CandleHeader?)
      ensures CandleFact(input, l)
    {
      FactOf(input, l);
    }
  }

  /** The trend line is shown exactly when there are at least two candles;
      it compares the first and the last close of all the candles, with
      percentage `PercentChange` (0 when the first close is not positive). */
  lemma TrendOnlyWithTwoCandles(input: TradingInput)
    ensures var p := AnalysisPrompt(input); var ks := Candles(input);
            && (|ks| >= 2 ==> TrendLine(ks[0].close, ks[|ks| - 1].close,
                                        PercentChange(ks[0].close, ks[|ks| - 1].close)) in p)
            && forall l :: l in p && l.TrendLine? ==>
                 && |ks| >= 2 && l.first == ks[0].close && l.last == ks[|ks| - 1].close
                 && l.percent == PercentChange(l.first, l.last)
  {
    var p := AnalysisPrompt(input);
    var ks := Candles(input);
    PartsIncluded(input);
    if |ks| >= 2 {
      assert TrendLine(ks[0].close, ks[|ks| - 1].close, PercentChange(ks[0].close, ks[|ks| - 1].close))
             in TrendLines(ks);
    }
    forall l | l in p && l.TrendLine? ensures CandleFact(input, l) {
      FactOf(input, l);
    }
  }

  /** The fundamentals section is shown exactly when one of the five figures
      is non-zero, and otherwise the notice; each figure's line is shown
      exactly when that figure is non-zero, with its value. */
  lemma FundamentalsShownWhenNonZero(input: TradingInput)
    ensures var p := AnalysisPrompt(input);
            && (FundamentalsHeader in p <==> HasFundamentals(input))
            && (NoFundamentalsNotice in p <==> !HasFundamentals(input))
            && (NonZero(input.marketCap) ==> MarketCapLine(input.marketCap.value) in p)
            && (NonZero(input.peRatio) ==> PeLine(input.peRatio.value) in p)
            && (NonZero(input.pbRatio) ==> PbLine(input.pbRatio.value) in p)
            && (NonZero(input.revenue) ==> RevenueLine(input.revenue.value) in p)
            && (NonZero(input.profit) ==> ProfitLine(input.profit.value) in p)
            && forall l :: l in p && (l.MarketCapLine? || l.PeLine? || l.PbLine? || l.RevenueLine? || l.ProfitLine?) ==>
                 FundamentalFact(input, l)
  {
    MarkersMeanPresence(input);
    if HasFundamentals(input) {
      FieldsPresent(input);
    }
    FieldLinesAreFacts(input);
  }

  lemma MarkersMeanPresence(input: TradingInput)
    ensures var p := AnalysisPrompt(input);
            && (FundamentalsHeader in p <==> HasFundamentals(input))
            && (NoFundamentalsNotice in p <==> !HasFundamentals(input))
  {
    var p := AnalysisPrompt(input);
    FundamentalFacts(input);
    if HasFundamentals(input) {
      InFundamentalsSection(input, FundamentalsHeader);
    } else {
      InFundamentalsSection(input, NoFundamentalsNotice);
    }
    if FundamentalsHeader in p {
      MarkerInSection(input, FundamentalsHeader);
    }
    if NoFundamentalsNotice in p {
      MarkerInSection(input, NoFundamentalsNotice);
    }
  }

  lemma InFundamentalsSection(input: TradingInput, l: Line)
    requires l in FundamentalsSection(input)
    ensures l in AnalysisPrompt(input)
  {
  }

  /** The header and the notice of the fundamentals part appear nowhere else. */
  lemma MarkerInSection(input: TradingInput, l: Line)
    requires l in AnalysisPrompt(input) && (l.FundamentalsHeader? || l.NoFundamentalsNotice?)
    ensures l in FundamentalsSection(input)
  {
    HeadingKinds(input);
    CandleSectionKinds(input);
  }

  lemma HeadingKinds(input: TradingInput)
    ensures forall l :: l in Heading(input) ==> l.Intro? || l.SymbolLine? || l.CompanyLine? || l.IndustryLine? || l.PriceLine?
  {
  }

  lemma CandleSectionKinds(input: TradingInput)
    ensures forall l :: l in CandleSection(input) ==> l.CandleHeader? || l.ValueCandle? || l.TrendLine? || l.NoCandlesNotice?
  {
    if HasCandles(input) {
      CandleLinesKinds(LastUpTo(Candles(input), Listed));
    }
  }

  lemma CandleLinesKinds(ks: seq<KLine>)
    ensures forall l :: l in CandleLines(ks) ==> l.ValueCandle?
  {
    forall l | l in CandleLines(ks) ensures l.ValueCandle? {
      var i :| 0 <= i < |ks| && CandleLines(ks)[i] == l;
    }
  }


  lemma FieldsPresent(input: TradingInput)
    requires HasFundamentals(input)
    ensures var p := AnalysisPrompt(input);
            && (NonZero(input.marketCap) ==> MarketCapLine(input.marketCap.value) in p)
            && (NonZero(input.peRatio) ==> PeLine(input.peRatio.value) in p)
            && (NonZero(input.pbRatio) ==> PbLine(input.pbRatio.value) in p)
            && (NonZero(input.revenue) ==> RevenueLine(input.revenue.value) in p)
            && (NonZero(input.profit) ==> ProfitLine(input.profit.value) in p)
  {
    PartsIncluded(input);
    assert forall l :: l in FundamentalLines(input) ==> l in FundamentalsSection(input);
  }

  lemma FieldLinesAreFacts(input: TradingInput)
    ensures forall l :: l in AnalysisPrompt(input) && (l.MarketCapLine? || l.PeLine? || l.PbLine? || l.RevenueLine? || l.ProfitLine?) ==>
              FundamentalFact(input, l)
  {
    forall l | l in AnalysisPrompt(input) && (l.MarketCapLine? || l.PeLine? || l.PbLine? || l.RevenueLine? || l.ProfitLine?)
      ensures FundamentalFact(input, l)
    {
      FactOf(input, l);
    }
  }


  /** `analyze`: build the request, send it with the value-investing persona,
      and parse the reply against the current price; a failing service call
      propagates, and a reply without content makes the parser raise
      `TypeError`. */
  method Analyze(input: TradingInput, complete: (Persona, seq<Line>) -> Reply, b: Builtins)
    returns (o: Outcome)
    ensures o == match complete(Fundamentals, AnalysisPrompt(input))
                 case GatewayFailed => Raised(GatewayFailure)
                 case NoContent => Raised(TypeError)
                 case Completed(text) => ParseResponse(text, input.currentPrice, b)
    ensures o.Decided? ==> o.decision.price == input.currentPrice && ValidDecision(o.decision)
  {
    var prompt := BuildPrompt(input);
    var reply := complete(Fundamentals, prompt);
    match reply
    case GatewayFailed =>
      o := Raised(GatewayFailure);
    case NoContent =>
      // `"```json" in None` raises TypeError, which nothing catches.
      o := Raised(TypeError);
    case Completed(text) =>
      o := ParseResponse(text, input.currentPrice, b);
  }
}
