/** The request text the agents send, modelled as a sequence of lines that carry
    the values they show rather than their formatted text, together with the
    statistics both agents compute from the candles. */
module Prompt {
  import opened Wrappers
  import opened Models

  /** Which agent builds the prompt; it also stands for that agent's fixed
      system instructions. */
  datatype Persona = Technical | Fundamentals

  /** The change shown beside a candle's open: the direction arrow (rising
      when close >= open) and the magnitude of the percentage change. */
  datatype Change = Change(open: real, rising: bool, percent: real)

  datatype Line =
    | Intro(persona: Persona)
    | SymbolLine(symbol: string)
    | CompanyLine(name: string)
    | IndustryLine(name: string)
    | PriceLine(price: real)
    | CandleHeader(count: nat)
    | TechCandle(index: nat, timestamp: Option<string>, close: real, change: Option<Change>,
                 high: Option<real>, low: Option<real>, volume: Option<real>)
    | ValueCandle(timestamp: Option<string>, close: real, open: Option<real>,
                  high: Option<real>, low: Option<real>, volume: Option<real>)
    | IndicatorsHeader
    | TrendLine(first: real, last: real, percent: real)
    | MovingAverage(period: nat, average: real)
    | RecentHigh(highest: real)
    | RecentLow(lowest: real)
    | VolumeLine(current: real, average: real, ratio: real)
    | NoCandlesNotice(persona: Persona)
    | FundamentalsHeader
    | MarketCapLine(marketCap: real)
    | PeLine(pe: real)
    | PbLine(pb: real)
    | RevenueLine(revenue: real)
    | ProfitLine(profit: real)
    | NoFundamentalsNotice
    | Closing(persona: Persona)

  /** What the chat-completion service gives back for a persona's system
      instructions and a request: the reply text, a message without content
      (`message.content` is None), or a failure (a network or API error) that
      propagates to the caller. */
  datatype Reply = Completed(text: string) | NoContent | GatewayFailed

  /** Python truthiness of an optional string: present and non-empty. */
  predicate Truthy(o: Option<string>) {
    o.Some? && o.value != ""
  }

  /** Python truthiness of an optional float: present and non-zero. */
  predicate NonZero(o: Option<real>) {
    o.Some? && o.value != 0.0
  }

  /** `if trading_input.klines and len(trading_input.klines) > 0` */
  predicate HasCandles(input: TradingInput) {
    input.klines.Some? && |input.klines.value| > 0
  }

  function Candles(input: TradingInput): seq<KLine> {
    input.klines.GetOr([])
  }

  /** `[k.close for k in klines]` */
  function Closes(ks: seq<KLine>): (r: seq<real>)
    ensures |r| == |ks| && forall i :: 0 <= i < |ks| ==> r[i] == ks[i].close
  {
    seq(|ks|, i requires 0 <= i < |ks| => ks[i].close)
  }

  /** A candle's timestamp as shown: only a non-empty one is shown. */
  function ShownTimestamp(k: KLine): (r: Option<string>)
    ensures r.Some? <==> Truthy(k.timestamp)
    ensures r.Some? ==> r == k.timestamp
  {
    if Truthy(k.timestamp) then k.timestamp else None
  }

  function Abs(x: real): real {
    if x < 0.0 then -x else x
  }

  /** The percentage change from `base` to `value`; the division is guarded
      and a non-positive base gives 0. */
  function PercentChange(base: real, value: real): real {
    if base > 0.0 then (value - base) / base * 100.0 else 0.0
  }

  /** For a positive base the percentage is the change relative to the base
      (times 100), with the sign of the change; otherwise it is 0. */
  lemma PercentChangeMeaning(base: real, value: real)
    ensures var r := PercentChange(base, value);
            && (base > 0.0 ==> r * base == (value - base) * 100.0)
            && (base > 0.0 ==> (r > 0.0 <==> value > base) && (r < 0.0 <==> value < base))
            && (base <= 0.0 ==> r == 0.0)
  {
  }

  /** `current / average if average > 0 else 1.0` */
  function Ratio(current: real, average: real): real {
    if average > 0.0 then current / average else 1.0
  }

  /** For a positive average the ratio times the average gives back the
      current value; otherwise the ratio is 1. */
  lemma RatioMeaning(current: real, average: real)
    ensures average > 0.0 ==> Ratio(current, average) * average == current
    ensures average <= 0.0 ==> Ratio(current, average) == 1.0
  {
  }

  /** `s[-n:]`: the last `n` elements, or all of `s` when it is shorter. */
  function LastUpTo<T>(s: seq<T>, n: nat): (r: seq<T>)
    ensures |r| == if |s| < n then |s| else n
    ensures r == s[|s| - |r|..]
  {
    if |s| < n then s else s[|s| - n..]
  }

  /** `sum(s)` */
  function Sum(s: seq<real>): real {
    if s == [] then 0.0 else Sum(s[..|s| - 1]) + s[|s| - 1]
  }

  /** `sum(s) / len(s)` */
  function Mean(s: seq<real>): real
    requires s != []
  {
    Sum(s) / |s| as real
  }

  /** The mean times the number of values is their sum. */
  lemma MeanMeaning(s: seq<real>)
    requires s != []
    ensures Mean(s) * |s| as real == Sum(s)
  {
  }

  /** `max(s)` */
  function MaxOf(s: seq<real>): (r: real)
    requires s != []
    ensures r in s && forall i :: 0 <= i < |s| ==> s[i] <= r
  {
    if |s| == 1 then s[0]
    else
      var m := MaxOf(s[..|s| - 1]);
      assert forall i :: 0 <= i < |s| - 1 ==> s[i] == s[..|s| - 1][i];
      if s[|s| - 1] > m then s[|s| - 1] else m
  }

  /** `min(s)` */
  function MinOf(s: seq<real>): (r: real)
    requires s != []
    ensures r in s && forall i :: 0 <= i < |s| ==> r <= s[i]
  {
    if |s| == 1 then s[0]
    else
      var m := MinOf(s[..|s| - 1]);
      assert forall i :: 0 <= i < |s| - 1 ==> s[i] == s[..|s| - 1][i];
      if s[|s| - 1] < m then s[|s| - 1] else m
  }

  /** A sum of values that all lie between `lo` and `hi` lies between
      `|s| * lo` and `|s| * hi`. */
  lemma {:induction false} SumBetween(s: seq<real>, lo: real, hi: real)
    requires forall i :: 0 <= i < |s| ==> lo <= s[i] <= hi
    ensures |s| as real * lo <= Sum(s) <= |s| as real * hi
  {
    if s != [] {
      var init := s[..|s| - 1];
      assert forall i :: 0 <= i < |init| ==> init[i] == s[i];
      SumBetween(init, lo, hi);
      var m := |init| as real;
      assert Sum(s) == Sum(init) + s[|s| - 1];
      assert |s| as real * lo == m * lo + lo && |s| as real * hi == m * hi + hi;
    }
  }

  /** A mean lies between the least and the greatest value averaged. */
  lemma MeanBetween(s: seq<real>)
    requires s != []
    ensures MinOf(s) <= Mean(s) <= MaxOf(s)
  {
    SumBetween(s, MinOf(s), MaxOf(s));
    QuotientBetween(Sum(s), |s| as real, MinOf(s), MaxOf(s));
  }

  lemma QuotientBetween(total: real, n: real, lo: real, hi: real)
    requires n > 0.0 && n * lo <= total <= n * hi
    ensures lo <= total / n <= hi
  {
    var q := total / n;
    assert q * n == total;
  }

  /** Appending is associative (stated once so that long prompts need not be
      compared element by element). */
  lemma AppendAssoc<T>(a: seq<T>, b: seq<T>, c: seq<T>)
    ensures a + b + c == a + (b + c)
  {
  }
}
