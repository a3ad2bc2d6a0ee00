# Trading agents: request building, reply parsing and coin ids

This project is a Dafny model of the decision-making core of a small
trading-assistant service. Two agents are modelled. Each turns a
`TradingInput` (a current price plus optional candles and company data) into
a request for a chat-completion service, then turns the reply into a
validated `TradingDecision` (BUY, SELL or HOLD, with a confidence in [0, 1]).

- The **technical analyst** lists every candle and adds indicators:
  - the trend from the first to the last close;
  - 5- and 10-candle moving averages;
  - the recent high and low over the last 20 readings;
  - the last volume against the mean of the last 10.
- The **value investor** lists the last 20 candles and the overall trend,
  then the non-zero fundamentals: market cap, P/E, P/B, revenue and profit.
- Both agents share one **reply parser**. It:
  - cuts the JSON out of a fenced code block;
  - decodes it and fills in defaults;
  - upper-cases the action and converts the confidence to a float;
  - builds the validated record.

  When decoding, float conversion or validation fails, the parser returns a
  fixed HOLD at confidence 0.3 whose reasoning quotes the first 200
  characters of the reply.
- The CoinGecko routes use a small **symbol table** to turn a ticker symbol
  such as `BTC` into a CoinGecko id.

## How the model is organised

- **Modules:**
  - `Wrappers`: `Option` and `Result`.
  - `Text`: the Python string operations the code uses (`in`, `split`,
    `strip`, `upper`, `lower`, a prefix slice).
  - `Json`: a decoded JSON value.
  - `Models`: the pydantic records and their validation.
  - `Prompt`: the request as lines, plus the shared statistics.
  - `DecisionParser`: the shared `_parse_response`.
  - `TechnicalAnalyst` and `ValueInvestor`: one module per agent.
  - `CoinIds`: the symbol table and `resolve_coin_id`.
- **The request** is a sequence of `Line` values. Each line carries the
  values it shows (close, open, percentage, average, …) instead of the
  formatted text.
- **Each prompt builder** is modelled twice:
  - an imperative `BuildPrompt` method that appends line by line, as the
    source does, with its loops and invariants;
  - a function `AnalysisPrompt` that the method is proved equal to.

  The property lemmas are stated about `AnalysisPrompt`.
- **`Analyze`** takes the chat-completion service as a parameter: a function
  from the agent's persona and the request to a `Reply`. A failed call
  propagates as `Raised(GatewayFailure)`. A reply whose content is `None`
  makes the parser's first `in` test raise `TypeError`, which nothing catches.
- **Parser outcomes:** the parser returns `Decided(decision)` or
  `Raised(error)`. A reply that decodes to a non-object, a non-string action,
  or a null, array or object confidence raises an error (`AttributeError` or
  `TypeError`) that the source does not catch. The lemmas characterise
  exactly when that happens (`DecisionParser.ParseResponse`).
- **Validation semantics:** pydantic is modelled in lax mode:
  - a float field accepts a number, a boolean or a numeric string;
  - a string field accepts only a string;
  - the action must be exactly `BUY`, `SELL` or `HOLD`;
  - the confidence must lie in [0, 1].
- **Action and confidence are taken as given.** The parser neither replaces
  an unrecognised action by a default action nor clamps a confidence outside
  [0, 1]. The record fails validation, and because
  pydantic's `ValidationError` is a `ValueError`, the parser returns the
  0.3-confidence HOLD fallback (`DecisionParser.ActionAndConfidence`).
- **Python semantics kept exactly:**
  - `split(sep)[1]` is the text between the first and the second
    occurrence of `sep`;
  - `strip()` removes every character for which `str.isspace` holds;
  - truthiness: an empty string or a zero number counts as missing;
  - `klines[-20:]` takes the last (up to) 20 elements.

## Model

| member | source | states |
|---|---|---|
| `Models.ActionFromName` | app/agents/models.py:19 | an action is accepted iff it is spelled exactly BUY, SELL or HOLD, and the accepted action has that name |
| `Models.ValidateKLine` | app/agents/models.py:7-14 | a candle validates iff `close` is present and converts to a float, `timestamp` is absent or a string, and `open`, `high`, `low` and `volume` are each absent or convertible; an accepted candle carries the given close and each optional field exactly as passed (absent or null gives None) |
| `Models.ValidateKLines` | app/agents/models.py:34 | a candle list validates iff every element is an object that validates as a candle, and then holds those candles in order |
| `Models.ValidateTradingInput` | app/agents/models.py:27-45 | an input validates iff `current_price` is present and converts, `symbol`, `industry` and `company_name` are each absent or a string, each fundamental is absent or converts, and `klines` is missing, null or a list of valid candles; an accepted input carries the given price; a missing candle list becomes the empty list, a null one None, a list the element-by-element validated candles; every optional number and string field is carried as passed |
| `Models.ValidateDecision` | app/agents/models.py:17-24 | a decision validates iff the action is a literal action name, the confidence converts and lies in [0, 1], reasoning is a string, price converts and each optional price is absent or converts; the accepted record carries those values |
| `Models.OnlyCloseRequired` | app/agents/models.py:9-14 | a candle given only its close validates, with every other field None |
| `Models.OnlyCurrentPriceRequired` | app/agents/models.py:30-45 | an input given only its current price validates, with an empty candle list and every other field None |
| `Text.StripStart` | app/agents/technical_analyst_agent.py:171-175 | `lstrip` removes a leading run of white space only, keeps a suffix of the text, and the result does not start with white space |
| `Text.StripEnd` | app/agents/technical_analyst_agent.py:171-175 | `rstrip` removes a trailing run of white space only, keeps a prefix of the text, and the result does not end with white space |
| `Text.Strip` | app/agents/technical_analyst_agent.py:171-175 | the stripped text neither starts nor ends with white space |
| `Text.StripIsInfix` | app/agents/technical_analyst_agent.py:171-175 | strip removes only white space, from both ends, and keeps one contiguous piece of the text |
| `Text.Find` | app/agents/technical_analyst_agent.py:170-172 | the result is the first position where the pattern occurs, or none when it occurs nowhere |
| `Text.FindInSlice` | app/agents/technical_analyst_agent.py:171 | the first occurrence of a pattern in a slice is the first occurrence in the text from the slice's start, when it ends inside the slice, and otherwise there is none |
| `Text.SplitFirst` | app/agents/technical_analyst_agent.py:171 | `split(sep)[0]` is the text before the first separator, or the whole text when there is none, and contains no separator |
| `Text.SplitSecond` | app/agents/technical_analyst_agent.py:171 | `split(sep)[1]` is exactly the text from the end of the first separator to the start of the second, or to the end of the text when there is no second, and contains no separator |
| `Text.Prefix` | app/agents/technical_analyst_agent.py:193 | `s[:n]` is a prefix of `s` of length min(len(s), n) |
| `Text.Upper` | app/agents/technical_analyst_agent.py:181 | upper-casing keeps the length and maps each character to its upper-case form |
| `Text.Lower` | app/api/routes/service.py:37 | lower-casing keeps the length and maps each character to its lower-case form |
| `Text.LowerIsLowerCase` | app/api/routes/service.py:37 | lower-cased text is lower-case, and lower-case text is left as it is |
| `Prompt.Closes` | app/agents/technical_analyst_agent.py:123 | the closes are the candles' closes, one per candle, in order |
| `Prompt.ShownTimestamp` | app/agents/technical_analyst_agent.py:117-118 | a timestamp is shown iff it is present and non-empty, and then as given |
| `Prompt.PercentChangeMeaning` | app/agents/technical_analyst_agent.py:129-130 | for a positive base the percentage times the base is 100 times the change, and its sign is the change's; a non-positive base gives 0 |
| `Prompt.RatioMeaning` | app/agents/technical_analyst_agent.py:157 | for a positive average the ratio times the average is the current volume; otherwise the ratio is 1.0 |
| `Prompt.LastUpTo` | app/agents/technical_analyst_agent.py:146 | `s[-n:]` is the suffix of `s` of length min(len(s), n) |
| `Prompt.MaxOf` | app/agents/technical_analyst_agent.py:146 | `max` returns an element that no element exceeds |
| `Prompt.MinOf` | app/agents/technical_analyst_agent.py:149 | `min` returns an element that exceeds no element |
| `Prompt.SumBetween` | app/agents/technical_analyst_agent.py:135 | a sum of n values within [lo, hi] lies within [n·lo, n·hi] |
| `Prompt.MeanBetween` | app/agents/technical_analyst_agent.py:135-139 | a mean lies between the least and the greatest value averaged |
| `Prompt.MeanMeaning` | app/agents/technical_analyst_agent.py:135-139 | a mean times the number of values averaged is their sum |
| `DecisionParser.JsonFenceIsFence` | app/agents/technical_analyst_agent.py:170-172 | a reply containing a json fence also contains a generic fence |
| `DecisionParser.ExtractJson` | app/agents/technical_analyst_agent.py:170-175 | with a json fence, the result is the stripped text from the end of the first json fence to the first plain fence after it (when that comes before the next json fence) or else to the next json fence or the end; with only plain fences, the stripped text between the first and the second fence (or the end); with no fence, the whole reply stripped; when a fence is present the result contains none |
| `DecisionParser.JsonBlockIs` | app/agents/technical_analyst_agent.py:170-171 | `split("```json")[1].split("```")[0]` is the reply's text from after the first json fence to the end given by `JsonBlockEnd` |
| `DecisionParser.FenceBlockIs` | app/agents/technical_analyst_agent.py:172-173 | `split("```")[1].split("```")[0]` is the reply's text between the first and the second plain fence, or to the end |
| `DecisionParser.StripAddsNoOccurrence` | app/agents/technical_analyst_agent.py:171-173 | stripping a piece of text that holds no occurrence of a pattern (such as a fence) leaves none |
| `DecisionParser.JsonBlockWins` | app/agents/technical_analyst_agent.py:170-171 | for a reply `pre` + json fence + body + fence + `post` without backticks elsewhere, the extracted text is the stripped body |
| `DecisionParser.FencedBlock` | app/agents/technical_analyst_agent.py:170-171 | a reply that is exactly one json-fenced block yields its stripped body |
| `DecisionParser.PyFloat` | app/agents/technical_analyst_agent.py:182 | `float(v)` converts exactly the values that the lax float coercion accepts, to the same value; it raises ValueError exactly for a string that does not read as a number and TypeError exactly for null, arrays and objects |
| `DecisionParser.Fallback` | app/agents/technical_analyst_agent.py:188-195 | the fallback is a valid HOLD at confidence 0.3 with the caller's price, no target or stop, and reasoning that ends with the first 200 characters of the reply |
| `DecisionParser.Decide` | app/agents/technical_analyst_agent.py:180-187 | a decoded value raises iff it is not an object with a string action and a number, boolean or string confidence; raised errors are never gateway failures; every decision is valid and carries the caller's price |
| `DecisionParser.ParseResponse` | app/agents/technical_analyst_agent.py:166-195 | every decision returned is valid and carries the caller's price; an exception escapes iff the reply decodes to a value outside the parsable shape |
| `DecisionParser.UndecodableGivesFallback` | app/agents/technical_analyst_agent.py:188-195 | a reply that does not decode gives the HOLD 0.3 fallback quoting the reply's start |
| `DecisionParser.EmptyObjectTakesDefaults` | app/agents/technical_analyst_agent.py:180-187 | an empty JSON object gives HOLD at 0.5 with the default reasoning and no target or stop |
| `DecisionParser.DecisionsComeFromReply` | app/agents/technical_analyst_agent.py:166-195 | every decision returned is either the HOLD 0.3 fallback quoting the reply's start, or echoes the decoded object: its upper-cased action, its converted confidence, its reasoning, its target and its stop |
| `DecisionParser.UnreadableConfidenceGivesFallback` | app/agents/technical_analyst_agent.py:182-195 | a string confidence that `float` cannot read raises ValueError, which gives the fallback |
| `DecisionParser.IllTypedFieldGivesFallback` | app/agents/technical_analyst_agent.py:183-195 | a non-string reasoning, or a target or stop that does not convert to a float, fails validation and gives the fallback |
| `DecisionParser.AcceptedArgs` | app/agents/technical_analyst_agent.py:180-187 | with a recognised upper-cased action and a confidence in [0, 1], the record validates with exactly the given values |
| `DecisionParser.RejectedArgs` | app/agents/technical_analyst_agent.py:188-195 | an unrecognised action or a confidence outside [0, 1] makes the record fail validation |
| `DecisionParser.ActionAndConfidence` | app/agents/technical_analyst_agent.py:180-195 | the action is upper-cased and the decision taken as given iff the action is recognised and the confidence in range; otherwise the HOLD 0.3 fallback is returned, with no clamping |
| `DecisionParser.BuyExample` | app/agents/technical_analyst_agent.py:180-187 | a decoded buy with confidence 0.8, reasoning and a target gives exactly that BUY decision at the caller's price |
| `DecisionParser.FencedBuyExample` | app/agents/technical_analyst_agent.py:166-187 | the same buy wrapped in a json fence gives the same decision |
| `TechnicalAnalyst.ReadingsArePresentOnes` | app/agents/technical_analyst_agent.py:142-153 | the readings list is empty iff no candle has the reading; each entry is some candle's reading; the last entry is the reading of the last candle that has one |
| `TechnicalAnalyst.ReadingsFollowCandles` | app/agents/technical_analyst_agent.py:142-153 | the readings list is the comprehension over the candles: its j-th entry is the reading of the j-th candle that has one, in candle order, and every candle that has the reading contributes exactly one entry |
| `TechnicalAnalyst.CandleLine` | app/agents/technical_analyst_agent.py:101-118 | a candle line carries its index, close, high, low and volume; its timestamp iff non-empty; a change iff the open is present, carrying that open and rising iff close >= open |
| `TechnicalAnalyst.CandleChangeIs` | app/agents/technical_analyst_agent.py:104-109 | the percentage beside the open is non-negative; for a positive open it times the open is 100 times the absolute change, and otherwise it is 0 |
| `TechnicalAnalyst.CandleLines` | app/agents/technical_analyst_agent.py:101-120 | one line per candle, in order, numbered from 1 |
| `TechnicalAnalyst.DescribeCandle` | app/agents/technical_analyst_agent.py:102-118 | the field-by-field loop body produces the candle line |
| `TechnicalAnalyst.ListCandles` | app/agents/technical_analyst_agent.py:101-120 | the listing loop produces one line per candle, numbered from 1, in order |
| `TechnicalAnalyst.DescribeCandles` | app/agents/technical_analyst_agent.py:97-160 | builds the candle header, the listing and (for two or more candles) the indicators, or the no-candles notice |
| `TechnicalAnalyst.TrendAndAverages` | app/agents/technical_analyst_agent.py:125-139 | builds the indicators header, trend line and moving averages of the closes |
| `TechnicalAnalyst.PriceRange` | app/agents/technical_analyst_agent.py:142-150 | builds the recent-high and recent-low lines of the present readings |
| `TechnicalAnalyst.VolumeSummary` | app/agents/technical_analyst_agent.py:153-158 | builds the volume line of the present volumes |
| `TechnicalAnalyst.ComputeIndicators` | app/agents/technical_analyst_agent.py:122-158 | builds the whole indicators section for two or more candles |
| `TechnicalAnalyst.BuildPrompt` | app/agents/technical_analyst_agent.py:87-164 | the request built line by line equals `AnalysisPrompt`, so it is determined by the input alone |
| `TechnicalAnalyst.Analyze` | app/agents/technical_analyst_agent.py:62-81 | the outcome is the parse of the service's reply to the technical persona's request, a gateway failure, or a TypeError when the reply has no content; a decision carries the input's price and is valid |
| `TechnicalAnalyst.PromptParts` | app/agents/technical_analyst_agent.py:87-164 | every request line comes from the heading, the candle header or listing, the indicators (only with two or more candles), the notice (only without candles) or the closing |
| `TechnicalAnalyst.PriceAlwaysShown` | app/agents/technical_analyst_agent.py:89-94 | the request opens with the introduction, always shows the price, shows the symbol iff it is non-empty, and ends with the closing |
| `TechnicalAnalyst.NoCandlesMeansNotice` | app/agents/technical_analyst_agent.py:97-160 | the no-candles notice appears iff there are no candles, and then no candle or indicator line appears |
| `TechnicalAnalyst.CandlesListed` | app/agents/technical_analyst_agent.py:97-120 | with candles the header counts them and every candle is listed with its 1-based index; every listed line describes the candle at its index |
| `TechnicalAnalyst.IndicatorsNeedTwoCandles` | app/agents/technical_analyst_agent.py:125-126 | the indicators header appears iff there are at least two candles, and no indicator line appears otherwise |
| `TechnicalAnalyst.TrendIsRelativeChange` | app/agents/technical_analyst_agent.py:128-131 | with two or more candles the trend line from the first to the last close is shown, and every trend line compares those closes with their guarded percentage change |
| `TechnicalAnalyst.MovingAveragesShown` | app/agents/technical_analyst_agent.py:133-139 | the 5- and 10-candle averages are shown when there are that many closes, and each shown average is the mean of the last 5 or 10 closes, between their minimum and maximum |
| `TechnicalAnalyst.RecentHighIsWindowMax` | app/agents/technical_analyst_agent.py:142-147 | with two or more candles, the recent high is shown iff some candle has a high, and is the greatest of the last 20 present highs |
| `TechnicalAnalyst.RecentLowIsWindowMin` | app/agents/technical_analyst_agent.py:143-150 | with two or more candles, the recent low is shown iff some candle has a low, and is the least of the last 20 present lows |
| `TechnicalAnalyst.VolumeRatioShown` | app/agents/technical_analyst_agent.py:152-158 | with two or more candles, the volume line is shown iff some candle has a volume; it gives the last volume, the mean of the last 10 (between their minimum and maximum) and the guarded ratio |
| `ValueInvestor.CandleLine` | app/agents/value_investor_agent.py:105-115 | a candle line carries the close, the timestamp iff it is non-empty (then as given), and the open, high, low and volume exactly as present |
| `ValueInvestor.CandleLines` | app/agents/value_investor_agent.py:104-116 | one line per listed candle, in order |
| `ValueInvestor.DescribeCandle` | app/agents/value_investor_agent.py:105-115 | the field-by-field loop body produces the candle line |
| `ValueInvestor.ListCandles` | app/agents/value_investor_agent.py:101-123 | builds the header with the total count, the last 20 candles and the trend |
| `ValueInvestor.Trend` | app/agents/value_investor_agent.py:118-123 | builds the trend line over all candles when there are two or more |
| `ValueInvestor.ListFundamentals` | app/agents/value_investor_agent.py:127-146 | builds the fundamentals section, one line per non-zero field, or the notice |
| `ValueInvestor.BuildPrompt` | app/agents/value_investor_agent.py:86-150 | the request built line by line equals `AnalysisPrompt` |
| `ValueInvestor.Analyze` | app/agents/value_investor_agent.py:61-80 | the outcome is the parse of the service's reply to the value persona's request, a gateway failure, or a TypeError when the reply has no content; a decision carries the input's price and is valid |
| `ValueInvestor.PromptFacts` | app/agents/value_investor_agent.py:86-150 | every request line states a fact about the input (identity, price, candle, trend, fundamental, notice) or is the closing |
| `ValueInvestor.IdentityAndPriceLines` | app/agents/value_investor_agent.py:88-98 | the request opens with the introduction and ends with the closing; the price is always shown; symbol, company and industry are shown iff non-empty, with their values |
| `ValueInvestor.NoticeWithoutCandles` | app/agents/value_investor_agent.py:101-125 | the no-candles notice appears iff there are no candles |
| `ValueInvestor.RecentCandlesListed` | app/agents/value_investor_agent.py:101-116 | with candles the header counts all of them and each of the last 20 is listed |
| `ValueInvestor.ListedCandlesAreRecent` | app/agents/value_investor_agent.py:102-116 | every listed candle is one of the last 20, and the header counts all candles |
| `ValueInvestor.TrendOnlyWithTwoCandles` | app/agents/value_investor_agent.py:118-123 | with two or more candles the trend from the first to the last close is shown, and every trend line compares those closes with their guarded percentage change |
| `ValueInvestor.FundamentalsShownWhenNonZero` | app/agents/value_investor_agent.py:127-146 | the fundamentals header appears iff some field is non-zero, the notice iff none is; each non-zero field is shown with its value, and every field line shows a non-zero field |
| `CoinIds.IdsAreNotSymbols` | app/api/routes/service.py:13-23 | no id in the table is itself a symbol of the table |
| `CoinIds.IdsAreLowerCase` | app/api/routes/service.py:13-23 | every id in the table is lower-case |
| `CoinIds.SymbolsAreLowerCase` | app/api/routes/service.py:13-23 | every symbol in the table is lower-case |
| `CoinIds.ResolveCoinId` | app/api/routes/service.py:26-37 | the result is lower-case; it is the lower-cased input iff that is not a known symbol, and a known symbol gives its own id from the table |
| `CoinIds.CaseInsensitive` | app/api/routes/service.py:37 | inputs equal up to case resolve to the same id |
| `CoinIds.Idempotent` | app/api/routes/service.py:26-37 | resolving a resolved id changes nothing |
| `CoinIds.KnownSymbolsDistinct` | app/api/routes/service.py:13-23 | different symbols map to different ids |
| `CoinIds.Examples` | app/api/routes/service.py:13-37 | `BTC` gives bitcoin, `Eth` gives ethereum, `doge` gives dogecoin, and `Bitcoin` (not a symbol) gives bitcoin |
| `CoinIds.TableSymbolsResolve` | app/api/routes/service.py:13-37 | every symbol of the table resolves to its own id |
| `CoinIds.TestedSymbols` | tests/test_api_routes.py:189-205 | btc, eth, sol and xrp resolve to bitcoin, ethereum, solana and ripple |

## Left out

- The chat-completion call (`ask_sync` and the ZhipuAI client) is a parameter of `Analyze`. The fixed system prompts are represented by the `Persona` value passed with the request.
- `analyze_async` only calls `analyze`, so it is not modelled separately.
- The request's formatting is not modelled: the Chinese labels, `:.2f`, `:.0f`, `:,.0f`, `:+.2f` and `str(float)`. A line carries the values it shows. The technical analyst's `split(". ", 1)` rewrite of a timestamped candle is captured by the line's timestamp field.
- Floats are modelled as exact reals, so rounding, NaN and infinities are not modelled.
- `json.loads`, reading a numeric string as a float, and the text of a caught exception are parameters (`Builtins`). The model does not capture which strings decode to which values. The single `parseFloat` parameter stands for both Python's `float()` on a string and pydantic's string-to-float coercion. These differ on some inputs (for example `float("1_000")` succeeds while pydantic v2 rejects `"1_000"`), and the model does not distinguish them.
- `Text.Upper`, `Text.Lower`: ASCII letters only. Python's full Unicode case mapping is not modelled (for example `"ſell".upper()` is `"SELL"` in Python, while the model leaves `ſ` alone and so returns the fallback for that action). `DecisionParser.ActionAndConfidence`'s iff therefore holds of the model, not of every Unicode reply.
- `float()` of a JSON integer too large for a float raises `OverflowError`, which the parser does not catch. Numbers are exact reals here, so this case is not modelled.
- `Models.AsFloat`: pydantic is assumed to run in lax mode, where a float field accepts a number, a boolean (as 1.0 or 0.0) or a string that reads as a number, and nothing else. Strict mode and custom validators are not modelled.
- The CoinGecko HTTP client (`CoinGeckoService`), its async requests, timeouts and HTTP errors are outside this model. Only `SYMBOL_TO_ID` and `resolve_coin_id` are modelled.
- `TechnicalAnalyst.TrendIsRelativeChange`, `ValueInvestor.TrendOnlyWithTwoCandles`: the shown percentage is stated as `PercentChange` of the two closes, not as a product equation. `Prompt.PercentChangeMeaning` gives its meaning: the change relative to a positive base, and 0 otherwise.
