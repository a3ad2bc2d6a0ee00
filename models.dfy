/** The records exchanged by the agents (app/agents/models.py) and the checks
    pydantic applies when one is built from named fields. Fields are given as a
    map from field name to a JSON-like value; a missing key is an argument that
    was not passed. Pydantic's lax mode is modelled: a float field accepts a
    number, a boolean or a numeric string, a str field accepts only a string. */
module Models {
  import opened Wrappers
  import Json

  /** How a numeric string is read as a float (an external parser). */
  type FloatText = string -> Option<real>

  /** One candle: only `close` is required. */
  datatype KLine = KLine(
    close: real,
    timestamp: Option<string>,
    open: Option<real>,
    high: Option<real>,
    low: Option<real>,
    volume: Option<real>)

  /** The analysis request: only `currentPrice` is required. `klines` is `None`
      only when the caller passed an explicit null. */
  datatype TradingInput = TradingInput(
    currentPrice: real,
    symbol: Option<string>,
    klines: Option<seq<KLine>>,
    marketCap: Option<real>,
    peRatio: Option<real>,
    pbRatio: Option<real>,
    revenue: Option<real>,
    profit: Option<real>,
    industry: Option<string>,
    companyName: Option<string>)

  datatype Action = Buy | Sell | Hold

  datatype TradingDecision = TradingDecision(
    action: Action,
    confidence: real,
    reasoning: string,
    price: real,
    targetPrice: Option<real>,
    stopLoss: Option<real>)

  datatype ValidationError =
    | Missing(field: string)
    | WrongType(field: string)
    | NotAllowed(field: string)
    | OutOfRange(field: string)

  /** The literal that names an action. */
  function ActionName(a: Action): string {
    match a
    case Buy => "BUY"
    case Sell => "SELL"
    case Hold => "HOLD"
  }

  /** The `Literal["BUY", "SELL", "HOLD"]` check: exact spelling only. */
  function ActionFromName(s: string): (r: Option<Action>)
    ensures r.Some? <==> s == "BUY" || s == "SELL" || s == "HOLD"
    ensures r.Some? ==> ActionName(r.value) == s
  {
    if s == "BUY" then Some(Buy)
    else if s == "SELL" then Some(Sell)
    else if s == "HOLD" then Some(Hold)
    else None
  }

  /** The constraints every built decision satisfies (`ge=0.0, le=1.0`). */
  predicate ValidDecision(d: TradingDecision) {
    0.0 <= d.confidence <= 1.0
  }

  /** Lax coercion of a value passed to a float field. */
  function AsFloat(v: Json.Value, parse: FloatText): Option<real> {
    match v
    case Number(n) => Some(n)
    case Bool(b) => Some(if b then 1.0 else 0.0)
    case Str(s) => parse(s)
    case _ => None
  }

  /** An optional field that was not passed, or was passed as None. */
  predicate Absent(fields: map<string, Json.Value>, name: string) {
    name !in fields || fields[name] == Json.Null
  }

  /** The value an optional float field takes when it validates. */
  function Given(fields: map<string, Json.Value>, name: string, parse: FloatText): Option<real> {
    if Absent(fields, name) then None else AsFloat(fields[name], parse)
  }

  /** The value an optional string field takes when it validates. */
  function GivenStr(fields: map<string, Json.Value>, name: string): Option<string> {
    if Absent(fields, name) || !fields[name].Str? then None else Some(fields[name].s)
  }

  /** An optional float field validates when it is absent or converts. */
  predicate FloatOk(fields: map<string, Json.Value>, name: string, parse: FloatText) {
    Absent(fields, name) || AsFloat(fields[name], parse).Some?
  }

  /** An optional string field validates when it is absent or a string. */
  predicate StrOk(fields: map<string, Json.Value>, name: string) {
    Absent(fields, name) || fields[name].Str?
  }

  function RequiredFloat(fields: map<string, Json.Value>, name: string, parse: FloatText): Result<real, ValidationError> {
    if name !in fields then Failure(Missing(name))
    else match AsFloat(fields[name], parse)
      case None => Failure(WrongType(name))
      case Some(x) => Success(x)
  }

  function OptionalFloat(fields: map<string, Json.Value>, name: string, parse: FloatText): Result<Option<real>, ValidationError> {
    if Absent(fields, name) then Success(None)
    else match AsFloat(fields[name], parse)
      case None => Failure(WrongType(name))
      case Some(x) => Success(Some(x))
  }

  function RequiredStr(fields: map<string, Json.Value>, name: string): Result<string, ValidationError> {
    if name !in fields then Failure(Missing(name))
    else if fields[name].Str? then Success(fields[name].s)
    else Failure(WrongType(name))
  }

  function OptionalStr(fields: map<string, Json.Value>, name: string): Result<Option<string>, ValidationError> {
    if Absent(fields, name) then Success(None)
    else if fields[name].Str? then Success(Some(fields[name].s))
    else Failure(WrongType(name))
  }

  /** `KLineData(**fields)` */
  function ValidateKLine(fields: map<string, Json.Value>, parse: FloatText): (r: Result<KLine, ValidationError>)
    ensures "close" !in fields ==> r.Failure?
    ensures r.Success? <==>
              && "close" in fields && AsFloat(fields["close"], parse).Some? && StrOk(fields, "timestamp")
              && FloatOk(fields, "open", parse) && FloatOk(fields, "high", parse)
              && FloatOk(fields, "low", parse) && FloatOk(fields, "volume", parse)
    ensures r.Success? ==> Some(r.value.close) == AsFloat(fields["close"], parse)
    ensures r.Success? ==> (
              && r.value.open == Given(fields, "open", parse)
              && r.value.high == Given(fields, "high", parse)
              && r.value.low == Given(fields, "low", parse)
              && r.value.volume == Given(fields, "volume", parse)
              && r.value.timestamp == GivenStr(fields, "timestamp")
              && (Absent(fields, "timestamp") <==> r.value.timestamp.None?))
  {
    var close := RequiredFloat(fields, "close", parse);
    var timestamp := OptionalStr(fields, "timestamp");
    var open := OptionalFloat(fields, "open", parse);
    var high := OptionalFloat(fields, "high", parse);
    var low := OptionalFloat(fields, "low", parse);
    var volume := OptionalFloat(fields, "volume", parse);
    if close.Failure? then Failure(close.error)
    else if timestamp.Failure? then Failure(timestamp.error)
    else if open.Failure? then Failure(open.error)
    else if high.Failure? then Failure(high.error)
    else if low.Failure? then Failure(low.error)
    else if volume.Failure? then Failure(volume.error)
    else Success(KLine(close.value, timestamp.value, open.value, high.value, low.value, volume.value))
  }

  /** `List[KLineData]`: every element must be an object that validates. */
  function ValidateKLines(items: seq<Json.Value>, parse: FloatText): (r: Result<seq<KLine>, ValidationError>)
    ensures r.Success? <==> forall i :: 0 <= i < |items| ==> items[i].Object? && ValidateKLine(items[i].fields, parse).Success?
    ensures r.Success? ==> (
              && |r.value| == |items|
              && forall i :: 0 <= i < |items| ==> Success(r.value[i]) == ValidateKLine(items[i].fields, parse))
  {
    if items == [] then Success([])
    else if !items[0].Object? then Failure(WrongType("klines"))
    else match ValidateKLine(items[0].fields, parse)
      case Failure(e) => Failure(e)
      case Success(k) =>
        match ValidateKLines(items[1..], parse)
        case Failure(e) => Failure(e)
        case Success(ks) => Success([k] + ks)
  }

  /** `TradingInput(**fields)`: a missing `klines` becomes the empty list. */
  function ValidateTradingInput(fields: map<string, Json.Value>, parse: FloatText): (r: Result<TradingInput, ValidationError>)
    ensures "current_price" !in fields ==> r.Failure?
    ensures r.Success? <==>
              && "current_price" in fields && AsFloat(fields["current_price"], parse).Some?
              && StrOk(fields, "symbol") && StrOk(fields, "industry") && StrOk(fields, "company_name")
              && FloatOk(fields, "market_cap", parse) && FloatOk(fields, "pe_ratio", parse)
              && FloatOk(fields, "pb_ratio", parse) && FloatOk(fields, "revenue", parse)
              && FloatOk(fields, "profit", parse)
              && ("klines" !in fields || fields["klines"].Null?
                  || (fields["klines"].Array? && ValidateKLines(fields["klines"].items, parse).Success?))
    ensures r.Success? ==> Some(r.value.currentPrice) == AsFloat(fields["current_price"], parse)
    ensures r.Success? && "klines" !in fields ==> r.value.klines == Some([])
    ensures r.Success? && "klines" in fields ==> (
              && (fields["klines"].Null? ==> r.value.klines.None?)
              && (fields["klines"].Array? ==>
                    r.value.klines.Some? && ValidateKLines(fields["klines"].items, parse) == Success(r.value.klines.value)))
    ensures "klines" in fields ==> (
              || (!fields["klines"].Null? && !fields["klines"].Array?)
              || (fields["klines"].Array? && ValidateKLines(fields["klines"].items, parse).Failure?)) ==> r.Failure?
    ensures r.Success? ==> (
              && r.value.marketCap == Given(fields, "market_cap", parse)
              && r.value.peRatio == Given(fields, "pe_ratio", parse)
              && r.value.pbRatio == Given(fields, "pb_ratio", parse)
              && r.value.revenue == Given(fields, "revenue", parse)
              && r.value.profit == Given(fields, "profit", parse)
              && r.value.symbol == GivenStr(fields, "symbol")
              && r.value.industry == GivenStr(fields, "industry")
              && r.value.companyName == GivenStr(fields, "company_name")
              && (Absent(fields, "symbol") <==> r.value.symbol.None?)
              && (Absent(fields, "industry") <==> r.value.industry.None?)
              && (Absent(fields, "company_name") <==> r.value.companyName.None?))
  {
    var price := RequiredFloat(fields, "current_price", parse);
    var symbol := OptionalStr(fields, "symbol");
    var klines: Result<Option<seq<KLine>>, ValidationError> :=
      if "klines" !in fields then Success(Some([]))
      else match fields["klines"]
        case Null => Success(None)
        case Array(items) => (match ValidateKLines(items, parse)
                              case Success(ks) => Success(Some(ks))
                              case Failure(e) => Failure(e))
        case _ => Failure(WrongType("klines"));
    var marketCap := OptionalFloat(fields, "market_cap", parse);
    var peRatio := OptionalFloat(fields, "pe_ratio", parse);
    var pbRatio := OptionalFloat(fields, "pb_ratio", parse);
    var revenue := OptionalFloat(fields, "revenue", parse);
    var profit := OptionalFloat(fields, "profit", parse);
    var industry := OptionalStr(fields, "industry");
    var companyName := OptionalStr(fields, "company_name");
    if price.Failure? then Failure(price.error)
    else if symbol.Failure? then Failure(symbol.error)
    else if klines.Failure? then Failure(klines.error)
    else if marketCap.Failure? then Failure(marketCap.error)
    else if peRatio.Failure? then Failure(peRatio.error)
    else if pbRatio.Failure? then Failure(pbRatio.error)
    else if revenue.Failure? then Failure(revenue.error)
    else if profit.Failure? then Failure(profit.error)
    else if industry.Failure? then Failure(industry.error)
    else if companyName.Failure? then Failure(companyName.error)
    else Success(TradingInput(price.value, symbol.value, klines.value, marketCap.value, peRatio.value,
                              pbRatio.value, revenue.value, profit.value, industry.value, companyName.value))
  }

  /** `TradingDecision(**fields)`: the action must be one of the three literals
      and the confidence must lie in [0, 1]; anything else is rejected, never
      clamped or defaulted. */
  function ValidateDecision(fields: map<string, Json.Value>, parse: FloatText): (r: Result<TradingDecision, ValidationError>)
    ensures r.Success? ==> ValidDecision(r.value)
    ensures r.Success? <==>
      && "action" in fields && fields["action"].Str? && ActionFromName(fields["action"].s).Some?
      && "confidence" in fields && AsFloat(fields["confidence"], parse).Some?
      && 0.0 <= AsFloat(fields["confidence"], parse).value <= 1.0
      && "reasoning" in fields && fields["reasoning"].Str?
      && "price" in fields && AsFloat(fields["price"], parse).Some?
      && (Absent(fields, "target_price") || AsFloat(fields["target_price"], parse).Some?)
      && (Absent(fields, "stop_loss") || AsFloat(fields["stop_loss"], parse).Some?)
    ensures r.Success? ==> (
              && ActionName(r.value.action) == fields["action"].s
              && Some(r.value.confidence) == AsFloat(fields["confidence"], parse)
              && r.value.reasoning == fields["reasoning"].s
              && Some(r.value.price) == AsFloat(fields["price"], parse)
              && r.value.targetPrice == Given(fields, "target_price", parse)
              && r.value.stopLoss == Given(fields, "stop_loss", parse))
  {
    var action: Result<Action, ValidationError> :=
      if "action" !in fields then Failure(Missing("action"))
      else if !fields["action"].Str? then Failure(WrongType("action"))
      else match ActionFromName(fields["action"].s)
        case None => Failure(NotAllowed("action"))
        case Some(a) => Success(a);
    var confidence: Result<real, ValidationError> :=
      match RequiredFloat(fields, "confidence", parse)
      case Failure(e) => Failure(e)
      case Success(c) => if 0.0 <= c <= 1.0 then Success(c) else Failure(OutOfRange("confidence"));
    var reasoning := RequiredStr(fields, "reasoning");
    var price := RequiredFloat(fields, "price", parse);
    var target := OptionalFloat(fields, "target_price", parse);
    var stop := OptionalFloat(fields, "stop_loss", parse);
    if action.Failure? then Failure(action.error)
    else if confidence.Failure? then Failure(confidence.error)
    else if reasoning.Failure? then Failure(reasoning.error)
    else if price.Failure? then Failure(price.error)
    else if target.Failure? then Failure(target.error)
    else if stop.Failure? then Failure(stop.error)
    else Success(TradingDecision(action.value, confidence.value, reasoning.value, price.value, target.value, stop.value))
  }

  /** A candle can be built from its closing price alone; every other field
      then defaults to absent. */
  lemma OnlyCloseRequired(close: real, parse: FloatText)
    ensures ValidateKLine(map["close" := Json.Number(close)], parse)
            == Success(KLine(close, None, None, None, None, None))
  {
  }

  /** A request can be built from the current price alone: no candles (the
      empty list) and no fundamentals or identity fields. */
  lemma OnlyCurrentPriceRequired(price: real, parse: FloatText)
    ensures ValidateTradingInput(map["current_price" := Json.Number(price)], parse)
            == Success(TradingInput(price, None, Some([]), None, None, None, None, None, None, None))
  {
  }
}
