/** `_parse_response`, which both agents define identically: cut the JSON out
    of the completion's reply, decode it, fill in defaults, and build a
    validated decision; a decode error, a float conversion error or a rejected
    decision gives a fixed low-confidence HOLD instead. */
module DecisionParser {
  import opened Wrappers
  import opened Text
  import Json
  import opened Models

  /** An exception the parser catches (`JSONDecodeError`, `ValueError`, and
      pydantic's `ValidationError`, which is a `ValueError`). */
  datatype Caught = DecodeError | FloatError | Invalid(error: ValidationError)

  /** An exception that escapes the parser or the agent. */
  datatype Uncaught = AttributeError | TypeError | GatewayFailure

  /** What a call returns: a decision, or the exception it raises. */
  datatype Outcome = Decided(decision: TradingDecision) | Raised(error: Uncaught)

  /** Library behaviour the model takes as given: `json.loads` (None for a
      decode error), reading a numeric string as a float, and the text of a
      caught exception. */
  datatype Builtins = Builtins(
    loads: string -> Option<Json.Value>,
    parseFloat: FloatText,
    describe: Caught -> string)

  const Fence: string := "```"
  const JsonFence: string := "```json"
  const NoReason: string := "无理由"
  const FailureLabel: string := "解析响应失败: "
  const RawLabel: string := "。原始响应: "
  /** How much of the raw reply the fallback quotes. */
  const QuotedLength: nat := 200

  /** A JSON fence is in particular a generic fence. */
  lemma JsonFenceIsFence(s: string)
    requires Contains(s, JsonFence)
    ensures Contains(s, Fence)
  {
    var i := Find(s, JsonFence).value;
    assert s[i..i + 3] == s[i..i + 7][..3];
    assert OccursAt(s, Fence, i);
  }

  /** Stripping keeps a piece of the text, so it adds no occurrence. */
  lemma StripAddsNoOccurrence(s: string, pat: string)
    requires forall k: nat :: !OccursAt(s, pat, k)
    ensures forall k: nat :: !OccursAt(Strip(s), pat, k)
  {
    var t := StripStart(s);
    var r := StripEnd(t);
    var i := |s| - |t|;
    assert r == s[i..i + |r|] by {
      assert t == s[i..] && r == t[..|r|];
    }
    forall k: nat | OccursAt(r, pat, k) ensures false {
      PieceOccurrence(s, i, r, pat, k);
    }
  }

  /** An occurrence inside a piece of `s` is an occurrence in `s`. */
  lemma PieceOccurrence(s: string, i: nat, r: string, pat: string, k: nat)
    requires i + |r| <= |s| && r == s[i..i + |r|] && OccursAt(r, pat, k)
    ensures OccursAt(s, pat, i + k)
  {
    forall j | 0 <= j < |pat| ensures s[i + k + j] == pat[j] {
      assert r[k + j] == s[i + k + j];
      assert r[k..k + |pat|][j] == pat[j];
    }
    assert s[i + k..i + k + |pat|] == pat;
  }

  /** Where the block opened by the first ```json ends: at the first ``` after
      it that closes before the next ```json begins, else where that next
      ```json begins (or at the end of the reply). */
  function JsonBlockEnd(response: string): (e: nat)
    requires Contains(response, JsonFence)
    ensures var i := Find(response, JsonFence).value + |JsonFence|; i <= e <= |response|
  {
    var i := Find(response, JsonFence).value + |JsonFence|;
    var next := NextOr(response, JsonFence, i);
    var j := FindFrom(response, Fence, i);
    if j.Some? && j.value + |Fence| <= next then j.value else next
  }

  /** `response.split("```json")[1].split("```")[0]` */
  lemma JsonBlockIs(response: string)
    requires Contains(response, JsonFence)
    ensures var i := Find(response, JsonFence).value + |JsonFence|;
            SplitFirst(SplitSecond(response, JsonFence), Fence) == response[i..JsonBlockEnd(response)]
  {
    var i := Find(response, JsonFence).value + |JsonFence|;
    var next := NextOr(response, JsonFence, i);
    var segment := SplitSecond(response, JsonFence);
    assert segment == response[i..next];
    FindInSlice(response, Fence, i, next);
    var n := NextOr(segment, Fence, 0);
    assert segment[..n] == response[i..i + n];
  }

  /** `response.split("```")[1].split("```")[0]`: the text between the first
      two fences, or after the only one. */
  lemma FenceBlockIs(response: string)
    requires Contains(response, Fence)
    ensures var i := Find(response, Fence).value + |Fence|;
            SplitFirst(SplitSecond(response, Fence), Fence) == response[i..NextOr(response, Fence, i)]
  {
    var i := Find(response, Fence).value + |Fence|;
    var next := NextOr(response, Fence, i);
    var segment := SplitSecond(response, Fence);
    assert segment == response[i..next];
    FindInSlice(response, Fence, i, next);
    assert segment[..NextOr(segment, Fence, 0)] == segment;
  }

  /** The text handed to the JSON decoder, stripped: the block opened by the
      first ```json when there is one (even after a generic block), else the
      first generic ``` block, else the whole reply. A fenced block never
      contains a fence. */
  function ExtractJson(response: string): (r: string)
    ensures Contains(response, JsonFence) ==>
              r == Strip(response[Find(response, JsonFence).value + |JsonFence|..JsonBlockEnd(response)])
    ensures !Contains(response, JsonFence) && Contains(response, Fence) ==>
              var i := Find(response, Fence).value + |Fence|; r == Strip(response[i..NextOr(response, Fence, i)])
    ensures Contains(response, Fence) ==> forall k: nat :: !OccursAt(r, Fence, k)
    ensures !Contains(response, Fence) ==> r == Strip(response)
  {
    if Contains(response, JsonFence) then
      JsonFenceIsFence(response);
      JsonBlockIs(response);
      var block := SplitFirst(SplitSecond(response, JsonFence), Fence);
      StripAddsNoOccurrence(block, Fence);
      Strip(block)
    else if Contains(response, Fence) then
      FenceBlockIs(response);
      var block := SplitFirst(SplitSecond(response, Fence), Fence);
      StripAddsNoOccurrence(block, Fence);
      Strip(block)
    else
      Strip(response)
  }

  /** Python's `float(v)` on a decoded JSON value. */
  datatype FloatConversion = Converted(x: real) | ValueErr | TypeErr

  /** `float(v)` converts exactly what pydantic's lax float coercion accepts,
      to the same value; it raises `ValueError` for a string it cannot read and
      `TypeError` for null, arrays and objects. */
  function PyFloat(v: Json.Value, parse: FloatText): (r: FloatConversion)
    ensures r.Converted? <==> AsFloat(v, parse).Some?
    ensures r.Converted? ==> AsFloat(v, parse) == Some(r.x)
    ensures r.ValueErr? <==> v.Str? && parse(v.s).None?
    ensures r.TypeErr? <==> v.Null? || v.Array? || v.Object?
  {
    match v
    case Number(n) => Converted(n)
    case Bool(b) => Converted(if b then 1.0 else 0.0)
    case Str(s) => (match parse(s) case Some(x) => Converted(x) case None => ValueErr)
    case _ => TypeErr
  }

  /** The fallback record: `TradingDecision(action="HOLD", confidence=0.3,
      reasoning=..., price=current_price)`, whose reasoning names the failure and
      quotes the start of the raw reply. It always passes validation. */
  function Fallback(e: Caught, response: string, currentPrice: real, b: Builtins): (d: TradingDecision)
    ensures d.action == Hold && d.confidence == 0.3 && d.price == currentPrice
    ensures d.targetPrice.None? && d.stopLoss.None?
    ensures ValidDecision(d)
    ensures |Prefix(response, QuotedLength)| <= |d.reasoning|
    ensures d.reasoning[|d.reasoning| - |Prefix(response, QuotedLength)|..] == Prefix(response, QuotedLength)
  {
    var reasoning := FailureLabel + b.describe(e) + RawLabel + Prefix(response, QuotedLength);
    var fields := map[
      "action" := Json.Str("HOLD"),
      "confidence" := Json.Number(0.3),
      "reasoning" := Json.Str(reasoning),
      "price" := Json.Number(currentPrice)];
    var r := ValidateDecision(fields, b.parseFloat);
    assert r.Success?;
    assert ActionName(r.value.action) == "HOLD";
    r.value
  }

  /** The shape of the fallback: HOLD at 0.3, the caller's price, no target or
      stop, and reasoning that ends with the first 200 characters of the reply. */
  predicate IsFallback(d: TradingDecision, response: string, currentPrice: real) {
    && d.action == Hold && d.confidence == 0.3 && d.price == currentPrice
    && d.targetPrice.None? && d.stopLoss.None?
    && |Prefix(response, QuotedLength)| <= |d.reasoning|
    && d.reasoning[|d.reasoning| - |Prefix(response, QuotedLength)|..] == Prefix(response, QuotedLength)
  }

  /** A decision that takes its values from a decoded object: the upper-cased
      action, the converted confidence, the reasoning, the target and the stop
      (each with its default when missing). */
  predicate Echoes(fields: map<string, Json.Value>, d: TradingDecision, parse: FloatText) {
    var action := Json.Get(fields, "action", Json.Str("HOLD"));
    && action.Str? && ActionName(d.action) == Upper(action.s)
    && PyFloat(Json.Get(fields, "confidence", Json.Number(0.5)), parse) == Converted(d.confidence)
    && Json.Get(fields, "reasoning", Json.Str(NoReason)) == Json.Str(d.reasoning)
    && d.targetPrice == Given(fields, "target_price", parse)
    && d.stopLoss == Given(fields, "stop_loss", parse)
  }

  /** The decoded values on which the parser does not raise: an object whose
      `action`, if present, is a string and whose `confidence`, if present, is a
      number, a boolean or a string. */
  predicate Parsable(data: Json.Value) {
    && data.Object?
    && ("action" in data.fields ==> data.fields["action"].Str?)
    && ("confidence" in data.fields ==>
          data.fields["confidence"].Number? || data.fields["confidence"].Bool? || data.fields["confidence"].Str?)
  }

  /** The arguments `_parse_response` passes to `TradingDecision(...)` once the
      action is a string and the confidence converted. */
  function DecisionArgs(fields: map<string, Json.Value>, action: string, confidence: real,
                        currentPrice: real): map<string, Json.Value> {
    map[
      "action" := Json.Str(Upper(action)),
      "confidence" := Json.Number(confidence),
      "reasoning" := Json.Get(fields, "reasoning", Json.Str(NoReason)),
      "price" := Json.Number(currentPrice),
      "target_price" := Json.Get(fields, "target_price", Json.Null),
      "stop_loss" := Json.Get(fields, "stop_loss", Json.Null)]
  }

  /** The part after `json.loads`: defaults, `.upper()`, `float(...)` and the
      validated record. */
  function Decide(data: Json.Value, response: string, currentPrice: real, b: Builtins): (o: Outcome)
    ensures o.Raised? <==> !Parsable(data)
    ensures o.Raised? ==> o.error != GatewayFailure
    ensures o.Decided? ==> o.decision.price == currentPrice && ValidDecision(o.decision)
  {
    if !data.Object? then Raised(AttributeError)
    else
      var fields := data.fields;
      var action := Json.Get(fields, "action", Json.Str("HOLD"));
      if !action.Str? then Raised(AttributeError)
      else match PyFloat(Json.Get(fields, "confidence", Json.Number(0.5)), b.parseFloat)
        case TypeErr => Raised(TypeError)
        case ValueErr => Decided(Fallback(FloatError, response, currentPrice, b))
        case Converted(c) =>
          match ValidateDecision(DecisionArgs(fields, action.s, c, currentPrice), b.parseFloat)
          case Success(d) => Decided(d)
          case Failure(e) => Decided(Fallback(Invalid(e), response, currentPrice, b))
  }

  /** `_parse_response(response, current_price)`. The returned price is always
      the caller's, every returned decision is valid, and an exception escapes
      exactly when the decoded reply is outside `Parsable`. */
  function ParseResponse(response: string, currentPrice: real, b: Builtins): (o: Outcome)
    ensures o.Decided? ==> o.decision.price == currentPrice && ValidDecision(o.decision)
    ensures o.Raised? <==> b.loads(ExtractJson(response)).Some? && !Parsable(b.loads(ExtractJson(response)).value)
    ensures o.Raised? ==> o.error != GatewayFailure
  {
    match b.loads(ExtractJson(response))
    case None => Decided(Fallback(DecodeError, response, currentPrice, b))
    case Some(data) => Decide(data, response, currentPrice, b)
  }

  /** A reply the decoder rejects gives the fallback: HOLD at confidence 0.3,
      the caller's price, no target or stop, and the start of the reply quoted. */
  lemma UndecodableGivesFallback(response: string, currentPrice: real, b: Builtins)
    requires b.loads(ExtractJson(response)).None?
    ensures var o := ParseResponse(response, currentPrice, b);
            && o.Decided?
            && o.decision.action == Hold && o.decision.confidence == 0.3
            && o.decision.price == currentPrice
            && o.decision.targetPrice.None? && o.decision.stopLoss.None?
            && o.decision.reasoning[|o.decision.reasoning| - |Prefix(response, QuotedLength)|..]
               == Prefix(response, QuotedLength)
  {
    var d := Fallback(DecodeError, response, currentPrice, b);
    assert ParseResponse(response, currentPrice, b) == Decided(d);
  }

  /** Every decision `_parse_response` returns is either the fallback or the
      record built from the decoded object's own values. */
  lemma DecisionsComeFromReply(response: string, currentPrice: real, b: Builtins)
    ensures var o := ParseResponse(response, currentPrice, b);
            o.Decided? ==>
              || IsFallback(o.decision, response, currentPrice)
              || (&& b.loads(ExtractJson(response)).Some? && b.loads(ExtractJson(response)).value.Object?
                  && Echoes(b.loads(ExtractJson(response)).value.fields, o.decision, b.parseFloat))
  {
    var loaded := b.loads(ExtractJson(response));
    if loaded.None? {
      assert ParseResponse(response, currentPrice, b) == Decided(Fallback(DecodeError, response, currentPrice, b));
    } else {
      assert ParseResponse(response, currentPrice, b) == Decide(loaded.value, response, currentPrice, b);
      DecidedFromObject(loaded.value, response, currentPrice, b);
    }
  }

  /** `DecisionsComeFromReply` for the part after `json.loads`. */
  lemma DecidedFromObject(data: Json.Value, response: string, currentPrice: real, b: Builtins)
    ensures var o := Decide(data, response, currentPrice, b);
            o.Decided? ==>
              IsFallback(o.decision, response, currentPrice) || (data.Object? && Echoes(data.fields, o.decision, b.parseFloat))
  {
    var o := Decide(data, response, currentPrice, b);
    if o.Decided? {
      var action := Json.Get(data.fields, "action", Json.Str("HOLD")).s;
      var conversion := PyFloat(Json.Get(data.fields, "confidence", Json.Number(0.5)), b.parseFloat);
      if conversion.Converted? {
        var r := ValidateDecision(DecisionArgs(data.fields, action, conversion.x, currentPrice), b.parseFloat);
        if r.Success? {
          assert o == Decided(r.value);
          ValidatedEchoes(data.fields, action, conversion.x, currentPrice, b.parseFloat, r.value);
        } else {
          assert o == Decided(Fallback(Invalid(r.error), response, currentPrice, b));
        }
      } else {
        assert o == Decided(Fallback(FloatError, response, currentPrice, b));
      }
    }
  }

  /** What `TradingDecision(...)` is given: the upper-cased action, the
      converted confidence, the reasoning or its default, the caller's price,
      and the target and stop, missing exactly when the object lacks them. */
  lemma ArgsRead(fields: map<string, Json.Value>, action: string, c: real, currentPrice: real)
    ensures var args := DecisionArgs(fields, action, c, currentPrice);
            && "action" in args && args["action"] == Json.Str(Upper(action))
            && "confidence" in args && args["confidence"] == Json.Number(c)
            && "reasoning" in args && args["reasoning"] == Json.Get(fields, "reasoning", Json.Str(NoReason))
            && "price" in args && args["price"] == Json.Number(currentPrice)
            && (Absent(args, "target_price") <==> Absent(fields, "target_price"))
            && (!Absent(fields, "target_price") ==> args["target_price"] == fields["target_price"])
            && (Absent(args, "stop_loss") <==> Absent(fields, "stop_loss"))
            && (!Absent(fields, "stop_loss") ==> args["stop_loss"] == fields["stop_loss"])
  {
  }

  /** A record validated from `DecisionArgs` carries the object's values. */
  lemma ValidatedEchoes(fields: map<string, Json.Value>, action: string, c: real, currentPrice: real,
                        parse: FloatText, d: TradingDecision)
    requires Json.Get(fields, "action", Json.Str("HOLD")) == Json.Str(action)
    requires PyFloat(Json.Get(fields, "confidence", Json.Number(0.5)), parse) == Converted(c)
    requires ValidateDecision(DecisionArgs(fields, action, c, currentPrice), parse) == Success(d)
    ensures Echoes(fields, d, parse)
  {
    ArgsRead(fields, action, c, currentPrice);
  }

  /** A confidence string that `float()` cannot read raises `ValueError`,
      which is caught: the fallback is returned. */
  lemma UnreadableConfidenceGivesFallback(response: string, currentPrice: real, b: Builtins,
                                          fields: map<string, Json.Value>, text: string)
    requires b.loads(ExtractJson(response)) == Some(Json.Object(fields))
    requires Json.Get(fields, "action", Json.Str("HOLD")).Str?
    requires Json.Get(fields, "confidence", Json.Number(0.5)) == Json.Str(text)
    requires b.parseFloat(text).None?
    ensures ParseResponse(response, currentPrice, b) == Decided(Fallback(FloatError, response, currentPrice, b))
  {
    assert ParseResponse(response, currentPrice, b) == Decide(Json.Object(fields), response, currentPrice, b);
    assert PyFloat(Json.Str(text), b.parseFloat) == ValueErr;
  }

  /** A reasoning that is not a string, or a target or stop that is neither
      missing, null nor convertible, makes `TradingDecision(...)` fail, and the
      fallback is returned. */
  lemma IllTypedFieldGivesFallback(response: string, currentPrice: real, b: Builtins,
                                   fields: map<string, Json.Value>, action: string, confidence: real)
    requires b.loads(ExtractJson(response)) == Some(Json.Object(fields))
    requires Json.Get(fields, "action", Json.Str("HOLD")) == Json.Str(action)
    requires PyFloat(Json.Get(fields, "confidence", Json.Number(0.5)), b.parseFloat) == Converted(confidence)
    requires || ("reasoning" in fields && !fields["reasoning"].Str?)
             || (!Absent(fields, "target_price") && AsFloat(fields["target_price"], b.parseFloat).None?)
             || (!Absent(fields, "stop_loss") && AsFloat(fields["stop_loss"], b.parseFloat).None?)
    ensures var o := ParseResponse(response, currentPrice, b);
            o.Decided? && IsFallback(o.decision, response, currentPrice)
  {
    var r := ValidateDecision(DecisionArgs(fields, action, confidence, currentPrice), b.parseFloat);
    IllTypedArgsRejected(fields, action, confidence, currentPrice, b.parseFloat);
    DecideObject(fields, action, confidence, currentPrice, response, b);
    var d := Fallback(Invalid(r.error), response, currentPrice, b);
    assert Decide(Json.Object(fields), response, currentPrice, b) == Decided(d);
    FallbackShape(Invalid(r.error), response, currentPrice, b);
    assert ParseResponse(response, currentPrice, b) == Decided(d);
  }

  lemma FallbackShape(e: Caught, response: string, currentPrice: real, b: Builtins)
    ensures IsFallback(Fallback(e, response, currentPrice, b), response, currentPrice)
  {
  }

  lemma IllTypedArgsRejected(fields: map<string, Json.Value>, action: string, confidence: real,
                             currentPrice: real, parse: FloatText)
    requires || ("reasoning" in fields && !fields["reasoning"].Str?)
             || (!Absent(fields, "target_price") && AsFloat(fields["target_price"], parse).None?)
             || (!Absent(fields, "stop_loss") && AsFloat(fields["stop_loss"], parse).None?)
    ensures ValidateDecision(DecisionArgs(fields, action, confidence, currentPrice), parse).Failure?
  {
    var args := DecisionArgs(fields, action, confidence, currentPrice);
    ArgsRead(fields, action, confidence, currentPrice);
    if "reasoning" in fields && !fields["reasoning"].Str? {
      assert !args["reasoning"].Str?;
    } else if !Absent(fields, "target_price") && AsFloat(fields["target_price"], parse).None? {
      assert !Absent(args, "target_price") && AsFloat(args["target_price"], parse).None?;
    } else {
      assert !Absent(args, "stop_loss") && AsFloat(args["stop_loss"], parse).None?;
    }
  }

  /** An empty object takes every default: HOLD, confidence 0.5, the
      "no reason" text, no target and no stop. */
  lemma EmptyObjectTakesDefaults(response: string, currentPrice: real, b: Builtins)
    requires b.loads(ExtractJson(response)) == Some(Json.Object(map[]))
    ensures ParseResponse(response, currentPrice, b)
            == Decided(TradingDecision(Hold, 0.5, NoReason, currentPrice, None, None))
  {
    assert Upper("HOLD") == "HOLD";
    ActionAndConfidence(response, currentPrice, b, map[], "HOLD", 0.5);
  }

  /** For a decoded object whose reasoning is a string and whose target and
      stop are absent or convert to floats (numbers, booleans or numeric
      strings, as the lax coercion accepts them): the action is
      upper-cased, and the decision is taken as given exactly when the
      upper-cased action is BUY, SELL or HOLD and the confidence lies in
      [0, 1]; otherwise the record is rejected and the fallback (HOLD at 0.3)
      is returned, so nothing is clamped. */
  lemma ActionAndConfidence(response: string, currentPrice: real, b: Builtins,
                            fields: map<string, Json.Value>, action: string, confidence: real)
    requires b.loads(ExtractJson(response)) == Some(Json.Object(fields))
    requires Json.Get(fields, "action", Json.Str("HOLD")) == Json.Str(action)
    requires PyFloat(Json.Get(fields, "confidence", Json.Number(0.5)), b.parseFloat) == Converted(confidence)
    requires Json.Get(fields, "reasoning", Json.Str(NoReason)).Str?
    requires FloatOk(fields, "target_price", b.parseFloat) && FloatOk(fields, "stop_loss", b.parseFloat)
    ensures var o := ParseResponse(response, currentPrice, b);
            && o.Decided?
            && (ActionFromName(Upper(action)).Some? && 0.0 <= confidence <= 1.0 ==>
                  o.decision == TradingDecision(
                    ActionFromName(Upper(action)).value, confidence,
                    Json.Get(fields, "reasoning", Json.Str(NoReason)).s, currentPrice,
                    Given(fields, "target_price", b.parseFloat),
                    Given(fields, "stop_loss", b.parseFloat)))
            && (ActionFromName(Upper(action)).None? || confidence < 0.0 || 1.0 < confidence ==>
                  o.decision.action == Hold && o.decision.confidence == 0.3
                  && o.decision.targetPrice.None? && o.decision.stopLoss.None?)
  {
    assert ParseResponse(response, currentPrice, b) == Decide(Json.Object(fields), response, currentPrice, b);
    DecideObject(fields, action, confidence, currentPrice, response, b);
    if ActionFromName(Upper(action)).Some? && 0.0 <= confidence <= 1.0 {
      AcceptedArgs(fields, action, confidence, currentPrice, b);
    } else {
      RejectedArgs(fields, action, confidence, currentPrice, b);
    }
  }

  /** A well-typed record with a recognised action and an in-range confidence
      validates to exactly the given values. */
  lemma AcceptedArgs(fields: map<string, Json.Value>, action: string, confidence: real,
                     currentPrice: real, b: Builtins)
    requires Json.Get(fields, "reasoning", Json.Str(NoReason)).Str?
    requires FloatOk(fields, "target_price", b.parseFloat) && FloatOk(fields, "stop_loss", b.parseFloat)
    requires ActionFromName(Upper(action)).Some? && 0.0 <= confidence <= 1.0
    ensures ValidateDecision(DecisionArgs(fields, action, confidence, currentPrice), b.parseFloat)
            == Success(TradingDecision(
                 ActionFromName(Upper(action)).value, confidence,
                 Json.Get(fields, "reasoning", Json.Str(NoReason)).s, currentPrice,
                 Given(fields, "target_price", b.parseFloat),
                 Given(fields, "stop_loss", b.parseFloat)))
  {
    var r := ValidateDecision(DecisionArgs(fields, action, confidence, currentPrice), b.parseFloat);
    assert r.Success?;
    assert ActionName(r.value.action) == Upper(action);
  }

  /** An unrecognised action or an out-of-range confidence is rejected. */
  lemma RejectedArgs(fields: map<string, Json.Value>, action: string, confidence: real,
                     currentPrice: real, b: Builtins)
    requires ActionFromName(Upper(action)).None? || confidence < 0.0 || 1.0 < confidence
    ensures ValidateDecision(DecisionArgs(fields, action, confidence, currentPrice), b.parseFloat).Failure?
  {
  }

  /** `Decide` on an object whose action is a string and whose confidence
      converts: the outcome is that of validating `DecisionArgs`. */
  lemma DecideObject(fields: map<string, Json.Value>, action: string, confidence: real,
                     currentPrice: real, response: string, b: Builtins)
    requires Json.Get(fields, "action", Json.Str("HOLD")) == Json.Str(action)
    requires PyFloat(Json.Get(fields, "confidence", Json.Number(0.5)), b.parseFloat) == Converted(confidence)
    ensures Decide(Json.Object(fields), response, currentPrice, b)
            == match ValidateDecision(DecisionArgs(fields, action, confidence, currentPrice), b.parseFloat)
               case Success(d) => Decided(d)
               case Failure(e) => Decided(Fallback(Invalid(e), response, currentPrice, b))
  {
  }

  /** No backquote occurs in `s`, so no fence can start in it. */
  predicate Unquoted(s: string) {
    forall k :: 0 <= k < |s| ==> s[k] != '`'
  }

  /** A pattern does not occur at `k` when one of its characters differs
      from the text at the matching position. */
  lemma Mismatch(s: string, pat: string, k: nat, j: nat)
    requires j < |pat| && (k + j < |s| ==> s[k + j] != pat[j])
    ensures !OccursAt(s, pat, k)
  {
    if k + |pat| <= |s| {
      assert s[k..k + |pat|][j] == s[k + j];
    }
  }

  /** The ```json block wins: in `pre` ```json `body` ``` `post`, with no
      backquote in `pre`, `body` or `post`, the decoder is given the stripped
      `body`, whatever `post` holds. */
  lemma {:induction false} JsonBlockWins(pre: string, body: string, post: string)
    requires Unquoted(pre) && Unquoted(body) && Unquoted(post)
    ensures ExtractJson(pre + JsonFence + body + Fence + post) == Strip(body)
  {
    var s := pre + JsonFence + body + Fence + post;
    var i := |pre|;
    assert s[i..i + 7] == JsonFence;
    forall k: nat | k < i ensures !OccursAt(s, JsonFence, k) {
      Mismatch(s, JsonFence, k, 0);
    }
    FindIs(s, JsonFence, i);
    var rest := body + Fence + post;
    assert s[i + 7..] == rest;
    var n := |body|;
    assert rest[n..n + 3] == Fence;
    forall k: nat | k < n ensures !OccursAt(rest, JsonFence, k) && !OccursAt(rest, Fence, k) {
      Mismatch(rest, JsonFence, k, 0);
      Mismatch(rest, Fence, k, 0);
    }
    forall k: nat | n < k < n + 3 ensures !OccursAt(rest, JsonFence, k) {
      Mismatch(rest, JsonFence, k, 2);
    }
    var segment := SplitFirst(rest, JsonFence);
    assert segment == body || segment == rest by {
      match Find(rest, JsonFence)
      case None =>
      case Some(j) =>
        assert j >= n;
        if n < j {
          assert j >= n + 3;
          Mismatch(rest, JsonFence, j, 0);
          assert false;
        }
    }
    if segment == rest {
      assert segment[n..n + 3] == Fence;
      FindIs(segment, Fence, n);
      assert SplitFirst(segment, Fence) == body;
    } else {
      forall k: nat ensures !OccursAt(body, Fence, k) {
        Mismatch(body, Fence, k, 0);
      }
      assert SplitFirst(segment, Fence) == body;
    }
  }

  /** A reply that is just a ```json block hands the decoder the stripped block. */
  lemma FencedBlock(body: string)
    requires Unquoted(body)
    ensures ExtractJson(JsonFence + body + Fence) == Strip(body)
  {
    assert JsonFence + body + Fence == [] + JsonFence + body + Fence + [];
    JsonBlockWins([], body, []);
  }

  /** {"action": "buy", "confidence": 0.8, "reasoning": "x", "target_price": 110} */
  const BuyReply: map<string, Json.Value> := map[
    "action" := Json.Str("buy"),
    "confidence" := Json.Number(0.8),
    "reasoning" := Json.Str("x"),
    "target_price" := Json.Number(110.0)]

  lemma UpperBuy()
    ensures Upper("buy") == "BUY"
  {
    var u := Upper("buy");
    assert u[0] == 'B' && u[1] == 'U' && u[2] == 'Y';
  }

  /** What `.get` reads from `BuyReply`. */
  lemma BuyReplyFields()
    ensures Json.Get(BuyReply, "action", Json.Str("HOLD")) == Json.Str("buy")
    ensures Json.Get(BuyReply, "confidence", Json.Number(0.5)) == Json.Number(0.8)
    ensures Json.Get(BuyReply, "reasoning", Json.Str(NoReason)) == Json.Str("x")
    ensures Json.Get(BuyReply, "target_price", Json.Null) == Json.Number(110.0)
    ensures Json.Get(BuyReply, "stop_loss", Json.Null) == Json.Null
  {
    assert "stop_loss" !in BuyReply;
  }

  /** The worked example: a reply decoding to `BuyReply` with a current price
      of 100 gives BUY at 0.8, reasoning "x", price 100, target 110 and no stop. */
  lemma BuyExample(response: string, b: Builtins)
    requires b.loads(ExtractJson(response)) == Some(Json.Object(BuyReply))
    ensures ParseResponse(response, 100.0, b)
            == Decided(TradingDecision(Buy, 0.8, "x", 100.0, Some(110.0), None))
  {
    UpperBuy();
    BuyReplyFields();
    ActionAndConfidence(response, 100.0, b, BuyReply, "buy", 0.8);
  }

  /** The same reply inside a ```json block. */
  lemma FencedBuyExample(body: string, b: Builtins)
    requires Unquoted(body)
    requires b.loads(Strip(body)) == Some(Json.Object(BuyReply))
    ensures ParseResponse(JsonFence + body + Fence, 100.0, b)
            == Decided(TradingDecision(Buy, 0.8, "x", 100.0, Some(110.0), None))
  {
    FencedBlock(body);
    BuyExample(JsonFence + body + Fence, b);
  }
}
