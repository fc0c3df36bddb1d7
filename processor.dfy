/** The momentum signal processor: a schema gate over an incoming market-data
    message, and the enrichment of a validated message with a momentum value and a
    BUY/SELL/HOLD signal. Both operations are pure functions of their input. */
module Processor {
  import opened Rounding

  /** A message value. `Num` stands for a Python `float`, or an `int` within the range
      of a double; `Str` for a string; `Other` for anything else (None, booleans,
      lists, nested mappings, ...). */
  datatype Val = Num(x: real) | Str(s: string) | Other

  /** A message is a mapping from string keys to values. */
  type Message = map<string, Val>

  /** The exceptions the two operations raise. */
  datatype Error =
    | SchemaValidation          // the `ValueError("Invalid message format")` of the gate
    | NumericConversion(key: string)  // `float(...)` refused the value under `key`
    | DegenerateInput           // the division by a zero lookback price

  datatype Result<T> = Ok(value: T) | Err(error: Error) {
    predicate IsFailure() { Err? }

    function PropagateFailure<U>(): Result<U>
      requires Err?
    {
      Err(error)
    }

    function Extract(): T
      requires Ok?
    {
      value
    }
  }

  /** The trading signal, with the string the output carries for it. */
  datatype Signal = Buy | Sell | Hold {
    function Name(): string {
      match this
      case Buy => "BUY"
      case Sell => "SELL"
      case Hold => "HOLD"
    }
  }

  const PriceKey := "price"
  const LookbackKey := "price_lookback"
  const SymbolKey := "symbol"
  const ValueKey := "momentum_value"
  const SignalKey := "momentum_signal"

  const DefaultPrice: real := 100.0
  const DefaultLookback: real := 95.0

  /** Momentum above this is BUY, below its negation SELL. */
  const Threshold: real := 0.05

  /** `validate_input_message`: the external schema check decides alone; a message it
      accepts comes back unchanged, one it rejects yields the schema error and no
      message at all. */
  function Validate(schema: Message -> bool, m: Message): (r: Result<Message>)
    ensures r.Ok? <==> schema(m)
    ensures r.Ok? ==> r.value == m
    ensures r.Err? ==> r.error == SchemaValidation
  {
    if schema(m) then Ok(m) else Err(SchemaValidation)
  }

  /** `float(message.get(key, default))`: the default when the key is absent, the
      number when the value is numeric, a conversion error otherwise. */
  function ReadNumber(m: Message, key: string, default: real): (r: Result<real>)
    ensures key !in m ==> r == Ok(default)
    ensures key in m ==> (r.Ok? <==> m[key].Num?)
    ensures key in m && r.Ok? ==> r.value == m[key].x
    ensures r.Err? ==> r.error == NumericConversion(key)
  {
    if key !in m then Ok(default)
    else match m[key]
      case Num(x) => Ok(x)
      case _ => Err(NumericConversion(key))
  }

  /** The relative change from the lookback price to the current price. */
  function Momentum(price: real, lookback: real): (mom: real)
    requires lookback != 0.0
    ensures mom * lookback == price - lookback
  {
    (price - lookback) / lookback
  }

  /** The three-way decision; BUY is tested first, and both comparisons are strict. */
  function Classify(mom: real): (s: Signal)
    ensures s == Buy <==> mom > Threshold
    ensures s == Sell <==> mom < -Threshold
    ensures s == Hold <==> -Threshold <= mom <= Threshold
  {
    if mom > Threshold then Buy
    else if mom < -Threshold then Sell
    else Hold
  }

  /** The two keys the computation writes over the input message. */
  function Enrichment(mom: real): Message {
    map[ValueKey := Num(Round4(mom)), SignalKey := Str(Classify(mom).Name())]
  }

  /** The price field is absent (so defaulted) or numeric. */
  predicate PriceReadable(m: Message) {
    PriceKey !in m || m[PriceKey].Num?
  }

  /** `compute_momentum_signal`. The price is read before the lookback price, so a
      bad price is the error reported when both are bad; a zero lookback price is
      reported only once both have been read. On success every input key survives
      with its value except the two computed keys, which are always present and
      overwrite the input's, and no other key is added. */
  function Compute(m: Message): (r: Result<Message>)
    ensures PriceKey in m && !m[PriceKey].Num? ==> r == Err(NumericConversion(PriceKey))
    ensures PriceReadable(m) && LookbackKey in m && !m[LookbackKey].Num? ==> r == Err(NumericConversion(LookbackKey))
    ensures r == Err(DegenerateInput) <==> PriceReadable(m) && LookbackKey in m && m[LookbackKey] == Num(0.0)
    ensures r.Ok? ==> r.value.Keys == m.Keys + {ValueKey, SignalKey}
    ensures r.Ok? ==> forall k :: k in m && k != ValueKey && k != SignalKey ==> r.value[k] == m[k]
    ensures r.Ok? ==> r.value[SignalKey] in {Str("BUY"), Str("SELL"), Str("HOLD")}
    ensures r.Ok? ==> r.value[ValueKey].Num?
  {
    var price :- ReadNumber(m, PriceKey, DefaultPrice);
    var lookback :- ReadNumber(m, LookbackKey, DefaultLookback);
    if lookback == 0.0 then Err(DegenerateInput)
    else Ok(m + Enrichment(Momentum(price, lookback)))
  }

  /** For a positive lookback price the momentum has the sign of the price change;
      for a negative one (which the code does not exclude) the opposite sign. */
  lemma MomentumSign(price: real, lookback: real)
    requires lookback != 0.0
    ensures lookback > 0.0 ==> (Momentum(price, lookback) > 0.0 <==> price > lookback)
    ensures lookback > 0.0 ==> (Momentum(price, lookback) < 0.0 <==> price < lookback)
    ensures lookback < 0.0 ==> (Momentum(price, lookback) > 0.0 <==> price < lookback)
    ensures lookback < 0.0 ==> (Momentum(price, lookback) < 0.0 <==> price > lookback)
    ensures Momentum(price, lookback) == 0.0 <==> price == lookback
  {
  }

  /** For a positive lookback price the decision is a pair of price bands: BUY above
      105% of the lookback price, SELL below 95%, HOLD in between, ends included. */
  lemma ClassifyByPrice(price: real, lookback: real)
    requires lookback > 0.0
    ensures Classify(Momentum(price, lookback)) == Buy <==> price > 1.05 * lookback
    ensures Classify(Momentum(price, lookback)) == Sell <==> price < 0.95 * lookback
    ensures Classify(Momentum(price, lookback)) == Hold <==> 0.95 * lookback <= price <= 1.05 * lookback
  {
    Bands(Momentum(price, lookback), price, lookback);
  }

  /** The price bands, for any ratio tied to the prices as the momentum is. */
  lemma Bands(mom: real, price: real, lookback: real)
    requires lookback > 0.0
    requires mom * lookback == price - lookback
    ensures mom > Threshold <==> price > 1.05 * lookback
    ensures mom < -Threshold <==> price < 0.95 * lookback
  {
    var low := -0.05;
    ScaleByPositive(mom, 0.05, lookback);
    ScaleByPositive(low, mom, lookback);
    assert low * lookback == -0.05 * lookback;
    assert mom > Threshold <==> price - lookback > 0.05 * lookback;
    assert mom < -Threshold <==> low * lookback > price - lookback;
  }

  /** Multiplying both sides by a positive number keeps a strict order. */
  lemma ScaleByPositive(a: real, b: real, c: real)
    requires c > 0.0
    ensures a > b <==> a * c > b * c
  {
  }

  /** What a successful computation writes: the signal of the unrounded momentum and
      the momentum rounded to four decimals, both from the prices actually read. */
  lemma ComputeWrites(m: Message, price: real, lookback: real)
    requires ReadNumber(m, PriceKey, DefaultPrice) == Ok(price)
    requires ReadNumber(m, LookbackKey, DefaultLookback) == Ok(lookback)
    requires lookback != 0.0
    ensures Compute(m).Ok?
    ensures Compute(m).value[SignalKey] == Str(Classify(Momentum(price, lookback)).Name())
    ensures Compute(m).value[ValueKey] == Num(Round4(Momentum(price, lookback)))
  {
  }

  /** A key the input lacks, `symbol` included, never appears in the output: the
      "UNKNOWN" default for the symbol is only used for logging. */
  lemma NoKeyAdded(m: Message, k: string)
    requires Compute(m).Ok?
    requires k !in m && k != ValueKey && k != SignalKey
    ensures k !in Compute(m).value
  {
  }

  /** Running the computation on its own output changes nothing: the prices are
      still there, so the same two keys are rewritten with the same values. */
  lemma ComputeIdempotent(m: Message)
    requires Compute(m).Ok?
    ensures Compute(Compute(m).value) == Compute(m)
  {
    var price := ReadNumber(m, PriceKey, DefaultPrice).value;
    var lookback := ReadNumber(m, LookbackKey, DefaultLookback).value;
    var e := Enrichment(Momentum(price, lookback));
    var out := Compute(m).value;
    assert out == m + e;
    assert ReadNumber(out, PriceKey, DefaultPrice) == Ok(price);
    assert ReadNumber(out, LookbackKey, DefaultLookback) == Ok(lookback);
    assert out + e == m + e;
  }

  /** With neither price present the defaults 100 and 95 give momentum 5/95, just
      above the threshold: BUY, reported as 0.0526. */
  lemma DefaultsBuy(m: Message)
    requires PriceKey !in m && LookbackKey !in m
    ensures Compute(m).Ok?
    ensures Compute(m).value[SignalKey] == Str("BUY")
    ensures Compute(m).value[ValueKey] == Num(0.0526)
  {
    assert Momentum(DefaultPrice, DefaultLookback) == 1.0 / 19.0;
    assert (1.0 / 19.0 * 10000.0).Floor == 526;
  }

  /** Price 110 against 100: momentum 0.1, BUY. */
  lemma RiseBuys(m: Message)
    requires PriceKey in m && m[PriceKey] == Num(110.0)
    requires LookbackKey in m && m[LookbackKey] == Num(100.0)
    ensures Compute(m).Ok?
    ensures Compute(m).value[SignalKey] == Str("BUY")
    ensures Compute(m).value[ValueKey] == Num(0.1)
  {
    Round4Exact(1000);
  }

  /** Price 90 against 100: momentum -0.1, SELL. */
  lemma FallSells(m: Message)
    requires PriceKey in m && m[PriceKey] == Num(90.0)
    requires LookbackKey in m && m[LookbackKey] == Num(100.0)
    ensures Compute(m).Ok?
    ensures Compute(m).value[SignalKey] == Str("SELL")
    ensures Compute(m).value[ValueKey] == Num(-0.1)
  {
    Round4Exact(-1000);
  }

  /** An unchanged price: momentum 0, HOLD. */
  lemma FlatHolds(m: Message, price: real)
    requires price != 0.0
    requires PriceKey in m && m[PriceKey] == Num(price)
    requires LookbackKey in m && m[LookbackKey] == Num(price)
    ensures Compute(m).Ok?
    ensures Compute(m).value[SignalKey] == Str("HOLD")
    ensures Compute(m).value[ValueKey] == Num(0.0)
  {
    Round4Exact(0);
  }

  /** Momentum exactly at either threshold is HOLD: both comparisons are strict. */
  lemma ThresholdsHold(m: Message)
    requires PriceKey in m && (m[PriceKey] == Num(105.0) || m[PriceKey] == Num(95.0))
    requires LookbackKey in m && m[LookbackKey] == Num(100.0)
    ensures Compute(m).Ok?
    ensures Compute(m).value[SignalKey] == Str("HOLD")
    ensures m[PriceKey] == Num(105.0) ==> Compute(m).value[ValueKey] == Num(0.05)
    ensures m[PriceKey] == Num(95.0) ==> Compute(m).value[ValueKey] == Num(-0.05)
  {
    Round4Exact(500);
    Round4Exact(-500);
  }

  /** The signal is decided on the unrounded momentum: 0.050004 is BUY although the
      value reported beside it, 0.05, would itself be HOLD. */
  lemma SignalUsesUnroundedMomentum(m: Message)
    requires PriceKey in m && m[PriceKey] == Num(105.0004)
    requires LookbackKey in m && m[LookbackKey] == Num(100.0)
    ensures Compute(m).Ok?
    ensures Compute(m).value[SignalKey] == Str("BUY")
    ensures Compute(m).value[ValueKey] == Num(0.05)
    ensures Classify(0.05) == Hold
  {
    assert Momentum(105.0004, 100.0) == 0.050004;
    assert RoundHalfEven(500.04) == 500;
  }
}
