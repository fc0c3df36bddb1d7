# Momentum signal processor, modelled in Dafny

The processor of the stock-backtest-momentum service takes one market-data
message (a mapping from string keys to values) and does two things:

- `validate_input_message` hands the message to an external schema predicate and
  either returns the very same message or raises `ValueError("Invalid message format")`;
- `compute_momentum_signal` reads `price` (default 100.0) and `price_lookback`
  (default 95.0), computes `momentum = (price - price_lookback) / price_lookback`,
  classifies it as `BUY` (momentum > 0.05), `SELL` (momentum < -0.05) or `HOLD`,
  and returns the input merged with `momentum_value` (momentum rounded to four
  decimals) and `momentum_signal`, which overwrite any keys of those names.

The model lives in two modules:

- `rounding.dfy`, module `Rounding`: Python's `round(x, 4)` on exact reals, rounding
  half-way values to the even neighbour as Python 3 does.
- `processor.dfy`, module `Processor`: messages as `map<string, Val>` with
  `Val = Num(real) | Str(string) | Other`; the raised exceptions as a `Result` with
  an `Error` per kind (schema rejection, failed numeric conversion, zero lookback
  price); `Validate` and `Compute` as functions, and lemmas about them.

The external schema predicate is a parameter of `Validate` (`schema: Message -> bool`),
so every property of the gate holds whatever predicate over the modelled message
is supplied. A rule that tells apart what `Val` merges (an `int` from a `float`,
None from a list) cannot be expressed.
Arithmetic is exact: prices, the ratio and the 0.05 thresholds are Dafny `real`s.

The code raises Python's own exceptions (`ValueError` for the schema;
`TypeError`, `ValueError` or `OverflowError` from `float(...)`; `ZeroDivisionError`
for a zero lookback), which the model names `SchemaValidation`, `NumericConversion`
and `DegenerateInput`. A bad `price` is reported before anything about
`price_lookback`, because line 47 runs before line 48.

## Model

| member | source | states |
|---|---|---|
| `Processor.Validate` | src/app/processor.py:16-33 | succeeds exactly when the schema predicate holds; then returns the message unchanged, otherwise the schema error and no message |
| `Processor.ReadNumber` | src/app/processor.py:47-48 | an absent key gives the default, a numeric value gives that number, any other value a conversion error naming the key |
| `Processor.Momentum` | src/app/processor.py:52 | defined only for a non-zero lookback; the result times the lookback is the price change |
| `Processor.Classify` | src/app/processor.py:53 | BUY iff momentum > 0.05, SELL iff momentum < -0.05, HOLD iff momentum lies in [-0.05, 0.05], ends included |
| `Processor.Compute` | src/app/processor.py:36-61 | a non-numeric price is the error; else a non-numeric lookback is; the zero-lookback error iff both read and the lookback is 0; on success the keys are the input's plus the two computed ones, every other input key keeps its value, the signal is one of BUY/SELL/HOLD and the value is a number |
| `Rounding.RoundHalfEven` | src/app/processor.py:56 | the result is within 1/2 of the argument, and even when the argument lies half-way |
| `Rounding.RoundHalfEvenUnique` | src/app/processor.py:56 | any integer meeting those two conditions is the rounded value, so they define the rounding |
| `Rounding.Round4` | src/app/processor.py:56 | the reported momentum is within 0.00005 of the momentum and has at most four decimal digits |
| `Rounding.Round4Exact` | src/app/processor.py:56 | a value with at most four decimal digits is reported as it is |
| `Processor.MomentumSign` | src/app/processor.py:52 | for a positive lookback the momentum has the sign of price minus lookback (opposite sign for a negative lookback); it is zero iff the prices are equal |
| `Processor.ClassifyByPrice` | src/app/processor.py:52-53 | for a positive lookback: BUY iff price > 1.05 x lookback, SELL iff price < 0.95 x lookback, HOLD in between, ends included |
| `Processor.ComputeWrites` | src/app/processor.py:52-58 | with both prices readable and a non-zero lookback the computation succeeds, writing the signal of the unrounded momentum and its four-decimal rounding |
| `Processor.NoKeyAdded` | src/app/processor.py:46-61 | no key absent from the input, `symbol` included, appears in the output other than the two computed ones |
| `Processor.ComputeIdempotent` | src/app/processor.py:47-61 | computing again on an output gives that same output |
| `Processor.DefaultsBuy` | src/app/processor.py:47-56 | with both prices absent the defaults give BUY and a reported value of 0.0526 |
| `Processor.RiseBuys` | src/app/processor.py:52-56 | price 110 against 100 gives BUY and 0.1 |
| `Processor.FallSells` | src/app/processor.py:52-56 | price 90 against 100 gives SELL and -0.1 |
| `Processor.FlatHolds` | src/app/processor.py:52-56 | equal non-zero prices give HOLD and 0.0 |
| `Processor.ThresholdsHold` | src/app/processor.py:52-56 | price 105 against 100 (momentum exactly 0.05) gives HOLD and 0.05; price 95 (exactly -0.05) gives HOLD and -0.05 |
| `Processor.SignalUsesUnroundedMomentum` | src/app/processor.py:53-56 | the signal is taken before rounding: price 105.0004 against 100 is BUY while the reported value is 0.05, which by itself would be HOLD |

## Left out

- Logging (`setup_logger` and every `logger` call, lines 9, 13, 29, 31, 50, 60): side effects only. The `symbol` lookup with its "UNKNOWN" default (line 46) feeds only those log calls, so it is not modelled; `NoKeyAdded` states that it never reaches the output.
- The rules of `validate_message_schema` (src/app/utils/validate_data.py) are not part of this model: the predicate is a parameter of `Validate`.
- Identity of the returned object: `validate_input_message` returns the same dict, not a copy; on values the model can only say the result equals the input.
- `float(...)` coercion beyond numbers: Python also accepts numeric strings ("110"), booleans and objects with `__float__`; the model treats every non-numeric `Val` as a conversion error.
- ReadNumber: treats every `Num` as convertible, although `float(...)` raises `OverflowError` for an `int` beyond the double range (such as `10**309`); and it treats booleans as `Other`, hence as conversion errors, although Python's `float(True)` is 1.0 because `bool` is an `int` subclass.
- Key order: `{**message, **result}` (line 61) keeps the input's key order and appends the new keys; a Dafny `map` has no key order, so the model says nothing about it.
- IEEE double behaviour: the model computes the ratio, the comparisons against 0.05 and the rounding on exact reals, so float rounding error, NaN, infinities and signed zero are not captured; in particular the tie rule of `round` is applied to the exact value rather than to its binary approximation.
- The `ValidatedMessage` type (app/utils/types.py is not part of this model): the plain message map is used for it, and `Compute` does not demand that its input passed the schema, as the code does not check it either.
