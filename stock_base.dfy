/** What every stock variant shares (abstract class `Stock`): the price floor,
    the value-level state of a stock and the result of one step. */
module StockBase {
  import opened Signs
  import opened Results
  import opened Randomness

  /** `MINIMUM_PRICE`: no price may ever be below it. */
  const MinimumPrice: real := 0.25

  /** The variant-specific counters; the tag says which subclass the stock is. */
  datatype Variant =
    | Baby(failureLevel: int)
    | Risky(failureLevel: int)
    | Meme(failing: bool, strikes: int)

  /** The persisted state of one stock: price, sign vector, bankrupt flag and counters. */
  datatype StockState = StockState(price: real, signs: seq<Sign>, bankrupt: bool, variant: Variant)

  /** `Stock.State`: what a batch advance records after each single step. */
  datatype Snapshot = Snapshot(price: real, bankrupt: bool)

  /** One single `advance()`: the new state, the value it returns and the
      position of the random source afterwards. */
  datatype StepResult = StepResult(next: StockState, returned: real, cursor: nat)

  /** A price together with the position of the next draw. */
  datatype Partial = Partial(price: real, cursor: nat)

  /** A sign vector and a price after the terms of a step, with the position of the next draw. */
  datatype Terms = Terms(signs: seq<Sign>, price: real, cursor: nat)

  /** A failure level together with the position of the next draw. */
  datatype Counter = Counter(level: int, cursor: nat)

  function SnapshotOf(s: StockState): Snapshot
  {
    Snapshot(s.price, s.bankrupt)
  }

  /** The polarity of a spike or shock term: positive on a draw of at most one half. */
  function CoinSign(d: real): (s: Sign)
    ensures s == Positive <==> d <= 0.5
  {
    if d <= 0.5 then Positive else Negative
  }

  /** An optional term (the shock of `BabyStock`, the spike of `RiskyStock`): a gate
      draw at most `chance` includes it; it then takes a coin draw for its sign and
      a draw for its size in [low, high). */
  function OptionalTerm(price: real, chance: real, low: real, high: real, stream: Stream, at: nat): (r: Partial)
    requires low < high
    ensures stream(at) <= chance ==>
      r.cursor == at + 3 && low <= (if CoinSign(stream(at + 1)) == Positive then r.price - price else price - r.price) < high
    ensures stream(at) > chance ==> r == Partial(price, at + 1)
  {
    if stream(at) <= chance then
      Partial(price + Signed(CoinSign(stream(at + 1)), Scale(stream(at + 2), low, high)), at + 3)
    else
      Partial(price, at + 1)
  }

  /** The end of a normal `BabyStock`/`RiskyStock` step: a failing level climbs by
      one; a healthy one takes one draw and starts failing when it is at most `chance`. */
  function NextFailureLevel(level: int, chance: real, stream: Stream, at: nat): (c: Counter)
    requires level >= 0
    ensures level > 0 ==> c == Counter(level + 1, at)
    ensures level == 0 ==>
      c.cursor == at + 1 && (c.level == 1 <==> stream(at) <= chance) && (c.level == 0 || c.level == 1)
  {
    var raised := if level > 0 then level + 1 else level;
    if raised == 0 then
      (if stream(at) <= chance then Counter(raised + 1, at + 1) else Counter(raised, at + 1))
    else
      Counter(raised, at)
  }

  /** `Math.max(price, MINIMUM_PRICE)`. */
  function Clamp(price: real): (r: real)
    ensures r >= MinimumPrice
    ensures r >= price
    ensures r == price || r == MinimumPrice
  {
    if price >= MinimumPrice then price else MinimumPrice
  }

  /** The check of the base constructor: a price below the floor is an argument error. */
  function CheckPrice(price: real): (r: Outcome)
    ensures r == Pass <==> price >= MinimumPrice
    ensures r.Fail? ==> r.error == IllegalArgument
  {
    if price < MinimumPrice then Fail(IllegalArgument) else Pass
  }

  /** The failure multiplier `price * (1 + level * step)`: never a decrease,
      and a price at the floor grows by the whole factor. */
  function Amplify(price: real, level: int, step: real): (r: real)
    requires level >= 0 && step >= 0.0
    ensures price >= 0.0 ==> r >= price
    ensures price >= MinimumPrice ==> r >= MinimumPrice * (1.0 + level as real * step)
    ensures level == 0 ==> r == price
  {
    var g := level as real * step;
    assert g >= 0.0;
    assert price * (1.0 + g) == price + price * g;
    assert MinimumPrice * (1.0 + g) == MinimumPrice + MinimumPrice * g;
    assert price >= MinimumPrice ==> price * g >= MinimumPrice * g by {
      if price >= MinimumPrice { assert price * g - MinimumPrice * g == (price - MinimumPrice) * g; }
    }
    price * (1.0 + g)
  }
}
