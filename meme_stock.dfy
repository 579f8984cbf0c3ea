/** `MemeStock`: the high-volatility variant. Strikes accrue with a chance that
    grows with the price; three strikes make the stock fail, a failing stock goes
    bankrupt on the next step, and a bankrupt one resets on the step after. */
module MemeStock {
  import opened Signs
  import opened Results
  import opened Randomness
  import opened StockBase

  const DefaultPrice: real := 1.0
  /** Signs of the first two terms only; the other two are always negative. */
  const DefaultSigns: seq<Sign> := [Positive, Positive]
  /** The number of strikes after which the stock starts failing. */
  const MaxStrikes: int := 3
  /** Number of the always-negative terms. */
  const FallingTerms: nat := 2
  /** A strike accrues on a draw of at most `price / StrikeScale`. */
  const StrikeScale: real := 100000.0

  /** The constructor's checks, which every step preserves. */
  predicate WellFormed(s: StockState)
  {
    && s.variant.Meme?
    && s.price >= MinimumPrice
    && |s.signs| == |DefaultSigns|
    && !(s.variant.failing && s.bankrupt)
    && 0 <= s.variant.strikes <= MaxStrikes
  }

  /** The state `resetValues()` restores and the default constructor builds. */
  function Default(): (s: StockState)
    ensures WellFormed(s)
    ensures s.price == DefaultPrice && !s.bankrupt && !s.variant.failing && s.variant.strikes == 0
    ensures forall i :: 0 <= i < |s.signs| ==> s.signs[i] == Positive
  {
    StockState(DefaultPrice, DefaultSigns, false, Meme(false, 0))
  }

  /** The checks of the explicit constructor, in the order it performs them. */
  function Check(price: real, signs: seq<Sign>, bankrupt: bool, failing: bool, strikes: int): (r: Outcome)
    ensures r == Pass <==> WellFormed(StockState(price, signs, bankrupt, Meme(failing, strikes)))
    ensures r.Fail? ==>
      (r.error == IllegalState <==> price >= MinimumPrice && |signs| == 2 && failing && bankrupt)
  {
    if CheckPrice(price).Fail? then CheckPrice(price)
    else if |signs| != |DefaultSigns| then Fail(IllegalArgument)
    else if failing && bankrupt then Fail(IllegalState)
    else if strikes < 0 || strikes > MaxStrikes then Fail(IllegalArgument)
    else Pass
  }

  /** A sign vector of `n` negative entries. */
  function AllNegative(n: nat): (r: seq<Sign>)
    ensures |r| == n
    ensures forall i :: 0 <= i < n ==> r[i] == Negative
  {
    seq(n, _ => Negative)
  }

  /** The tracked terms: each sign times a sample in [1, 20), one draw per sign in order. */
  function SignedTerms(signs: seq<Sign>, stream: Stream, at: nat): (r: real)
    ensures -20.0 * (|signs| as real) <= r <= 20.0 * (|signs| as real)
    ensures (forall i :: 0 <= i < |signs| ==> signs[i] == Positive) ==> r >= |signs| as real
    decreases |signs|
  {
    if signs == [] then 0.0
    else SignedTerms(signs[..|signs| - 1], stream, at)
         + Signed(signs[|signs| - 1], Scale(stream(at + |signs| - 1), 1.0, 20.0))
  }

  /** The always-negative terms: the sum of `n` samples in [1, 10), one draw each. */
  function FallingSum(stream: Stream, at: nat, n: nat): (r: real)
    ensures r >= n as real
  {
    if n == 0 then 0.0 else FallingSum(stream, at, n - 1) + Scale(stream(at + n - 1), 1.0, 10.0)
  }

  /** With every sign negative the tracked terms lower the price by at least one per sign. */
  lemma {:induction false} NegativeTermsFall(signs: seq<Sign>, stream: Stream, at: nat)
    requires forall i :: 0 <= i < |signs| ==> signs[i] == Negative
    ensures SignedTerms(signs, stream, at) <= -(|signs| as real)
  {
    if signs != [] {
      NegativeTermsFall(signs[..|signs| - 1], stream, at);
    }
  }

  /** One `advance()`, from state `s`, drawing from `stream` starting at position `at`. */
  function Step(s: StockState, stream: Stream, at: nat): (r: StepResult)
    requires WellFormed(s)
    ensures WellFormed(r.next)
    ensures r.cursor >= at
    ensures r.returned >= MinimumPrice
    ensures s.bankrupt || !s.variant.failing ==> r.returned == r.next.price
  {
    if s.bankrupt then
      StepResult(Default(), DefaultPrice, at)
    else if s.variant.failing then
      StepResult(s.(bankrupt := true, variant := Meme(false, 0)), MinimumPrice, at)
    else
      Move(s, stream, at)
  }

  /** A normal step, neither bankrupt nor failing: the strike-out, the four terms,
      the floor, and the strike draw. */
  function Move(s: StockState, stream: Stream, at: nat): (r: StepResult)
    requires WellFormed(s) && !s.bankrupt && !s.variant.failing
    ensures WellFormed(r.next) && !r.next.bankrupt
    ensures r.returned == r.next.price
    ensures r.cursor >= at + |s.signs| + FallingTerms
  {
    var failing := s.variant.strikes == MaxStrikes;
    var signs := if failing then AllNegative(|s.signs|) else s.signs;
    var k := at + |signs|;
    var p := s.price + SignedTerms(signs, stream, at) - FallingSum(stream, k, FallingTerms);
    var price := Clamp(p);
    var k' := k + FallingTerms;
    var strike := !failing && stream(k') <= price / StrikeScale;
    var next := StockState(price, signs, false, Meme(failing, if strike then s.variant.strikes + 1 else s.variant.strikes));
    StepResult(next, price, if failing then k' else k' + 1)
  }

  /** A step taken while bankrupt resets the stock to its defaults, taking no draw. */
  lemma ResetAfterBankruptcy(s: StockState, stream: Stream, at: nat)
    requires WellFormed(s) && s.bankrupt
    ensures var r := Step(s, stream, at);
      r.next == Default() && r.next.signs == [Positive, Positive]
      && r.returned == DefaultPrice && r.cursor == at
  {
  }

  /** A step taken while failing declares bankruptcy and returns the floor price,
      but leaves the stored price and the signs as they were. */
  lemma FailingBecomesBankrupt(s: StockState, stream: Stream, at: nat)
    requires WellFormed(s) && !s.bankrupt && s.variant.failing
    ensures var r := Step(s, stream, at);
      && r.next.bankrupt && !r.next.variant.failing && r.next.variant.strikes == 0
      && r.returned == MinimumPrice
      && r.next.price == s.price && r.next.signs == s.signs && r.cursor == at
  {
  }

  /** The step that finds three strikes turns both signs negative and sets
      `failing`; all four terms then pull the price down by at least four
      (or to the floor), and no strike is drawn for. */
  lemma StrikeOut(s: StockState, stream: Stream, at: nat)
    requires WellFormed(s) && !s.bankrupt && !s.variant.failing && s.variant.strikes == MaxStrikes
    ensures var r := Step(s, stream, at);
      && r.next.variant.failing && !r.next.bankrupt
      && r.next.signs == [Negative, Negative]
      && r.next.variant.strikes == MaxStrikes
      && r.next.price <= Clamp(s.price - 4.0)
      && r.cursor == at + 4
  {
    var signs := AllNegative(|s.signs|);
    NegativeTermsFall(signs, stream, at);
    assert signs == [Negative, Negative];
  }

  /** On a normal step of a stock that is not failing, at most one strike accrues,
      exactly when the last draw taken is at most the new price over 100000. */
  lemma StrikeAccrual(s: StockState, stream: Stream, at: nat)
    requires WellFormed(s) && !s.bankrupt && !s.variant.failing && s.variant.strikes < MaxStrikes
    ensures var r := Step(s, stream, at);
      && !r.next.variant.failing && !r.next.bankrupt
      && r.next.signs == s.signs
      && r.cursor == at + 5
      && (r.next.variant.strikes == s.variant.strikes + 1 <==> stream(at + 4) <= r.next.price / StrikeScale)
      && (r.next.variant.strikes == s.variant.strikes || r.next.variant.strikes == s.variant.strikes + 1)
  {
  }

  /** From three strikes the stock fails on the next step, is declared bankrupt
      on the one after (returning the floor price, with no strikes left), and is
      back at its defaults on the third, whatever the draws. */
  lemma StrikeOutLifecycle(s: StockState, stream: Stream, at: nat)
    requires WellFormed(s) && !s.bankrupt && !s.variant.failing && s.variant.strikes == MaxStrikes
    ensures var r1 := Step(s, stream, at);
      var r2 := Step(r1.next, stream, r1.cursor);
      var r3 := Step(r2.next, stream, r2.cursor);
      && r1.next.variant.failing
      && r2.next.bankrupt && r2.returned == MinimumPrice && r2.next.variant.strikes == 0
      && r3.next == Default()
  {
    StrikeOut(s, stream, at);
    var r1 := Step(s, stream, at);
    FailingBecomesBankrupt(r1.next, stream, r1.cursor);
    var r2 := Step(r1.next, stream, r1.cursor);
    ResetAfterBankruptcy(r2.next, stream, r2.cursor);
  }
}
