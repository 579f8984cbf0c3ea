/** `BabyStock`: the low-volatility variant, with a graduated failure level
    that ends in one cycle of bankruptcy and then a reset. */
module BabyStock {
  import opened Signs
  import opened Results
  import opened Randomness
  import opened StockBase

  const DefaultPrice: real := 50.0
  const DefaultSigns: seq<Sign> := [Positive, Positive]
  /** After this many failing cycles the next cycle is a bankruptcy. */
  const MaxFailureLevel: int := 5
  /** Chance that a sign entry flips at the start of a normal step. */
  const FlipChance: real := 0.20
  /** Chance that the shock term is added. */
  const ShockChance: real := 0.05
  /** Chance that a healthy stock starts failing. */
  const FailChance: real := 0.002
  /** Extra growth per failure level. */
  const LevelFactor: real := 0.04

  /** The constructor's checks, which every step preserves. */
  predicate WellFormed(s: StockState)
  {
    && s.variant.Baby?
    && s.price >= MinimumPrice
    && |s.signs| == |DefaultSigns|
    && 0 <= s.variant.failureLevel <= MaxFailureLevel + 1
    && !(s.variant.failureLevel != 0 && s.bankrupt)
  }

  /** The state `resetValues()` restores and the default constructor builds. */
  function Default(): (s: StockState)
    ensures WellFormed(s)
    ensures s.price == DefaultPrice && !s.bankrupt && s.variant.failureLevel == 0
    ensures forall i :: 0 <= i < |s.signs| ==> s.signs[i] == Positive
  {
    StockState(DefaultPrice, DefaultSigns, false, Baby(0))
  }

  /** The checks of the explicit constructor, in the order it performs them. */
  function Check(price: real, signs: seq<Sign>, bankrupt: bool, failureLevel: int): (r: Outcome)
    ensures r == Pass <==> WellFormed(StockState(price, signs, bankrupt, Baby(failureLevel)))
    ensures r.Fail? ==>
      (r.error == IllegalState <==>
        price >= MinimumPrice && |signs| == 2 && 0 <= failureLevel <= MaxFailureLevel + 1)
  {
    if CheckPrice(price).Fail? then CheckPrice(price)
    else if |signs| != |DefaultSigns| then Fail(IllegalArgument)
    else if failureLevel < 0 || failureLevel > MaxFailureLevel + 1 then Fail(IllegalArgument)
    else if failureLevel != 0 && bankrupt then Fail(IllegalState)
    else Pass
  }

  /** Each entry of the sign vector flips on its own draw, taken in index order. */
  function FlipSigns(signs: seq<Sign>, stream: Stream, at: nat): (r: seq<Sign>)
    ensures |r| == |signs|
    ensures forall i :: 0 <= i < |signs| ==> (r[i] != signs[i] <==> stream(at + i) <= FlipChance)
    ensures forall i :: 0 <= i < |signs| ==> r[i] == signs[i] || r[i] == Negated(signs[i])
  {
    seq(|signs|, i requires 0 <= i < |signs| =>
      if stream(at + i) <= FlipChance then Negated(signs[i]) else signs[i])
  }

  /** The two always-present terms of a normal step: a move of 1.5 to 3 in the
      direction of the first sign, then one of 1.5 to 2 in that of the second. */
  function Drift(price: real, signs: seq<Sign>, stream: Stream, at: nat): (r: real)
    requires |signs| == 2
    ensures price - 5.0 < r < price + 5.0
    ensures signs == [Positive, Positive] ==> price + 3.0 <= r
    ensures signs == [Negative, Negative] ==> r <= price - 3.0
  {
    var p0 := price + Signed(signs[0], Scale(stream(at), 1.5, 3.0));
    p0 + Signed(signs[1], Scale(stream(at + 1), 1.5, 2.0))
  }

  /** One `advance()`, from state `s`, drawing from `stream` starting at position `at`. */
  function Step(s: StockState, stream: Stream, at: nat): (r: StepResult)
    requires WellFormed(s)
    ensures WellFormed(r.next)
    ensures r.returned == r.next.price
    ensures r.cursor >= at
  {
    var level := s.variant.failureLevel;
    if level > MaxFailureLevel then
      var next := s.(price := MinimumPrice, bankrupt := true, variant := Baby(0));
      StepResult(next, next.price, at)
    else if s.bankrupt then
      StepResult(Default(), DefaultPrice, at)
    else
      Move(s, stream, at)
  }

  /** A normal step, neither bankrupt nor past the maximum failure level: the sign
      flips, the drift, the optional shock, the floor, the level multiplier and the
      failure-level update. */
  function Move(s: StockState, stream: Stream, at: nat): (r: StepResult)
    requires WellFormed(s) && !s.bankrupt && s.variant.failureLevel <= MaxFailureLevel
    ensures WellFormed(r.next) && !r.next.bankrupt
    ensures r.returned == r.next.price
    ensures r.cursor >= at + |s.signs| + 3
  {
    var level := s.variant.failureLevel;
    var t := Moves(s.signs, s.price, stream, at);
    var price := Amplify(Clamp(t.price), level, LevelFactor);
    var counter := NextFailureLevel(level, FailChance, stream, t.cursor);
    StepResult(StockState(price, t.signs, false, Baby(counter.level)), price, counter.cursor)
  }

  /** The terms of a normal step before the floor: the sign flips, the drift and
      the optional shock. */
  function Moves(signs: seq<Sign>, price: real, stream: Stream, at: nat): (t: Terms)
    requires |signs| == 2
    ensures t.signs == FlipSigns(signs, stream, at)
    ensures t.cursor >= at + 5
  {
    var flipped := FlipSigns(signs, stream, at);
    var k := at + |flipped|;
    var shock := OptionalTerm(Drift(price, flipped, stream, k), ShockChance, 5.0, 15.0, stream, k + 2);
    Terms(flipped, shock.price, shock.cursor)
  }

  /** The price after the terms of a normal step: the drift on the flipped signs,
      then, when the gate draw lets the shock in, a move of 5 to 15 in the direction
      of its coin; in all, less than 20 either way. */
  lemma MovesPrice(signs: seq<Sign>, price: real, stream: Stream, at: nat)
    requires |signs| == 2
    ensures var t := Moves(signs, price, stream, at);
      var drift := Drift(price, t.signs, stream, at + 2);
      && price - 20.0 < t.price < price + 20.0
      && (stream(at + 4) > ShockChance ==> t.price == drift && t.cursor == at + 5)
      && (stream(at + 4) <= ShockChance ==>
            t.cursor == at + 7
            && 5.0 <= (if CoinSign(stream(at + 5)) == Positive then t.price - drift else drift - t.price) < 15.0)
  {
  }

  /** A step taken after the failure level passed its maximum declares bankruptcy:
      the price is pinned to the floor, the level cleared, and no draw is taken. */
  lemma BankruptcyDeclared(s: StockState, stream: Stream, at: nat)
    requires WellFormed(s) && s.variant.failureLevel > MaxFailureLevel
    ensures var r := Step(s, stream, at);
      r.next.bankrupt && r.next.variant.failureLevel == 0 && r.next.price == MinimumPrice
      && r.returned == MinimumPrice && r.next.signs == s.signs && r.cursor == at
  {
  }

  /** A step taken while bankrupt resets the stock to its defaults, taking no draw. */
  lemma ResetAfterBankruptcy(s: StockState, stream: Stream, at: nat)
    requires WellFormed(s) && s.bankrupt
    ensures var r := Step(s, stream, at);
      r.next == Default() && r.next.signs == [Positive, Positive] && r.returned == DefaultPrice && r.cursor == at
  {
  }

  /** On a normal step the clamped price is scaled by a factor of at least one,
      so the price ends at or above the floor scaled by the same factor. */
  lemma NormalStepPrice(s: StockState, stream: Stream, at: nat)
    requires WellFormed(s) && !s.bankrupt && s.variant.failureLevel <= MaxFailureLevel
    ensures Step(s, stream, at).next.price
      >= MinimumPrice * (1.0 + s.variant.failureLevel as real * LevelFactor)
  {
  }

  /** On a normal step a failing level advances by exactly one, and a healthy
      level becomes one exactly when the last draw taken is at most `FailChance`. */
  lemma FailureLevelProgress(s: StockState, stream: Stream, at: nat)
    requires WellFormed(s) && !s.bankrupt && s.variant.failureLevel <= MaxFailureLevel
    ensures var r := Step(s, stream, at);
      && (s.variant.failureLevel > 0 ==> r.next.variant.failureLevel == s.variant.failureLevel + 1)
      && (s.variant.failureLevel == 0 ==>
            r.cursor > at
            && (r.next.variant.failureLevel == 1 <==> stream(r.cursor - 1) <= FailChance)
            && (r.next.variant.failureLevel == 0 || r.next.variant.failureLevel == 1))
  {
  }

  /** On a normal step the sign vector keeps its length and an entry changes
      exactly when its own draw is at most `FlipChance`. */
  lemma SignsFlipInPlace(s: StockState, stream: Stream, at: nat)
    requires WellFormed(s) && !s.bankrupt && s.variant.failureLevel <= MaxFailureLevel
    ensures var r := Step(s, stream, at);
      && |r.next.signs| == |s.signs| == 2
      && forall i :: 0 <= i < 2 ==> (r.next.signs[i] != s.signs[i] <==> stream(at + i) <= FlipChance)
  {
  }
}
