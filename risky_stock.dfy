/** `RiskyStock`: the mid-volatility variant. Three gated terms whose signs flip
    only when included, a spike term whose chance escalates with the failure
    level, and the same failure/bankruptcy cycle as `BabyStock`. */
module RiskyStock {
  import opened Signs
  import opened Results
  import opened Randomness
  import opened StockBase

  const DefaultPrice: real := 100.0
  const DefaultSigns: seq<Sign> := [Positive, Positive, Positive]
  /** After this many failing cycles the next cycle is a bankruptcy. */
  const MaxFailureLevel: int := 5
  /** Chance that one of the three gated terms is included. */
  const IncludeChance: real := 2.0 / 3.0
  /** Chance that the sign of an included term flips. */
  const FlipChance: real := 0.40
  /** Chance of the spike term while the stock is healthy. */
  const HealthySpikeChance: real := 0.10
  /** Chance of the spike term at failure levels 1 to 5. */
  const SpikeTable: seq<real> := [1.0 / 8.0, 1.0 / 6.0, 1.0 / 4.0, 1.0 / 2.0, 1.0]
  /** Chance that a healthy stock starts failing. */
  const FailChance: real := 0.004
  /** Extra growth per failure level. */
  const LevelFactor: real := 0.10

  /** The constructor's checks, which every step preserves. */
  predicate WellFormed(s: StockState)
  {
    && s.variant.Risky?
    && s.price >= MinimumPrice
    && |s.signs| == |DefaultSigns|
    && 0 <= s.variant.failureLevel <= MaxFailureLevel + 1
    && !(s.variant.failureLevel != 0 && s.bankrupt)
  }

  /** The state `resetValues()` restores and the default constructor builds. */
  function Default(): (s: StockState)
    ensures WellFormed(s)
    ensures s.price == DefaultPrice && !s.bankrupt && s.variant.failureLevel == 0
    ensures forall i :: 0 <= i < |s.signs| ==> s.signs[i] == Positive
  {
    StockState(DefaultPrice, DefaultSigns, false, Risky(0))
  }

  /** The checks of the explicit constructor, in the order it performs them. */
  function Check(price: real, signs: seq<Sign>, bankrupt: bool, failureLevel: int): (r: Outcome)
    ensures r == Pass <==> WellFormed(StockState(price, signs, bankrupt, Risky(failureLevel)))
    ensures r.Fail? ==>
      (r.error == IllegalState <==>
        price >= MinimumPrice && |signs| == 3 && 0 <= failureLevel <= MaxFailureLevel + 1)
  {
    if CheckPrice(price).Fail? then CheckPrice(price)
    else if |signs| != |DefaultSigns| then Fail(IllegalArgument)
    else if failureLevel < 0 || failureLevel > MaxFailureLevel + 1 then Fail(IllegalArgument)
    else if failureLevel != 0 && bankrupt then Fail(IllegalState)
    else Pass
  }

  /** The loop over the gated terms from term `i` on: each term takes a gate draw;
      an included term then takes a flip draw and adds its (possibly flipped) sign
      times its precomputed uniform sample. */
  function IncludeTerms(signs: seq<Sign>, price: real, uniforms: seq<real>, stream: Stream, at: nat, i: nat): (r: Terms)
    requires |uniforms| == |signs| && i <= |signs|
    decreases |signs| - i
    ensures |r.signs| == |signs|
    ensures forall j :: 0 <= j < i ==> r.signs[j] == signs[j]
    ensures r.cursor >= at + (|signs| - i)
  {
    if i == |signs| then Terms(signs, price, at)
    else if stream(at) <= IncludeChance then
      var signs' := if stream(at + 1) <= FlipChance then signs[i := Negated(signs[i])] else signs;
      IncludeTerms(signs', price + Signed(signs'[i], uniforms[i]), uniforms, stream, at + 2, i + 1)
    else
      IncludeTerms(signs, price, uniforms, stream, at + 1, i + 1)
  }

  /** Where the gate draw of term `j` lies when term `i` starts at position `at`. */
  function GatePosition(stream: Stream, at: nat, i: nat, j: nat): nat
    requires i <= j
    decreases j - i
  {
    if i == j then at
    else GatePosition(stream, if stream(at) <= IncludeChance then at + 2 else at + 1, i + 1, j)
  }

  /** The sum of the included terms from term `i` on, each taken with the sign
      that `signs` holds for its slot. */
  function Added(signs: seq<Sign>, uniforms: seq<real>, stream: Stream, at: nat, i: nat): real
    requires |uniforms| == |signs| && i <= |signs|
    decreases |signs| - i
  {
    if i == |signs| then 0.0
    else if stream(at) <= IncludeChance then
      Signed(signs[i], uniforms[i]) + Added(signs, uniforms, stream, at + 2, i + 1)
    else
      Added(signs, uniforms, stream, at + 1, i + 1)
  }

  /** A sign entry changes only when its term is included (gate draw at most 2/3)
      and its flip draw is at most `FlipChance`; then it is negated. */
  lemma {:induction false} TermSign(signs: seq<Sign>, price: real, uniforms: seq<real>, stream: Stream, at: nat, i: nat, j: nat)
    requires |uniforms| == |signs| && i <= j < |signs|
    decreases |signs| - i
    ensures var g := GatePosition(stream, at, i, j);
      IncludeTerms(signs, price, uniforms, stream, at, i).signs[j]
        == if stream(g) <= IncludeChance && stream(g + 1) <= FlipChance then Negated(signs[j]) else signs[j]
  {
    if i < j {
      var next := if stream(at) <= IncludeChance then at + 2 else at + 1;
      assert GatePosition(stream, at, i, j) == GatePosition(stream, next, i + 1, j);
      if stream(at) <= IncludeChance {
        var signs' := if stream(at + 1) <= FlipChance then signs[i := Negated(signs[i])] else signs;
        assert signs'[j] == signs[j];
        TermSign(signs', price + Signed(signs'[i], uniforms[i]), uniforms, stream, at + 2, i + 1, j);
      } else {
        TermSign(signs, price, uniforms, stream, at + 1, i + 1, j);
      }
    } else {
      TermSignHere(signs, price, uniforms, stream, at, i);
    }
  }

  /** The sign of the term being processed is settled by its own gate and flip draws. */
  lemma TermSignHere(signs: seq<Sign>, price: real, uniforms: seq<real>, stream: Stream, at: nat, i: nat)
    requires |uniforms| == |signs| && i < |signs|
    ensures IncludeTerms(signs, price, uniforms, stream, at, i).signs[i]
        == if stream(at) <= IncludeChance && stream(at + 1) <= FlipChance then Negated(signs[i]) else signs[i]
  {
    if stream(at) <= IncludeChance {
      var signs' := if stream(at + 1) <= FlipChance then signs[i := Negated(signs[i])] else signs;
      var rest := IncludeTerms(signs', price + Signed(signs'[i], uniforms[i]), uniforms, stream, at + 2, i + 1);
      assert rest.signs[i] == signs'[i];
    } else {
      var rest := IncludeTerms(signs, price, uniforms, stream, at + 1, i + 1);
      assert rest.signs[i] == signs[i];
    }
  }

  /** The price after the gated terms is the old price plus each included term
      taken with the sign its slot holds afterwards: a flip is used by the very
      term that caused it. */
  lemma {:induction false} TermsPrice(signs: seq<Sign>, price: real, uniforms: seq<real>, stream: Stream, at: nat, i: nat)
    requires |uniforms| == |signs| && i <= |signs|
    decreases |signs| - i
    ensures var r := IncludeTerms(signs, price, uniforms, stream, at, i);
      r.price == price + Added(r.signs, uniforms, stream, at, i)
  {
    if i < |signs| {
      var r := IncludeTerms(signs, price, uniforms, stream, at, i);
      if stream(at) <= IncludeChance {
        var signs' := if stream(at + 1) <= FlipChance then signs[i := Negated(signs[i])] else signs;
        TermsPrice(signs', price + Signed(signs'[i], uniforms[i]), uniforms, stream, at + 2, i + 1);
        assert r.signs[i] == signs'[i];
      } else {
        TermsPrice(signs, price, uniforms, stream, at + 1, i + 1);
      }
    }
  }

  /** The chance of the spike term: 10% while healthy, else the table entry for
      the level; the table is only indexed at 0 to 4. */
  function SpikeChance(level: int): (p: real)
    requires 0 <= level <= MaxFailureLevel
    ensures HealthySpikeChance <= p <= 1.0
    ensures level == MaxFailureLevel ==> p == 1.0
  {
    if level == 0 then HealthySpikeChance else SpikeTable[level - 1]
  }

  /** The spike chance escalates with the failure level (the "death spiral"). */
  lemma SpikeChanceEscalates(a: int, b: int)
    requires 0 <= a <= b <= MaxFailureLevel
    ensures SpikeChance(a) <= SpikeChance(b)
  {
  }

  /** One `advance()`, from state `s`, drawing from `stream` starting at position `at`. */
  function Step(s: StockState, stream: Stream, at: nat): (r: StepResult)
    requires WellFormed(s)
    ensures WellFormed(r.next)
    ensures r.returned == r.next.price
    ensures r.cursor >= at
  {
    var level := s.variant.failureLevel;
    if level > MaxFailureLevel then
      var next := s.(price := MinimumPrice, bankrupt := true, variant := Risky(0));
      StepResult(next, next.price, at)
    else if s.bankrupt then
      StepResult(Default(), DefaultPrice, at)
    else
      Move(s, stream, at)
  }

  /** A normal step, neither bankrupt nor past the maximum failure level: three
      uniform samples, the gated terms, the optional spike, the floor, the level
      multiplier and the failure-level update. */
  function Move(s: StockState, stream: Stream, at: nat): (r: StepResult)
    requires WellFormed(s) && !s.bankrupt && s.variant.failureLevel <= MaxFailureLevel
    ensures WellFormed(r.next) && !r.next.bankrupt
    ensures r.returned == r.next.price
    ensures r.cursor >= at + 3 + |s.signs|
  {
    var level := s.variant.failureLevel;
    var uniforms := [Scale(stream(at), 8.0, 10.0), Scale(stream(at + 1), 5.0, 7.0), Scale(stream(at + 2), 5.0, 10.0)];
    var t := IncludeTerms(s.signs, s.price, uniforms, stream, at + 3, 0);
    var spike := OptionalTerm(t.price, SpikeChance(level), 25.0, 75.0, stream, t.cursor);
    var price := Amplify(Clamp(spike.price), level, LevelFactor);
    var counter := NextFailureLevel(level, FailChance, stream, spike.cursor);
    StepResult(StockState(price, t.signs, false, Risky(counter.level)), price, counter.cursor)
  }

  /** A step taken after the failure level passed its maximum declares bankruptcy:
      the price is pinned to the floor, the level cleared, and no draw is taken. */
  lemma BankruptcyDeclared(s: StockState, stream: Stream, at: nat)
    requires WellFormed(s) && s.variant.failureLevel > MaxFailureLevel
    ensures var r := Step(s, stream, at);
      r.next.bankrupt && r.next.variant.failureLevel == 0 && r.next.price == MinimumPrice
      && r.returned == MinimumPrice && r.next.signs == s.signs && r.cursor == at
  {
  }

  /** A step taken while bankrupt resets the stock to its defaults, taking no draw. */
  lemma ResetAfterBankruptcy(s: StockState, stream: Stream, at: nat)
    requires WellFormed(s) && s.bankrupt
    ensures var r := Step(s, stream, at);
      r.next == Default() && r.next.signs == [Positive, Positive, Positive]
      && r.returned == DefaultPrice && r.cursor == at
  {
  }

  /** On a normal step the clamped price is scaled by a factor of at least one. */
  lemma NormalStepPrice(s: StockState, stream: Stream, at: nat)
    requires WellFormed(s) && !s.bankrupt && s.variant.failureLevel <= MaxFailureLevel
    ensures Step(s, stream, at).next.price
      >= MinimumPrice * (1.0 + s.variant.failureLevel as real * LevelFactor)
  {
  }

  /** On a normal step a failing level advances by exactly one, and a healthy
      level becomes one exactly when the last draw taken is at most `FailChance`. */
  lemma FailureLevelProgress(s: StockState, stream: Stream, at: nat)
    requires WellFormed(s) && !s.bankrupt && s.variant.failureLevel <= MaxFailureLevel
    ensures var r := Step(s, stream, at);
      && (s.variant.failureLevel > 0 ==> r.next.variant.failureLevel == s.variant.failureLevel + 1)
      && (s.variant.failureLevel == 0 ==>
            r.cursor > at
            && (r.next.variant.failureLevel == 1 <==> stream(r.cursor - 1) <= FailChance)
            && (r.next.variant.failureLevel == 0 || r.next.variant.failureLevel == 1))
  {
  }

  /** On a normal step the three uniform samples are drawn first; then the sign of
      slot `j` changes exactly when its term is included and its flip draw is at
      most `FlipChance`, and the vector keeps its length. */
  lemma SignChangesOnlyWhenIncluded(s: StockState, stream: Stream, at: nat, j: nat)
    requires WellFormed(s) && !s.bankrupt && s.variant.failureLevel <= MaxFailureLevel
    requires j < 3
    ensures var r := Step(s, stream, at);
      var g := GatePosition(stream, at + 3, 0, j);
      && |r.next.signs| == 3
      && r.next.signs[j] == if stream(g) <= IncludeChance && stream(g + 1) <= FlipChance then Negated(s.signs[j]) else s.signs[j]
  {
    var uniforms := [Scale(stream(at), 8.0, 10.0), Scale(stream(at + 1), 5.0, 7.0), Scale(stream(at + 2), 5.0, 10.0)];
    TermSign(s.signs, s.price, uniforms, stream, at + 3, 0, j);
  }
}
