/** The mutable stock object (`Stock` and its three subclasses, as one class over
    a tagged variant), the batch advance, and the specifications they meet. */
module Stocks {
  import opened Signs
  import opened Results
  import opened Randomness
  import opened StockBase
  import BabyStock
  import RiskyStock
  import MemeStock

  /** The invariant of the stock's own variant. */
  predicate WellFormed(s: StockState)
  {
    match s.variant
    case Baby(_) => BabyStock.WellFormed(s)
    case Risky(_) => RiskyStock.WellFormed(s)
    case Meme(_, _) => MemeStock.WellFormed(s)
  }

  /** Whether two variants are the same subclass. */
  predicate SameKind(a: Variant, b: Variant)
  {
    (a.Baby? && b.Baby?) || (a.Risky? && b.Risky?) || (a.Meme? && b.Meme?)
  }

  /** The defaults `resetValues()` restores, for the kind of `v`. */
  function Default(v: Variant): (s: StockState)
    ensures WellFormed(s) && SameKind(s.variant, v) && !s.bankrupt
  {
    match v
    case Baby(_) => BabyStock.Default()
    case Risky(_) => RiskyStock.Default()
    case Meme(_, _) => MemeStock.Default()
  }

  /** One `advance()` of whichever variant `s` is. */
  function Step(s: StockState, stream: Stream, at: nat): (r: StepResult)
    requires WellFormed(s)
    ensures WellFormed(r.next) && SameKind(r.next.variant, s.variant)
    ensures r.next.price >= MinimumPrice && |r.next.signs| == |s.signs|
    ensures r.cursor >= at
    ensures r.returned >= MinimumPrice
    ensures !(s.variant.Meme? && s.variant.failing && !s.bankrupt) ==> r.returned == r.next.price
  {
    match s.variant
    case Baby(_) => BabyStock.Step(s, stream, at)
    case Risky(_) => RiskyStock.Step(s, stream, at)
    case Meme(_, _) => MemeStock.Step(s, stream, at)
  }

  /** The snapshots, final state and draw position after `n` single steps. */
  datatype Trace = Trace(snapshots: seq<Snapshot>, last: StockState, cursor: nat)

  /** `n` single steps in sequence, recording (price, bankrupt) after each. */
  function Run(s: StockState, stream: Stream, at: nat, n: nat): (t: Trace)
    requires WellFormed(s)
    ensures |t.snapshots| == n
    ensures WellFormed(t.last) && SameKind(t.last.variant, s.variant) && t.cursor >= at
    ensures n > 0 ==> t.snapshots[n - 1] == SnapshotOf(t.last)
    ensures forall i :: 0 <= i < n ==> t.snapshots[i].price >= MinimumPrice
  {
    if n == 0 then Trace([], s, at)
    else
      var before := Run(s, stream, at, n - 1);
      var step := Step(before.last, stream, before.cursor);
      Trace(before.snapshots + [SnapshotOf(step.next)], step.next, step.cursor)
  }

  /** Snapshot `i` of a run is the state after the first `i + 1` steps. */
  lemma {:induction false} RunSnapshots(s: StockState, stream: Stream, at: nat, n: nat, i: nat)
    requires WellFormed(s) && i < n
    ensures Run(s, stream, at, n).snapshots[i] == SnapshotOf(Run(s, stream, at, i + 1).last)
  {
    if i + 1 < n {
      RunSnapshots(s, stream, at, n - 1, i);
      var before := Run(s, stream, at, n - 1);
      var step := Step(before.last, stream, before.cursor);
      assert Run(s, stream, at, n).snapshots == before.snapshots + [SnapshotOf(step.next)];
    }
  }

  /** A run of `n` steps begins with the run of any `m <= n` steps. */
  lemma RunPrefix(s: StockState, stream: Stream, at: nat, m: nat, n: nat)
    requires WellFormed(s) && m <= n
    ensures Run(s, stream, at, n).snapshots[..m] == Run(s, stream, at, m).snapshots
  {
    var longer, shorter := Run(s, stream, at, n).snapshots, Run(s, stream, at, m).snapshots;
    forall k | 0 <= k < m
      ensures longer[k] == shorter[k]
    {
      RunSnapshots(s, stream, at, n, k);
      RunSnapshots(s, stream, at, m, k);
    }
  }

  /** Whether `s` is a Baby or Risky stock (the ones with a graduated failure level). */
  predicate Graduated(s: StockState)
  {
    s.variant.Baby? || s.variant.Risky?
  }

  /** A failing Baby or Risky stock climbs one level per step, whatever the draws. */
  lemma {:induction false} FailureClimbs(s: StockState, stream: Stream, at: nat, j: nat)
    requires WellFormed(s) && Graduated(s) && !s.bankrupt
    requires 1 <= s.variant.failureLevel && j <= 6 - s.variant.failureLevel
    ensures var t := Run(s, stream, at, j);
      Graduated(t.last) && !t.last.bankrupt && t.last.variant.failureLevel == s.variant.failureLevel + j
  {
    if j > 0 {
      FailureClimbs(s, stream, at, j - 1);
      var before := Run(s, stream, at, j - 1);
      if before.last.variant.Baby? {
        BabyStock.FailureLevelProgress(before.last, stream, before.cursor);
      } else {
        RiskyStock.FailureLevelProgress(before.last, stream, before.cursor);
      }
    }
  }

  /** A Baby or Risky stock past its maximum level is declared bankrupt at the floor price. */
  lemma DeclareStep(s: StockState, stream: Stream, at: nat)
    requires WellFormed(s) && Graduated(s) && s.variant.failureLevel == 6
    ensures var r := Step(s, stream, at);
      Graduated(r.next) && r.next.bankrupt && SnapshotOf(r.next) == Snapshot(MinimumPrice, true)
  {
    if s.variant.Baby? {
      BabyStock.BankruptcyDeclared(s, stream, at);
    } else {
      RiskyStock.BankruptcyDeclared(s, stream, at);
    }
  }

  /** A bankrupt stock of any kind is back at its kind's defaults one step later. */
  lemma ResetStep(s: StockState, stream: Stream, at: nat)
    requires WellFormed(s) && s.bankrupt
    ensures Step(s, stream, at).next == Default(s.variant)
  {
    match s.variant
    case Baby(_) => BabyStock.ResetAfterBankruptcy(s, stream, at);
    case Risky(_) => RiskyStock.ResetAfterBankruptcy(s, stream, at);
    case Meme(_, _) => MemeStock.ResetAfterBankruptcy(s, stream, at);
  }

  /** The death spiral: a Baby or Risky stock at failure level `L >= 1` is declared
      bankrupt (at the floor price) after exactly `7 - L` steps and is back at its
      defaults one step later, whatever the draws. */
  lemma {:induction false} DeathSpiral(s: StockState, stream: Stream, at: nat)
    requires WellFormed(s) && Graduated(s) && !s.bankrupt && s.variant.failureLevel >= 1
    ensures var n := 7 - s.variant.failureLevel;
      && Run(s, stream, at, n).snapshots[n - 1] == Snapshot(MinimumPrice, true)
      && Run(s, stream, at, n + 1).last == Default(s.variant)
  {
    var n := 7 - s.variant.failureLevel;
    FailureClimbs(s, stream, at, n - 1);
    var t := Run(s, stream, at, n - 1);
    var t' := Run(s, stream, at, n);
    DeclareStep(t.last, stream, t.cursor);
    ResetStep(t'.last, stream, t'.cursor);
    assert SameKind(t'.last.variant, s.variant);
  }

  /** A stock object: its persisted fields, its variant's counters and its own random source. */
  class Stock {
    var price: real
    var signVector: seq<Sign>
    var bankrupt: bool
    var variant: Variant
    const random: Random

    /** The value the object currently represents. */
    function State(): StockState
      reads this
    {
      StockState(price, signVector, bankrupt, variant)
    }

    ghost predicate Valid()
      reads this
    {
      WellFormed(State())
    }

    /** Stores the given fields (the sign vector as a value, hence a copy) and
        creates a private random source over `stream`. */
    constructor Init(price: real, signVector: seq<Sign>, bankrupt: bool, variant: Variant, stream: Stream)
      ensures State() == StockState(price, signVector, bankrupt, variant)
      ensures fresh(random) && random.stream == stream && random.pos == 0
    {
      this.price := price;
      this.signVector := signVector;
      this.bankrupt := bankrupt;
      this.variant := variant;
      random := new Random(stream);
    }

    /** `getPrice()`: the current price, which never lies below the floor. */
    function GetPrice(): (p: real)
      reads this
      ensures p == State().price
      ensures Valid() ==> p >= MinimumPrice
    {
      price
    }

    /** `isBankrupt()`: a bankrupt stock is never failing at the same time. */
    function IsBankrupt(): (b: bool)
      reads this
      ensures b == State().bankrupt
      ensures Valid() && b ==> if variant.Meme? then !variant.failing else variant.failureLevel == 0
    {
      bankrupt
    }

    /** `uniformRandom(min, max)`: scales the next draw into [min, max). */
    method UniformRandom(min: real, max: real) returns (r: real)
      modifies random
      ensures r == Scale(random.stream(old(random.pos)), min, max)
      ensures random.pos == old(random.pos) + 1
      ensures min < max ==> min <= r < max
    {
      var d := random.Next();
      r := d * (max - min) + min;
    }

    /** `resetValues()` of the stock's own variant. */
    method ResetValues()
      modifies this
      ensures State() == Default(old(variant))
      ensures Valid()
    {
      match variant
      case Baby(_) =>
        price := BabyStock.DefaultPrice;
        signVector := BabyStock.DefaultSigns;
        bankrupt := false;
        variant := Baby(0);
      case Risky(_) =>
        price := RiskyStock.DefaultPrice;
        signVector := RiskyStock.DefaultSigns;
        bankrupt := false;
        variant := Risky(0);
      case Meme(_, _) =>
        price := MemeStock.DefaultPrice;
        signVector := MemeStock.DefaultSigns;
        bankrupt := false;
        variant := Meme(false, 0);
    }

    /** `advance()`: one step of whichever variant this stock is. */
    method Advance() returns (r: real)
      requires Valid()
      modifies this, random
      ensures Valid()
      ensures Step(old(State()), random.stream, old(random.pos)) == StepResult(State(), r, random.pos)
    {
      match variant
      case Baby(_) => r := AdvanceBaby();
      case Risky(_) => r := AdvanceRisky();
      case Meme(_, _) => r := AdvanceMeme();
    }

    /** `advance(numberOfTimes)`: an argument error for fewer than one step, and
        otherwise exactly that many single steps with one snapshot after each. */
    method AdvanceTimes(n: int) returns (r: Result<seq<Snapshot>>)
      requires Valid()
      modifies this, random
      ensures Valid()
      ensures n < 1 ==> r == Err(IllegalArgument) && State() == old(State()) && random.pos == old(random.pos)
      ensures n >= 1 ==>
        var t := Run(old(State()), random.stream, old(random.pos), n);
        r == Ok(t.snapshots) && State() == t.last && random.pos == t.cursor
    {
      if n < 1 {
        return Err(IllegalArgument);
      }
      var states: seq<Snapshot> := [];
      var i := 0;
      while i < n
        invariant 0 <= i <= n && Valid()
        invariant Run(old(State()), random.stream, old(random.pos), i) == Trace(states, State(), random.pos)
      {
        var ignored := Advance();
        states := states + [Snapshot(GetPrice(), IsBankrupt())];
        i := i + 1;
      }
      return Ok(states);
    }

    /** `BabyStock.advance()`. */
    method AdvanceBaby() returns (r: real)
      requires Valid() && variant.Baby?
      modifies this, random
      ensures Valid()
      ensures BabyStock.Step(old(State()), random.stream, old(random.pos)) == StepResult(State(), r, random.pos)
    {
      if variant.failureLevel > BabyStock.MaxFailureLevel {
        bankrupt := true;
        variant := Baby(0);
        price := MinimumPrice;
        return price;
      }
      if bankrupt {
        ResetValues();
        return price;
      }
      r := BabyMove();
    }

    /** The normal step of `BabyStock.advance()`: neither bankrupt nor past the maximum level. */
    method BabyMove() returns (r: real)
      requires Valid() && variant.Baby? && !bankrupt && variant.failureLevel <= BabyStock.MaxFailureLevel
      modifies this, random
      ensures Valid()
      ensures BabyStock.Move(old(State()), random.stream, old(random.pos)) == StepResult(State(), r, random.pos)
    {
      AddBabyTerms();
      Settle(BabyStock.LevelFactor, BabyStock.FailChance);
      return price;
    }

    /** `RiskyStock.advance()`. */
    method AdvanceRisky() returns (r: real)
      requires Valid() && variant.Risky?
      modifies this, random
      ensures Valid()
      ensures RiskyStock.Step(old(State()), random.stream, old(random.pos)) == StepResult(State(), r, random.pos)
    {
      if variant.failureLevel > RiskyStock.MaxFailureLevel {
        bankrupt := true;
        variant := Risky(0);
        price := MinimumPrice;
        return price;
      }
      if bankrupt {
        ResetValues();
        return price;
      }
      r := RiskyMove();
    }

    /** The normal step of `RiskyStock.advance()`: neither bankrupt nor past the maximum level. */
    method RiskyMove() returns (r: real)
      requires Valid() && variant.Risky? && !bankrupt && variant.failureLevel <= RiskyStock.MaxFailureLevel
      modifies this, random
      ensures Valid()
      ensures RiskyStock.Move(old(State()), random.stream, old(random.pos)) == StepResult(State(), r, random.pos)
    {
      var u0 := UniformRandom(8.0, 10.0);
      var u1 := UniformRandom(5.0, 7.0);
      var u2 := UniformRandom(5.0, 10.0);
      AddGatedTerms([u0, u1, u2]);
      var spikeChance := if variant.failureLevel == 0 then RiskyStock.HealthySpikeChance
                         else RiskyStock.SpikeTable[variant.failureLevel - 1];
      AddOptionalTerm(spikeChance, 25.0, 75.0);
      Settle(RiskyStock.LevelFactor, RiskyStock.FailChance);
      return price;
    }

    /** `MemeStock.advance()`. */
    method AdvanceMeme() returns (r: real)
      requires Valid() && variant.Meme?
      modifies this, random
      ensures Valid()
      ensures MemeStock.Step(old(State()), random.stream, old(random.pos)) == StepResult(State(), r, random.pos)
    {
      if bankrupt {
        ResetValues();
        return price;
      }
      if variant.failing {
        variant := Meme(false, 0);
        bankrupt := true;
        return MinimumPrice;
      }
      r := MemeMove();
    }

    /** A normal `MemeStock.advance()`, neither bankrupt nor failing. */
    method MemeMove() returns (r: real)
      requires Valid() && variant.Meme? && !bankrupt && !variant.failing
      modifies this`price, this`signVector, this`variant, random
      ensures Valid()
      ensures MemeStock.Move(old(State()), random.stream, old(random.pos)) == StepResult(State(), r, random.pos)
    {
      if variant.strikes == MemeStock.MaxStrikes {
        MarkAllNegative();
        variant := variant.(failing := true);
      }
      AddTrackedTerms();
      SubtractFallingTerms();
      price := Clamp(price);
      if !variant.failing {
        var d := random.Next();
        if d <= price / MemeStock.StrikeScale {
          variant := variant.(strikes := variant.strikes + 1);
        }
      }
      return price;
    }

    /** The terms of a normal `BabyStock.advance()`: the flips, the drift and the shock. */
    method AddBabyTerms()
      requires |signVector| == 2
      modifies this`signVector, this`price, random
      ensures Terms(signVector, price, random.pos)
        == BabyStock.Moves(old(signVector), old(price), random.stream, old(random.pos))
    {
      FlipEachSign();
      AddDrift();
      AddOptionalTerm(BabyStock.ShockChance, 5.0, 15.0);
    }

    /** The two always-present terms of `BabyStock.advance()`. */
    method AddDrift()
      requires |signVector| == 2
      modifies this`price, random
      ensures price == BabyStock.Drift(old(price), signVector, random.stream, old(random.pos))
      ensures random.pos == old(random.pos) + 2
    {
      var u := UniformRandom(1.5, 3.0);
      price := price + Signed(signVector[0], u);
      u := UniformRandom(1.5, 2.0);
      price := price + Signed(signVector[1], u);
    }

    /** The flip loop of `BabyStock.advance()`: every sign flips on its own draw. */
    method FlipEachSign()
      modifies this`signVector, random
      ensures signVector == BabyStock.FlipSigns(old(signVector), random.stream, old(random.pos))
      ensures random.pos == old(random.pos) + |signVector|
    {
      var i := 0;
      while i < |signVector|
        invariant 0 <= i <= |signVector| == |old(signVector)|
        invariant random.pos == old(random.pos) + i
        invariant forall j :: 0 <= j < i ==>
          signVector[j] == if random.stream(old(random.pos) + j) <= BabyStock.FlipChance
                           then Negated(old(signVector)[j]) else old(signVector)[j]
        invariant forall j :: i <= j < |signVector| ==> signVector[j] == old(signVector)[j]
      {
        var d := random.Next();
        if d <= BabyStock.FlipChance {
          signVector := signVector[i := Negated(signVector[i])];
        }
        i := i + 1;
      }
    }

    /** An optional signed term: the shock of `BabyStock`, the spike of `RiskyStock`. */
    method AddOptionalTerm(chance: real, low: real, high: real)
      requires low < high
      modifies this`price, random
      ensures Partial(price, random.pos) == OptionalTerm(old(price), chance, low, high, random.stream, old(random.pos))
    {
      var d := random.Next();
      if d <= chance {
        var c := random.Next();
        var sign := if c <= 0.5 then Positive else Negative;
        var u := UniformRandom(low, high);
        price := price + Signed(sign, u);
      }
    }

    /** The close of a normal Baby or Risky step: the price floor, the failure-level
        multiplier, then the failure-level update. */
    method Settle(levelFactor: real, failChance: real)
      requires (variant.Baby? || variant.Risky?) && variant.failureLevel >= 0 && levelFactor >= 0.0
      modifies this`price, this`variant, random
      ensures price == Amplify(Clamp(old(price)), old(variant.failureLevel), levelFactor)
      ensures SameKind(variant, old(variant))
      ensures Counter(variant.failureLevel, random.pos)
        == NextFailureLevel(old(variant.failureLevel), failChance, random.stream, old(random.pos))
    {
      price := Clamp(price);
      price := Amplify(price, variant.failureLevel, levelFactor);
      UpdateFailureLevel(failChance);
    }

    /** The failure-level update that closes a normal Baby or Risky step. */
    method UpdateFailureLevel(chance: real)
      requires (variant.Baby? || variant.Risky?) && variant.failureLevel >= 0
      modifies this`variant, random
      ensures SameKind(variant, old(variant))
      ensures Counter(variant.failureLevel, random.pos)
        == NextFailureLevel(old(variant.failureLevel), chance, random.stream, old(random.pos))
    {
      if variant.failureLevel > 0 {
        variant := variant.(failureLevel := variant.failureLevel + 1);
      }
      if variant.failureLevel == 0 {
        var d := random.Next();
        if d <= chance {
          variant := variant.(failureLevel := variant.failureLevel + 1);
        }
      }
    }

    /** The loop over the three gated terms of `RiskyStock.advance()`. */
    method AddGatedTerms(uniforms: seq<real>)
      requires |uniforms| == |signVector|
      modifies this`signVector, this`price, random
      ensures Terms(signVector, price, random.pos)
        == RiskyStock.IncludeTerms(old(signVector), old(price), uniforms, random.stream, old(random.pos), 0)
    {
      var i := 0;
      while i < |uniforms|
        invariant 0 <= i <= |uniforms| == |signVector|
        invariant RiskyStock.IncludeTerms(signVector, price, uniforms, random.stream, random.pos, i)
          == RiskyStock.IncludeTerms(old(signVector), old(price), uniforms, random.stream, old(random.pos), 0)
      {
        ghost var remaining := RiskyStock.IncludeTerms(signVector, price, uniforms, random.stream, random.pos, i);
        var gate := random.Next();
        if gate <= RiskyStock.IncludeChance {
          var flip := random.Next();
          if flip <= RiskyStock.FlipChance {
            signVector := signVector[i := Negated(signVector[i])];
          }
          price := price + Signed(signVector[i], uniforms[i]);
        }
        assert remaining == RiskyStock.IncludeTerms(signVector, price, uniforms, random.stream, random.pos, i + 1);
        i := i + 1;
      }
    }

    /** The strike-out loop of `MemeStock.advance()`: every sign becomes negative. */
    method MarkAllNegative()
      modifies this`signVector
      ensures signVector == MemeStock.AllNegative(|old(signVector)|)
    {
      var i := 0;
      while i < |signVector|
        invariant 0 <= i <= |signVector| == |old(signVector)|
        invariant forall j :: 0 <= j < i ==> signVector[j] == Negative
      {
        signVector := signVector[i := Negative];
        i := i + 1;
      }
    }

    /** The loop over the two tracked terms of `MemeStock.advance()`. */
    method AddTrackedTerms()
      modifies this`price, random
      ensures price == old(price) + MemeStock.SignedTerms(signVector, random.stream, old(random.pos))
      ensures random.pos == old(random.pos) + |signVector|
    {
      var j := 0;
      while j < |signVector|
        invariant 0 <= j <= |signVector|
        invariant random.pos == old(random.pos) + j
        invariant price == old(price) + MemeStock.SignedTerms(signVector[..j], random.stream, old(random.pos))
      {
        var u := UniformRandom(1.0, 20.0);
        assert signVector[..j + 1][..j] == signVector[..j];
        price := price + Signed(signVector[j], u);
        j := j + 1;
      }
      assert signVector[..|signVector|] == signVector;
    }

    /** The loop over the two always-negative terms of `MemeStock.advance()`. */
    method SubtractFallingTerms()
      modifies this`price, random
      ensures price == old(price) - MemeStock.FallingSum(random.stream, old(random.pos), MemeStock.FallingTerms)
      ensures random.pos == old(random.pos) + MemeStock.FallingTerms
    {
      var m := 0;
      while m < MemeStock.FallingTerms
        invariant 0 <= m <= MemeStock.FallingTerms
        invariant random.pos == old(random.pos) + m
        invariant price == old(price) - MemeStock.FallingSum(random.stream, old(random.pos), m)
      {
        var u := UniformRandom(1.0, 10.0);
        price := price - u;
        m := m + 1;
      }
    }
  }

  /** `new BabyStock(price, signVector, bankrupt, failureLevel)`. */
  method NewBabyStock(price: real, signVector: seq<Sign>, bankrupt: bool, failureLevel: int, stream: Stream)
    returns (r: Result<Stock>)
    ensures r.Err? <==> BabyStock.Check(price, signVector, bankrupt, failureLevel).Fail?
    ensures r.Err? ==> r.error == BabyStock.Check(price, signVector, bankrupt, failureLevel).error
    ensures r.Ok? ==>
      && fresh(r.value) && fresh(r.value.random) && r.value.Valid()
      && r.value.State() == StockState(price, signVector, bankrupt, Baby(failureLevel))
      && r.value.random.stream == stream && r.value.random.pos == 0
  {
    var check := BabyStock.Check(price, signVector, bankrupt, failureLevel);
    if check.Fail? {
      return Err(check.error);
    }
    var stock := new Stock.Init(price, signVector, bankrupt, Baby(failureLevel), stream);
    return Ok(stock);
  }

  /** `new RiskyStock(price, signVector, bankrupt, failureLevel)`. */
  method NewRiskyStock(price: real, signVector: seq<Sign>, bankrupt: bool, failureLevel: int, stream: Stream)
    returns (r: Result<Stock>)
    ensures r.Err? <==> RiskyStock.Check(price, signVector, bankrupt, failureLevel).Fail?
    ensures r.Err? ==> r.error == RiskyStock.Check(price, signVector, bankrupt, failureLevel).error
    ensures r.Ok? ==>
      && fresh(r.value) && fresh(r.value.random) && r.value.Valid()
      && r.value.State() == StockState(price, signVector, bankrupt, Risky(failureLevel))
      && r.value.random.stream == stream && r.value.random.pos == 0
  {
    var check := RiskyStock.Check(price, signVector, bankrupt, failureLevel);
    if check.Fail? {
      return Err(check.error);
    }
    var stock := new Stock.Init(price, signVector, bankrupt, Risky(failureLevel), stream);
    return Ok(stock);
  }

  /** `new MemeStock(price, signVector, bankrupt, failing, strikes)`. */
  method NewMemeStock(price: real, signVector: seq<Sign>, bankrupt: bool, failing: bool, strikes: int, stream: Stream)
    returns (r: Result<Stock>)
    ensures r.Err? <==> MemeStock.Check(price, signVector, bankrupt, failing, strikes).Fail?
    ensures r.Err? ==> r.error == MemeStock.Check(price, signVector, bankrupt, failing, strikes).error
    ensures r.Ok? ==>
      && fresh(r.value) && fresh(r.value.random) && r.value.Valid()
      && r.value.State() == StockState(price, signVector, bankrupt, Meme(failing, strikes))
      && r.value.random.stream == stream && r.value.random.pos == 0
  {
    var check := MemeStock.Check(price, signVector, bankrupt, failing, strikes);
    if check.Fail? {
      return Err(check.error);
    }
    var stock := new Stock.Init(price, signVector, bankrupt, Meme(failing, strikes), stream);
    return Ok(stock);
  }

  /** The default constructors: each goes through the checking constructor with
      the variant's defaults, which always pass. */
  method NewDefaultStock(kind: Variant, stream: Stream) returns (stock: Stock)
    ensures fresh(stock) && fresh(stock.random) && stock.Valid()
    ensures stock.State() == Default(kind)
    ensures stock.random.stream == stream && stock.random.pos == 0
  {
    var r: Result<Stock>;
    match kind {
      case Baby(_) =>
        assert BabyStock.WellFormed(BabyStock.Default());
        r := NewBabyStock(BabyStock.DefaultPrice, BabyStock.DefaultSigns, false, 0, stream);
      case Risky(_) =>
        assert RiskyStock.WellFormed(RiskyStock.Default());
        r := NewRiskyStock(RiskyStock.DefaultPrice, RiskyStock.DefaultSigns, false, 0, stream);
      case Meme(_, _) =>
        assert MemeStock.WellFormed(MemeStock.Default());
        r := NewMemeStock(MemeStock.DefaultPrice, MemeStock.DefaultSigns, false, false, 0, stream);
    }
    stock := r.value;
  }
}
