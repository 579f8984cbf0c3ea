# MCStonks stock engine in Dafny

MCStonks generates fake "stock" prices for a Minecraft server. Each stock holds:

- a price that never goes below the floor of 0.25;
- a sign vector of `POSITIVE`/`NEGATIVE` entries that steer its price equation;
- a bankrupt flag;
- the counters of its kind.

Each `advance()` moves the price once, using random draws. There are three kinds:

- **`BabyStock`**: two drift terms and a rare shock. It has a graduated failure level, 1 to 5, which ends in one cycle of bankruptcy at the floor and then a reset.
- **`RiskyStock`**: three gated terms whose signs flip only when they are included. It has a spike term whose chance escalates with the failure level, and the same failure cycle as `BabyStock`.
- **`MemeStock`**: two tracked terms and two always-negative terms. Strikes accrue with a chance proportional to the price. The third strike makes the stock fail, a failing stock goes bankrupt on the next step, and a bankrupt one resets on the step after.

`Main` trims the program arguments and splits clusters such as `-vh` into `-v`, `-h`. It then pops them one by one: it shows the help, rejects an unknown dashed option, or runs with a verbosity flag and the first positional argument as the path.

How the model is laid out:

- **`Signs`** (`signs.dfy`): the `Sign` enum, `value()`, `fromValue(int)` and `negative()`.
- **`Randomness`** (`random.dfy`): the random source. It is a class over an infinite stream of draws in [0, 1) plus a cursor. `nextFloat()` and `nextDouble()` are each one draw.
- **`StockBase`** (`stock_base.dfy`): what the abstract `Stock` shares:
  - the floor;
  - the value-level `StockState` and the `Stock.State` snapshot;
  - the pieces every kind uses: the optional signed term, the floor clamp, the failure-level multiplier and the failure-level update.
- **`BabyStock`**, **`RiskyStock`**, **`MemeStock`**: each kind's defaults, its constructor checks (an `Outcome`, in the order the constructor makes them), its invariant, and its step as a pure function `Step(state, stream, position)`. The lemmas about each kind's behaviour are stated over `Step`.
- **`Stocks`** (`stocks.dfy`):
  - the class `Stock`, with the fields the Java objects update in place: `price`, `signVector`, `bankrupt` and the kind's counters. The counters are a tagged `Variant`, so the subclass is the tag;
  - its imperative `advance()` for each kind, split into the phases of the Java method. Each phase is proved equal to the matching pure function;
  - the batch `advance(int)` loop, proved equal to `Run`, a fold of `Step`;
  - the checking constructors;
  - lemmas about runs: snapshots, prefixes, and the death spiral.
- **`CommandLine`** (`main.dfy`):
  - `String.trim()`;
  - the cluster split and `convertArguments` as a nested-loop method over `seq<string>`;
  - the classification loop of `main`, proved equal to a loop-free reference, `Decision`.

Behaviours of the code worth knowing, which the model keeps as they are:

- A price below the floor, a sign vector of the wrong length, and a failure level or strike count out of range are rejected with `IllegalArgumentException` (`IllegalArgument`). Only the combinations of flags are rejected with `IllegalStateException` (`IllegalState`).
- When a failing `MemeStock` is declared bankrupt, the step returns 0.25 but leaves the stored price unchanged (MemeStock.java:115-126).
- `Main` sets `options.verbose`, while the options class it fills has a `quiet` field. The model keeps a `verbose` flag, as `Main` does.

## Model

| member | source | states |
|---|---|---|
| Signs.Value | src/main/java/com/nchroniaris/mcstonks/stock/Sign.java:40-44 | the value is 1 or -1, and it is 1 exactly for `POSITIVE` |
| Signs.ValueInjective | src/main/java/com/nchroniaris/mcstonks/stock/Sign.java:8-9 | the two members have different values |
| Signs.Find | src/main/java/com/nchroniaris/mcstonks/stock/Sign.java:27-29 | the search over the members finds a member with the given value exactly when one exists, and only such a member |
| Signs.FromValue | src/main/java/com/nchroniaris/mcstonks/stock/Sign.java:25-33 | succeeds exactly for 1 and -1, with the member whose value it is; fails with an argument error for any other value |
| Signs.FromValueRoundTrip | src/main/java/com/nchroniaris/mcstonks/stock/Sign.java:25-44 | `fromValue(s.value()) == s` for both signs |
| Signs.Negated | src/main/java/com/nchroniaris/mcstonks/stock/Sign.java:51-55 | `negative()` never returns its receiver, and its value is the negated value |
| Signs.NegatedInvolution | src/main/java/com/nchroniaris/mcstonks/stock/Sign.java:51-55 | negating twice gives the sign back |
| Signs.Signed | src/main/java/com/nchroniaris/mcstonks/stock/BabyStock.java:132 | `sign.value() * x` is `x` for `POSITIVE` and `-x` for `NEGATIVE` |
| Signs.SignedIsProduct | src/main/java/com/nchroniaris/mcstonks/stock/BabyStock.java:132 | that signed term equals the product of the value and `x` |
| Randomness.Scale | src/main/java/com/nchroniaris/mcstonks/stock/Stock.java:65-70 | `r * (max - min) + min` lies in [min, max) when min < max, and is min when they are equal |
| Randomness.Random.constructor | src/main/java/com/nchroniaris/mcstonks/stock/Stock.java:54 | a fresh source over the given stream, at position 0 |
| Randomness.Random.Next | src/main/java/com/nchroniaris/mcstonks/stock/Stock.java:68 | returns the draw at the cursor and advances the cursor by one |
| StockBase.CoinSign | src/main/java/com/nchroniaris/mcstonks/stock/BabyStock.java:141 | the term's sign is `POSITIVE` exactly on a draw of at most 0.5 |
| StockBase.OptionalTerm | src/main/java/com/nchroniaris/mcstonks/stock/BabyStock.java:138-144 | without the gate, the price is unchanged and one draw is taken; with it, three draws are taken and the price moves by a sample of [low, high) in either direction |
| StockBase.Clamp | src/main/java/com/nchroniaris/mcstonks/stock/BabyStock.java:147 | the result is at least the floor and at least the price, and is one of the two |
| StockBase.CheckPrice | src/main/java/com/nchroniaris/mcstonks/stock/Stock.java:44-45 | a price below 0.25 is rejected with an argument error, any other passes |
| StockBase.Amplify | src/main/java/com/nchroniaris/mcstonks/stock/BabyStock.java:154 | the factor `1 + level * step` never lowers a non-negative price, keeps a floor price at or above `0.25 * (1 + level * step)`, and is 1 at level 0 |
| StockBase.NextFailureLevel | src/main/java/com/nchroniaris/mcstonks/stock/BabyStock.java:157-162 | a failing level rises by one without a draw; level 0 takes one draw and becomes 1 exactly when that draw is at most the chance |
| BabyStock.Default | src/main/java/com/nchroniaris/mcstonks/stock/BabyStock.java:64-77 | the defaults (price 50, two positive signs, not bankrupt, level 0) satisfy the invariant |
| BabyStock.Check | src/main/java/com/nchroniaris/mcstonks/stock/BabyStock.java:43-62 | construction passes exactly when the invariant holds; a failure is an illegal-state error exactly when only the failing-and-bankrupt check fails |
| BabyStock.FlipSigns | src/main/java/com/nchroniaris/mcstonks/stock/BabyStock.java:127-129 | entry `i` changes exactly when draw `i` is at most 0.20, and then it is negated; the length is kept |
| BabyStock.Drift | src/main/java/com/nchroniaris/mcstonks/stock/BabyStock.java:131-135 | the two drift terms move the price by less than 5; with two positive signs it rises by at least 3, with two negative signs it falls by at least 3 |
| BabyStock.Moves | src/main/java/com/nchroniaris/mcstonks/stock/BabyStock.java:125-144 | the terms of a normal step leave exactly the flipped signs and take at least five draws |
| BabyStock.MovesPrice | src/main/java/com/nchroniaris/mcstonks/stock/BabyStock.java:131-144 | the price after the terms is the drift on the flipped signs when the shock's gate draw is above 0.05 (five draws), and otherwise that drift moved by 5 to 15 in the direction of the coin draw (seven draws); in all it moves by less than 20 |
| BabyStock.Move | src/main/java/com/nchroniaris/mcstonks/stock/BabyStock.java:122-164 | a normal step keeps the invariant, is not bankrupt, returns the new price and takes at least five draws |
| BabyStock.Step | src/main/java/com/nchroniaris/mcstonks/stock/BabyStock.java:79-166 | every step keeps the constructor's invariant and returns the stored price |
| BabyStock.BankruptcyDeclared | src/main/java/com/nchroniaris/mcstonks/stock/BabyStock.java:101-111 | past level 5: bankrupt, level 0, price and return value 0.25, signs kept, no draw taken |
| BabyStock.ResetAfterBankruptcy | src/main/java/com/nchroniaris/mcstonks/stock/BabyStock.java:114-119 | a bankrupt stock goes back to its defaults, returns 50 and takes no draw |
| BabyStock.NormalStepPrice | src/main/java/com/nchroniaris/mcstonks/stock/BabyStock.java:146-154 | after a normal step the price is at least `0.25 * (1 + 0.04 * level)` |
| BabyStock.FailureLevelProgress | src/main/java/com/nchroniaris/mcstonks/stock/BabyStock.java:156-162 | levels 1 to 5 rise by exactly one; level 0 becomes 1 exactly when the last draw is at most 0.002, and otherwise stays 0 |
| BabyStock.SignsFlipInPlace | src/main/java/com/nchroniaris/mcstonks/stock/BabyStock.java:125-129 | on a normal step the sign vector keeps length 2 and entry `i` changes exactly when its draw is at most 0.20 |
| RiskyStock.Default | src/main/java/com/nchroniaris/mcstonks/stock/RiskyStock.java:59-72 | the defaults (price 100, three positive signs, not bankrupt, level 0) satisfy the invariant |
| RiskyStock.Check | src/main/java/com/nchroniaris/mcstonks/stock/RiskyStock.java:38-57 | construction passes exactly when the invariant holds; a failure is an illegal-state error exactly when only the failing-and-bankrupt check fails |
| RiskyStock.IncludeTerms | src/main/java/com/nchroniaris/mcstonks/stock/RiskyStock.java:135-151 | the loop over the gated terms keeps the vector's length, leaves the slots already processed alone, and takes at least one draw per term |
| RiskyStock.TermSign | src/main/java/com/nchroniaris/mcstonks/stock/RiskyStock.java:135-151 | slot `j` ends negated exactly when its own gate draw is at most 2/3 and its flip draw is at most 0.40, and is otherwise unchanged |
| RiskyStock.TermSignHere | src/main/java/com/nchroniaris/mcstonks/stock/RiskyStock.java:138-143 | the sign of the term being processed is settled by its own two draws |
| RiskyStock.TermsPrice | src/main/java/com/nchroniaris/mcstonks/stock/RiskyStock.java:135-151 | the price after the loop is the old price plus every included term, each taken with the sign its slot holds afterwards, so a flip is used by the term that caused it |
| RiskyStock.SpikeChance | src/main/java/com/nchroniaris/mcstonks/stock/RiskyStock.java:154-169 | the table is only indexed at 0 to 4; the chance lies between 0.10 and 1 and is 1 at level 5 |
| RiskyStock.SpikeChanceEscalates | src/main/java/com/nchroniaris/mcstonks/stock/RiskyStock.java:154-160 | the spike chance never decreases as the level rises |
| RiskyStock.Move | src/main/java/com/nchroniaris/mcstonks/stock/RiskyStock.java:119-198 | a normal step keeps the invariant, is not bankrupt, returns the new price and takes the three sample draws and at least one per term |
| RiskyStock.Step | src/main/java/com/nchroniaris/mcstonks/stock/RiskyStock.java:74-200 | every step keeps the constructor's invariant and returns the stored price |
| RiskyStock.BankruptcyDeclared | src/main/java/com/nchroniaris/mcstonks/stock/RiskyStock.java:99-109 | past level 5: bankrupt, level 0, price and return value 0.25, signs kept, no draw taken |
| RiskyStock.ResetAfterBankruptcy | src/main/java/com/nchroniaris/mcstonks/stock/RiskyStock.java:112-117 | a bankrupt stock goes back to its defaults, returns 100 and takes no draw |
| RiskyStock.NormalStepPrice | src/main/java/com/nchroniaris/mcstonks/stock/RiskyStock.java:181-188 | after a normal step the price is at least `0.25 * (1 + 0.10 * level)` |
| RiskyStock.FailureLevelProgress | src/main/java/com/nchroniaris/mcstonks/stock/RiskyStock.java:191-196 | levels 1 to 5 rise by exactly one; level 0 becomes 1 exactly when the last draw is at most 0.004, and otherwise stays 0 |
| RiskyStock.SignChangesOnlyWhenIncluded | src/main/java/com/nchroniaris/mcstonks/stock/RiskyStock.java:124-151 | after the three sample draws, a slot changes exactly when its term is included and its flip draw is at most 0.40; the vector keeps length 3 |
| MemeStock.Default | src/main/java/com/nchroniaris/mcstonks/stock/MemeStock.java:66-80 | the defaults (price 1, two positive signs, neither bankrupt nor failing, no strikes) satisfy the invariant |
| MemeStock.Check | src/main/java/com/nchroniaris/mcstonks/stock/MemeStock.java:43-64 | construction passes exactly when the invariant holds; a failure is an illegal-state error exactly when the price and length are fine and the stock is both failing and bankrupt |
| MemeStock.SignedTerms | src/main/java/com/nchroniaris/mcstonks/stock/MemeStock.java:145-150 | the tracked terms together move the price by at most 20 per sign, and with every sign positive they raise it by at least 1 per sign |
| MemeStock.AllNegative | src/main/java/com/nchroniaris/mcstonks/stock/MemeStock.java:132-133 | every entry becomes `NEGATIVE`, and the length is kept |
| MemeStock.FallingSum | src/main/java/com/nchroniaris/mcstonks/stock/MemeStock.java:153-158 | the always-negative terms remove at least 1 each |
| MemeStock.NegativeTermsFall | src/main/java/com/nchroniaris/mcstonks/stock/MemeStock.java:145-150 | with every sign negative, the tracked terms remove at least 1 per sign |
| MemeStock.Step | src/main/java/com/nchroniaris/mcstonks/stock/MemeStock.java:82-174 | every step keeps the constructor's invariant (never failing and bankrupt, strikes 0 to 3, two signs, price at or above the floor); every return value is at least 0.25, and every step except the failing one returns the stored price |
| MemeStock.Move | src/main/java/com/nchroniaris/mcstonks/stock/MemeStock.java:129-172 | a normal step keeps the invariant, is not bankrupt, returns the new price and takes a draw per sign plus the two falling draws |
| MemeStock.ResetAfterBankruptcy | src/main/java/com/nchroniaris/mcstonks/stock/MemeStock.java:107-112 | a bankrupt stock goes back to its defaults, returns 1 and takes no draw |
| MemeStock.FailingBecomesBankrupt | src/main/java/com/nchroniaris/mcstonks/stock/MemeStock.java:115-126 | a failing stock becomes bankrupt, stops failing, loses its strikes and returns 0.25; the stored price and the signs stay as they were, and no draw is taken |
| MemeStock.StrikeOut | src/main/java/com/nchroniaris/mcstonks/stock/MemeStock.java:129-161 | at three strikes both signs become negative and the stock fails; the price ends at most at `max(old price - 4, 0.25)`; exactly four draws are taken and no strike draw |
| MemeStock.StrikeAccrual | src/main/java/com/nchroniaris/mcstonks/stock/MemeStock.java:169-170 | below three strikes, at most one strike accrues, exactly when the fifth draw is at most the new price over 100000 |
| MemeStock.StrikeOutLifecycle | src/main/java/com/nchroniaris/mcstonks/stock/MemeStock.java:107-138 | from three strikes: failing after one step; bankrupt with the floor price returned and no strikes after two; back at the defaults after three, whatever the draws |
| Stocks.Default | src/main/java/com/nchroniaris/mcstonks/stock/Stock.java:76 | each kind's reset state keeps that kind, satisfies its invariant and is not bankrupt |
| Stocks.Step | src/main/java/com/nchroniaris/mcstonks/stock/Stock.java:83 | one step of any kind keeps the kind and the invariant, keeps the price at or above 0.25 and the sign vector's length; the value returned is at least 0.25 and is the new stored price, except on a failing `MemeStock`'s bankruptcy step |
| Stocks.Run | src/main/java/com/nchroniaris/mcstonks/stock/Stock.java:91-108 | `n` steps give exactly `n` snapshots; the last snapshot is the final state, and every snapshot's price is at least 0.25 |
| Stocks.RunSnapshots | src/main/java/com/nchroniaris/mcstonks/stock/Stock.java:100-103 | snapshot `i` is the (price, bankrupt) pair after the first `i + 1` steps |
| Stocks.RunPrefix | src/main/java/com/nchroniaris/mcstonks/stock/Stock.java:100-103 | the first `m` snapshots of a longer batch are the snapshots of a batch of `m` steps |
| Stocks.FailureClimbs | src/main/java/com/nchroniaris/mcstonks/stock/BabyStock.java:156-158 | a failing Baby or Risky stock rises one level per step whatever the draws, and stays out of bankruptcy |
| Stocks.DeclareStep | src/main/java/com/nchroniaris/mcstonks/stock/BabyStock.java:101-111 | at level 6 a Baby or Risky stock is declared bankrupt at the floor |
| Stocks.ResetStep | src/main/java/com/nchroniaris/mcstonks/stock/BabyStock.java:114-119 | a bankrupt stock of any kind is at its kind's defaults one step later |
| Stocks.DeathSpiral | src/main/java/com/nchroniaris/mcstonks/stock/BabyStock.java:100-162 | a Baby or Risky stock at level `L >= 1` records (0.25, bankrupt) after exactly `7 - L` steps and is back at its defaults one step later, whatever the draws |
| Stocks.Stock.Init | src/main/java/com/nchroniaris/mcstonks/stock/Stock.java:41-56 | stores the fields, the sign vector as a value, so the stock has its own copy, and gives the stock a fresh random source |
| Stocks.Stock.GetPrice | src/main/java/com/nchroniaris/mcstonks/stock/Stock.java:115-119 | returns the stored price, which is at least 0.25 on a well-formed stock, and changes nothing |
| Stocks.Stock.IsBankrupt | src/main/java/com/nchroniaris/mcstonks/stock/Stock.java:126-130 | returns the stored flag and changes nothing; a bankrupt well-formed stock is not failing |
| Stocks.Stock.UniformRandom | src/main/java/com/nchroniaris/mcstonks/stock/Stock.java:65-70 | the scaled next draw, in [min, max) when min < max; the source moves by one draw |
| Stocks.Stock.ResetValues | src/main/java/com/nchroniaris/mcstonks/stock/BabyStock.java:64-77 | the state becomes its kind's defaults (for all three kinds) |
| Stocks.Stock.Advance | src/main/java/com/nchroniaris/mcstonks/stock/Stock.java:83 | one in-place step equals `Step` on the old state and the source's position, and keeps the invariant |
| Stocks.Stock.AdvanceTimes | src/main/java/com/nchroniaris/mcstonks/stock/Stock.java:91-108 | fewer than one step is an argument error and changes nothing; otherwise it returns `Run`'s snapshots and leaves `Run`'s final state |
| Stocks.Stock.AdvanceBaby | src/main/java/com/nchroniaris/mcstonks/stock/BabyStock.java:79-166 | the in-place Baby step equals `BabyStock.Step` |
| Stocks.Stock.BabyMove | src/main/java/com/nchroniaris/mcstonks/stock/BabyStock.java:122-164 | the in-place normal Baby step equals `BabyStock.Move` |
| Stocks.Stock.AddBabyTerms | src/main/java/com/nchroniaris/mcstonks/stock/BabyStock.java:125-144 | the flips, drift and shock in place equal `BabyStock.Moves` |
| Stocks.Stock.FlipEachSign | src/main/java/com/nchroniaris/mcstonks/stock/BabyStock.java:127-129 | the flip loop leaves `BabyStock.FlipSigns` of the old vector, one draw per entry |
| Stocks.Stock.AddDrift | src/main/java/com/nchroniaris/mcstonks/stock/BabyStock.java:131-135 | the two drift terms in place equal `BabyStock.Drift`, two draws |
| Stocks.Stock.AddOptionalTerm | src/main/java/com/nchroniaris/mcstonks/stock/BabyStock.java:138-144 | the shock (and the Risky spike) in place equals `OptionalTerm` |
| Stocks.Stock.Settle | src/main/java/com/nchroniaris/mcstonks/stock/BabyStock.java:146-162 | clamp, multiplier and level update in place equal `Clamp`, `Amplify` and `NextFailureLevel`, and the kind is kept |
| Stocks.Stock.UpdateFailureLevel | src/main/java/com/nchroniaris/mcstonks/stock/BabyStock.java:156-162 | the two level updates in place equal `NextFailureLevel` |
| Stocks.Stock.AdvanceRisky | src/main/java/com/nchroniaris/mcstonks/stock/RiskyStock.java:74-200 | the in-place Risky step equals `RiskyStock.Step` |
| Stocks.Stock.RiskyMove | src/main/java/com/nchroniaris/mcstonks/stock/RiskyStock.java:119-198 | the in-place normal Risky step equals `RiskyStock.Move` |
| Stocks.Stock.AddGatedTerms | src/main/java/com/nchroniaris/mcstonks/stock/RiskyStock.java:135-151 | the loop over the gated terms in place equals `RiskyStock.IncludeTerms` |
| Stocks.Stock.AdvanceMeme | src/main/java/com/nchroniaris/mcstonks/stock/MemeStock.java:82-174 | the in-place Meme step equals `MemeStock.Step`, including the unchanged stored price on the failing step |
| Stocks.Stock.MemeMove | src/main/java/com/nchroniaris/mcstonks/stock/MemeStock.java:129-172 | the in-place normal Meme step equals `MemeStock.Move` |
| Stocks.Stock.MarkAllNegative | src/main/java/com/nchroniaris/mcstonks/stock/MemeStock.java:129-133 | the strike-out loop leaves a vector of the same length, all `NEGATIVE` |
| Stocks.Stock.AddTrackedTerms | src/main/java/com/nchroniaris/mcstonks/stock/MemeStock.java:145-150 | the loop over the tracked terms adds each sign times its own sample, one draw per sign |
| Stocks.Stock.SubtractFallingTerms | src/main/java/com/nchroniaris/mcstonks/stock/MemeStock.java:153-158 | the two falling terms subtract `FallingSum`, two draws |
| Stocks.NewBabyStock | src/main/java/com/nchroniaris/mcstonks/stock/BabyStock.java:43-62 | construction fails exactly when `BabyStock.Check` fails, with its error; otherwise the new stock holds the arguments and is well-formed |
| Stocks.NewRiskyStock | src/main/java/com/nchroniaris/mcstonks/stock/RiskyStock.java:38-57 | construction fails exactly when `RiskyStock.Check` fails, with its error; otherwise the new stock holds the arguments and is well-formed |
| Stocks.NewMemeStock | src/main/java/com/nchroniaris/mcstonks/stock/MemeStock.java:43-64 | construction fails exactly when `MemeStock.Check` fails, with its error; otherwise the new stock holds the arguments and is well-formed |
| Stocks.NewDefaultStock | src/main/java/com/nchroniaris/mcstonks/stock/BabyStock.java:27-32 | the default constructors always succeed and give their kind's defaults |
| CommandLine.Trim | src/main/java/com/nchroniaris/mcstonks/core/Main.java:99 | the trimmed argument is no longer than the original and neither starts nor ends with a character up to the space |
| CommandLine.TrimIsInfix | src/main/java/com/nchroniaris/mcstonks/core/Main.java:99 | the trimmed argument is a contiguous piece `s[i..j]` of the original with only blanks before and after it; with `Trim`'s non-blank ends, that is exactly `String.trim()` |
| CommandLine.TrimmedUnchanged | src/main/java/com/nchroniaris/mcstonks/core/Main.java:99 | trimming leaves a string without surrounding blanks as it is |
| CommandLine.TrimIdempotent | src/main/java/com/nchroniaris/mcstonks/core/Main.java:99 | trimming twice is trimming once |
| CommandLine.TrimEmpty | src/main/java/com/nchroniaris/mcstonks/core/Main.java:99 | trimming gives the empty string exactly when every character is blank |
| CommandLine.IsCombined | src/main/java/com/nchroniaris/mcstonks/core/Main.java:102 | an argument matching `^-[A-Za-z0-9]+$` starts with a dash and is unchanged by trimming |
| CommandLine.Split | src/main/java/com/nchroniaris/mcstonks/core/Main.java:105-106 | a cluster of length k gives k - 1 options |
| CommandLine.Expand | src/main/java/com/nchroniaris/mcstonks/core/Main.java:99-111 | every argument gives at least one entry; a trimmed cluster of length k gives k - 1 |
| CommandLine.ExpandEntries | src/main/java/com/nchroniaris/mcstonks/core/Main.java:99-111 | every entry is trimmed, and an entry that is itself a cluster holds one option |
| CommandLine.ExpandRoundTrip | src/main/java/com/nchroniaris/mcstonks/core/Main.java:102-106 | each output of a cluster is `"-" + c`, and one dash followed by their letters, in order, is the trimmed cluster again |
| CommandLine.ExpandVerbatim | src/main/java/com/nchroniaris/mcstonks/core/Main.java:108-111 | any other argument, `--help` included, is emitted once, trimmed |
| CommandLine.Convert | src/main/java/com/nchroniaris/mcstonks/core/Main.java:91-119 | the converted list is at least as long as the argument list |
| CommandLine.ConvertTrimmed | src/main/java/com/nchroniaris/mcstonks/core/Main.java:99 | every converted entry is trimmed |
| CommandLine.ConvertAppend | src/main/java/com/nchroniaris/mcstonks/core/Main.java:96-115 | converting a concatenation concatenates the conversions, so the output follows the input order |
| CommandLine.ConvertSnoc | src/main/java/com/nchroniaris/mcstonks/core/Main.java:96-115 | one more argument appends its expansion |
| CommandLine.ConvertIdempotent | src/main/java/com/nchroniaris/mcstonks/core/Main.java:91-119 | converting an already converted list changes nothing |
| CommandLine.ExpandFixed | src/main/java/com/nchroniaris/mcstonks/core/Main.java:102-111 | a list of trimmed entries, none a cluster of more than one option, converts to itself |
| CommandLine.FixedEntry | src/main/java/com/nchroniaris/mcstonks/core/Main.java:102-111 | such an entry expands to itself |
| CommandLine.ConvertArguments | src/main/java/com/nchroniaris/mcstonks/core/Main.java:91-119 | the nested loops build exactly `Convert` of the arguments |
| CommandLine.Head | src/main/java/com/nchroniaris/mcstonks/core/Main.java:64-69 | the path is the first positional argument, or absent (`null`) when there is none |
| CommandLine.FirstStop | src/main/java/com/nchroniaris/mcstonks/core/Main.java:28-51 | the position of the first help or unknown dashed option, with none before it |
| CommandLine.Positionals | src/main/java/com/nchroniaris/mcstonks/core/Main.java:47-54 | exactly the arguments without a leading dash are gathered: every gathered one is such an input, and every such input is gathered |
| CommandLine.PositionalsAppend | src/main/java/com/nchroniaris/mcstonks/core/Main.java:47-54 | gathering distributes over concatenation, so the positional arguments keep their command-line order |
| CommandLine.Scan | src/main/java/com/nchroniaris/mcstonks/core/Main.java:23-58 | the popping loop rejects only a dashed argument of the input that is neither a help nor a verbosity option; it shows the help only when a help option is present; it runs only when no argument stops it, keeps a flag already set, and takes the first positional gathered so far as the path |
| CommandLine.Decision | src/main/java/com/nchroniaris/mcstonks/core/Main.java:23-69 | the program runs exactly when no argument is a help or unknown dashed option |
| CommandLine.ScanDecides | src/main/java/com/nchroniaris/mcstonks/core/Main.java:23-58 | the popping loop, from any flag and gathered arguments, meets `Decision`: the first stopping argument decides between help and rejection; otherwise verbosity is set by any `-v`/`--verbose`, and the positional arguments are kept in order |
| CommandLine.Parse | src/main/java/com/nchroniaris/mcstonks/core/Main.java:15-69 | `main`'s decision on the raw arguments is `Decision` of the converted arguments |
| CommandLine.ClassifyArguments | src/main/java/com/nchroniaris/mcstonks/core/Main.java:12-69 | the conversion and the popping loop return exactly `Parse` of the arguments |

## Left out

- Prices and probability thresholds are exact reals. The Java code computes prices in 32-bit `float`, and compares `float` draws against `float` constants. Rounding is not modelled, so results hold for exact arithmetic. The ordering facts (floor, factor at least one) do not depend on rounding. A threshold can differ at its edge: `2.0f / 3.0f` rounds up, so a `nextFloat()` of 11184811·2⁻²⁴ passes the inclusion gate of RiskyStock.java:138 in Java but not in the model, where the chance is exactly 2/3.
- `java.util.Random` is replaced by a stream of draws in [0, 1) passed to the constructor, plus a cursor. `nextFloat()` and `nextDouble()` are both one draw from it. Seeding and the generator's algorithm are not part of this model. Every stock gets its own fresh source, as each Java stock owns its `Random`.
- The `UUID` argument of the `BabyStock` constructor (BabyStock.java:43-46) matches no `Stock` constructor in the code, and the `model.Sign` import at line 3 of Stock.java, BabyStock.java, RiskyStock.java and MemeStock.java names a package the code does not have. Both are ignored; the model uses the `Sign` enum of Sign.java.
- Stocks.Stock.RiskyMove: does not model the `IllegalStateException` of RiskyStock.java:131-132. The invariant keeps three signs and the step always draws three samples, so that check cannot fire.
- Stocks.Stock.AdvanceTimes: the snapshots are values. The Java list of `State` objects, and its identity, are not modelled.
- `Sign.toString()` is console output.
- `Main.printHelp`, `Main.printUsage`, `USAGE_STRING`, the error message on `System.err` and the call into `MCStonks` are console output or the driver. The model returns the decision as a `Command` instead.
- CommandLine.ClassifyArguments: the path stays a string. `Paths.get` and its `InvalidPathException` belong to the platform's file system and are not part of this model.
- `MCStonks`, `StocksFile`, `SignAdapter` and `StockCollection` (file I/O, JSON serialisation, the driver and a data holder) are not part of this model.
