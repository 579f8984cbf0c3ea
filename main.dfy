/** The command line of the program: `Main.convertArguments`, which trims every
    argument and splits a combined short-option cluster such as `-vh` into `-v`, `-h`,
    and the classification loop of `Main.main`, which decides between showing help,
    rejecting an unknown option, and running with the options it collected. */
module CommandLine {
  import opened Results

  /** Whether `c` is removed by Java's `String.trim()`: any character up to the space. */
  predicate IsBlank(c: char)
  {
    c <= ' '
  }

  /** The number of blank characters that open `s`. */
  function LeadingBlanks(s: string): (n: nat)
    ensures n <= |s|
    ensures forall i :: 0 <= i < n ==> IsBlank(s[i])
    ensures n < |s| ==> !IsBlank(s[n])
  {
    if s == [] || !IsBlank(s[0]) then 0 else 1 + LeadingBlanks(s[1..])
  }

  /** The number of blank characters that close `s`. */
  function TrailingBlanks(s: string): (n: nat)
    ensures n <= |s|
    ensures forall i :: |s| - n <= i < |s| ==> IsBlank(s[i])
    ensures n < |s| ==> !IsBlank(s[|s| - n - 1])
  {
    if s == [] || !IsBlank(s[|s| - 1]) then 0 else 1 + TrailingBlanks(s[..|s| - 1])
  }

  /** Java's `String.trim()`: `s` without its leading and trailing blanks. */
  function Trim(s: string): (r: string)
    ensures |r| <= |s|
    ensures r != [] ==> !IsBlank(r[0]) && !IsBlank(r[|r| - 1])
  {
    var rest := s[LeadingBlanks(s)..];
    rest[..|rest| - TrailingBlanks(rest)]
  }

  /** A string that neither opens nor closes with a blank is left as it is. */
  lemma TrimmedUnchanged(s: string)
    requires s == [] || (!IsBlank(s[0]) && !IsBlank(s[|s| - 1]))
    ensures Trim(s) == s
  {
    if s != [] {
      assert LeadingBlanks(s) == 0;
      assert s[0..] == s;
      assert TrailingBlanks(s) == 0;
    }
  }

  /** Trimming twice is trimming once. */
  lemma TrimIdempotent(s: string)
    ensures Trim(Trim(s)) == Trim(s)
  {
    TrimmedUnchanged(Trim(s));
  }

  /** Trimming yields the empty string exactly when every character is blank. */
  lemma TrimEmpty(s: string)
    ensures Trim(s) == [] <==> forall i :: 0 <= i < |s| ==> IsBlank(s[i])
  {
    var lead := LeadingBlanks(s);
    var rest := s[lead..];
    if lead < |s| {
      assert rest[0] == s[lead];
      assert TrailingBlanks(rest) < |rest|;
    }
  }

  /** Whether every character of `t` is blank. */
  predicate AllBlank(t: string)
  {
    forall k :: 0 <= k < |t| ==> IsBlank(t[k])
  }

  /** Trimming removes blanks from the two ends and nothing else: the result is a
      contiguous piece of `s` with only blanks before and after it. */
  lemma TrimIsInfix(s: string)
    ensures exists i, j :: 0 <= i <= j <= |s| && Trim(s) == s[i..j] && AllBlank(s[..i]) && AllBlank(s[j..])
  {
    var i := LeadingBlanks(s);
    var rest := s[i..];
    var j := i + |rest| - TrailingBlanks(rest);
    assert Trim(s) == s[i..j];
    assert AllBlank(s[..i]);
    assert AllBlank(s[j..]) by {
      forall k | 0 <= k < |s[j..]|
        ensures IsBlank(s[j..][k])
      {
        assert s[j..][k] == rest[|rest| - TrailingBlanks(rest) + k];
      }
    }
  }

  /** The character class `[A-Za-z0-9]` of the combined-option pattern. */
  predicate IsAlphanumeric(c: char)
  {
    ('A' <= c <= 'Z') || ('a' <= c <= 'z') || ('0' <= c <= '9')
  }

  /** Whether a (trimmed) argument matches `^-[A-Za-z0-9]+$`, a cluster of short options. */
  predicate IsCombined(a: string)
    ensures IsCombined(a) ==> IsDashed(a) && Trim(a) == a
  {
    if |a| >= 2 && a[0] == '-' && forall i :: 1 <= i < |a| ==> IsAlphanumeric(a[i]) then
      assert IsAlphanumeric(a[|a| - 1]);
      TrimmedUnchanged(a);
      true
    else
      false
  }

  /** The single options `-c`, one for every character `c` after the dash of `a`. */
  function Split(a: string): (r: seq<string>)
    requires |a| >= 1
    ensures |r| == |a| - 1
  {
    seq(|a| - 1, i requires 0 <= i < |a| - 1 => ['-', a[i + 1]])
  }

  /** What one argument contributes to the converted list: the single options of a
      trimmed cluster, otherwise the trimmed argument on its own. */
  function Expand(arg: string): (r: seq<string>)
    ensures |r| >= 1
    ensures IsCombined(Trim(arg)) ==> |r| == |Trim(arg)| - 1
  {
    var a := Trim(arg);
    if IsCombined(a) then Split(a) else [a]
  }

  /** Every entry of an expansion is trimmed, and an entry that is itself a cluster
      holds a single option. */
  lemma ExpandEntries(arg: string)
    ensures forall o :: o in Expand(arg) ==> Trim(o) == o && (IsCombined(o) ==> |o| == 2)
  {
    var a := Trim(arg);
    if IsCombined(a) {
      forall o | o in Split(a)
        ensures Trim(o) == o && |o| == 2
      {
        TrimmedUnchanged(o);
      }
    } else {
      TrimIdempotent(arg);
    }
  }

  /** The letters of a list of single options, the dash of each dropped. */
  function Letters(options: seq<string>): (r: string)
    requires forall i :: 0 <= i < |options| ==> |options[i]| == 2
    ensures |r| == |options|
  {
    seq(|options|, i requires 0 <= i < |options| => options[i][1])
  }

  /** A cluster comes apart into exactly the options it is made of: putting one dash
      back in front of their letters gives the trimmed argument again. */
  lemma ExpandRoundTrip(arg: string)
    requires IsCombined(Trim(arg))
    ensures var r := Expand(arg);
      && (forall i :: 0 <= i < |r| ==> r[i][0] == '-')
      && ['-'] + Letters(r) == Trim(arg)
  {
    var a, r := Trim(arg), Expand(arg);
    assert r == Split(a);
    assert forall i :: 0 <= i < |a| - 1 ==> r[i] == ['-', a[i + 1]];
    assert (['-'] + Letters(r))[0] == a[0];
  }

  /** Any argument that is not a cluster, `--help` among them, passes on trimmed and whole. */
  lemma ExpandVerbatim(arg: string)
    requires !IsCombined(Trim(arg))
    ensures Expand(arg) == [Trim(arg)]
  {
  }

  /** The whole converted list: the expansions of the arguments, in their order. */
  function Convert(args: seq<string>): (r: seq<string>)
    ensures |r| >= |args|
  {
    if args == [] then [] else Expand(args[0]) + Convert(args[1..])
  }

  /** Every converted entry is trimmed: classification never sees surrounding blanks. */
  lemma {:induction false} ConvertTrimmed(args: seq<string>)
    ensures forall o :: o in Convert(args) ==> Trim(o) == o
    decreases |args|
  {
    if args != [] {
      ConvertTrimmed(args[1..]);
      ExpandEntries(args[0]);
      var head, rest := Expand(args[0]), Convert(args[1..]);
      assert forall o :: o in head + rest ==> o in head || o in rest;
    }
  }

  /** Converting a concatenation is concatenating the conversions: the output follows
      the order of the input. */
  lemma {:induction false} ConvertAppend(a: seq<string>, b: seq<string>)
    ensures Convert(a + b) == Convert(a) + Convert(b)
    decreases |a|
  {
    if a == [] {
      assert a + b == b;
    } else {
      assert (a + b)[0] == a[0];
      assert (a + b)[1..] == a[1..] + b;
      ConvertAppend(a[1..], b);
    }
  }

  /** One more argument appends its expansion to the converted list. */
  lemma ConvertSnoc(args: seq<string>, k: nat)
    requires k < |args|
    ensures Convert(args[..k + 1]) == Convert(args[..k]) + Expand(args[k])
  {
    assert args[..k + 1] == args[..k] + [args[k]];
    ConvertAppend(args[..k], [args[k]]);
    assert Convert([args[k]]) == Expand(args[k]) + Convert([]);
  }

  /** Converting an already converted list changes nothing. */
  lemma {:induction false} ConvertIdempotent(args: seq<string>)
    ensures Convert(Convert(args)) == Convert(args)
    decreases |args|
  {
    if args != [] {
      ConvertIdempotent(args[1..]);
      ExpandEntries(args[0]);
      ExpandFixed(Expand(args[0]));
      ConvertAppend(Expand(args[0]), Convert(args[1..]));
    }
  }

  /** A list of entries that are each already trimmed and either a two-character
      cluster or no cluster at all converts to itself. */
  lemma {:induction false} ExpandFixed(outs: seq<string>)
    requires forall o :: o in outs ==> Trim(o) == o && (IsCombined(o) ==> |o| == 2)
    ensures Convert(outs) == outs
    decreases |outs|
  {
    if outs != [] {
      var first := outs[0];
      assert first in outs;
      assert forall o :: o in outs[1..] ==> o in outs;
      ExpandFixed(outs[1..]);
      FixedEntry(first);
      assert outs == [first] + outs[1..];
    }
  }

  /** A trimmed entry that is no cluster, or a cluster of one option, expands to itself. */
  lemma FixedEntry(o: string)
    requires Trim(o) == o && (IsCombined(o) ==> |o| == 2)
    ensures Expand(o) == [o]
  {
    if IsCombined(o) {
      assert o == ['-', o[1]];
      assert Split(o)[0] == o;
    }
  }

  /** `Main.convertArguments`: trims every argument and appends either its single
      options or the argument itself to the converted list. */
  method ConvertArguments(programArgs: seq<string>) returns (convertedArgs: seq<string>)
    ensures convertedArgs == Convert(programArgs)
  {
    convertedArgs := [];
    for k := 0 to |programArgs|
      invariant convertedArgs == Convert(programArgs[..k])
    {
      var arg := Trim(programArgs[k]);
      ghost var before := convertedArgs;
      if IsCombined(arg) {
        for i := 1 to |arg|
          invariant convertedArgs == before + Split(arg)[..i - 1]
        {
          assert Split(arg)[i - 1] == "-" + [arg[i]];
          assert Split(arg)[..i] == Split(arg)[..i - 1] + [Split(arg)[i - 1]];
          convertedArgs := convertedArgs + ["-" + [arg[i]]];
        }
        assert Split(arg)[..|arg| - 1] == Split(arg);
      } else {
        convertedArgs := convertedArgs + [arg];
      }
      ConvertSnoc(programArgs, k);
    }
    assert programArgs[..|programArgs|] == programArgs;
  }

  /** The options the program runs with: the verbosity flag and the optional path. */
  datatype Options = Options(verbose: bool, pathToStocksFile: Option<string>)

  /** What `main` decides: print the help, reject an unknown option, or run. */
  datatype Command = ShowHelp | Unrecognized(option: string) | Launch(options: Options)

  predicate IsHelp(a: string)
  {
    a == "-h" || a == "--help"
  }

  predicate IsVerbose(a: string)
  {
    a == "-v" || a == "--verbose"
  }

  /** `String.startsWith("-")`. */
  predicate IsDashed(a: string)
  {
    |a| > 0 && a[0] == '-'
  }

  /** The first element of a list, or `None` (Java's `null`) when it is empty. */
  function Head(xs: seq<string>): (r: Option<string>)
    ensures r.None? <==> xs == []
    ensures r.Some? ==> r.value == xs[0]
  {
    if xs == [] then None else Some(xs[0])
  }

  /** The classification loop, one popped argument at a time, from the flag and
      the positional arguments gathered so far. */
  function Scan(args: seq<string>, verbose: bool, positional: seq<string>): (r: Command)
    ensures r.Unrecognized? ==> r.option in args && IsDashed(r.option) && !IsHelp(r.option) && !IsVerbose(r.option)
    ensures r.ShowHelp? ==> exists i :: 0 <= i < |args| && IsHelp(args[i])
    ensures r.Launch? ==> forall i :: 0 <= i < |args| ==> !Stops(args[i])
    ensures r.Launch? && verbose ==> r.options.verbose
    ensures r.Launch? && positional != [] ==> r.options.pathToStocksFile == Some(positional[0])
    decreases |args|
  {
    if args == [] then Launch(Options(verbose, Head(positional)))
    else
      var argument := args[0];
      if IsHelp(argument) then ShowHelp
      else if IsVerbose(argument) then Scan(args[1..], true, positional)
      else if IsDashed(argument) then Unrecognized(argument)
      else Scan(args[1..], verbose, positional + [argument])
  }

  /** Whether an argument ends the loop early: a help option or an unknown dashed one. */
  predicate Stops(a: string)
  {
    IsHelp(a) || (IsDashed(a) && !IsVerbose(a))
  }

  /** The position of the first argument that ends the loop, or the length when none does. */
  function FirstStop(args: seq<string>): (n: nat)
    ensures n <= |args|
    ensures forall i :: 0 <= i < n ==> !Stops(args[i])
    ensures n < |args| ==> Stops(args[n])
  {
    if args == [] || Stops(args[0]) then 0 else 1 + FirstStop(args[1..])
  }

  /** The arguments that do not start with a dash, in order. */
  function Positionals(args: seq<string>): (r: seq<string>)
    ensures forall p :: p in r ==> p in args && !IsDashed(p)
    ensures forall i :: 0 <= i < |args| && !IsDashed(args[i]) ==> args[i] in r
  {
    if args == [] then []
    else if IsDashed(args[0]) then Positionals(args[1..])
    else [args[0]] + Positionals(args[1..])
  }

  /** Gathering distributes over concatenation, so the positional arguments keep
      the order they had on the command line. */
  lemma {:induction false} PositionalsAppend(a: seq<string>, b: seq<string>)
    ensures Positionals(a + b) == Positionals(a) + Positionals(b)
    decreases |a|
  {
    if a != [] {
      assert (a + b)[1..] == a[1..] + b;
      PositionalsAppend(a[1..], b);
    } else {
      assert a + b == b;
    }
  }

  /** What the loop decides, stated without the loop: the first stopping argument
      decides between help and rejection; with none, the run is verbose when any
      verbosity option is present and its path is the first positional argument. */
  function Decision(args: seq<string>): (c: Command)
    ensures c.Launch? <==> forall i :: 0 <= i < |args| ==> !Stops(args[i])
  {
    var n := FirstStop(args);
    if n < |args| then
      if IsHelp(args[n]) then ShowHelp else Unrecognized(args[n])
    else
      Launch(Options("-v" in args || "--verbose" in args, Head(Positionals(args))))
  }

  /** The loop, started from any flag and gathered arguments, meets `Decision`. */
  lemma {:induction false} ScanDecides(args: seq<string>, verbose: bool, positional: seq<string>)
    ensures var d := Decision(args);
      Scan(args, verbose, positional) ==
        if d.Launch? then
          Launch(Options(verbose || d.options.verbose, Head(positional + Positionals(args))))
        else d
    decreases |args|
  {
    if args != [] {
      var argument, rest := args[0], args[1..];
      assert args == [argument] + rest;
      assert forall a :: a in args <==> a == argument || a in rest;
      if !Stops(argument) {
        assert FirstStop(args) == 1 + FirstStop(rest);
        if IsVerbose(argument) {
          ScanDecides(rest, true, positional);
        } else {
          ScanDecides(rest, verbose, positional + [argument]);
          assert positional + [argument] + Positionals(rest) == positional + Positionals(args);
        }
      }
    } else {
      assert positional + [] == positional;
    }
  }

  /** `main`'s decision for the raw program arguments: it runs exactly when no
      converted argument is a help option or an unknown dashed option, the help
      wins when it comes before any unknown option, and the path is the first
      converted argument without a dash, or none. */
  function Parse(programArgs: seq<string>): (r: Command)
    ensures r == Decision(Convert(programArgs))
  {
    ScanDecides(Convert(programArgs), false, []);
    Scan(Convert(programArgs), false, [])
  }

  /** The argument handling of `Main.main`: converts the arguments, then pops them
      one by one, stopping at a help option or an unknown dashed option, and
      otherwise sets the flag or gathers a positional argument. */
  method ClassifyArguments(programArgs: seq<string>) returns (command: Command)
    ensures command == Parse(programArgs)
  {
    var allArguments := ConvertArguments(programArgs);
    var positionalArguments: seq<string> := [];
    var verbose := false;
    while allArguments != []
      invariant Scan(allArguments, verbose, positionalArguments) == Parse(programArgs)
      decreases |allArguments|
    {
      var argument := allArguments[0];
      allArguments := allArguments[1..];
      if argument == "-h" || argument == "--help" {
        return ShowHelp;
      } else if argument == "-v" || argument == "--verbose" {
        verbose := true;
      } else {
        if |argument| > 0 && argument[0] == '-' {
          return Unrecognized(argument);
        }
        positionalArguments := positionalArguments + [argument];
      }
    }
    var path := if positionalArguments == [] then None else Some(positionalArguments[0]);
    return Launch(Options(verbose, path));
  }
}
