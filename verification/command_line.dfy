/**
 * The option scan at the start of the runner's `main`: options are read
 * while arguments start with `-`; `-e`/`--exclude` and `-i`/`--include`
 * append the next argument to their pattern lists, `-l`/`--log` sets the
 * log root (a later one wins), any other dash argument is skipped. The first
 * argument that does not start with `-` is the target URI; without one the
 * runner prints its usage and exits with status 1.
 */
module CommandLine {
  import opened Wrappers

  /** `String.startsWith("-")`: the empty string does not. */
  predicate StartsWithDash(arg: string)
  {
    |arg| > 0 && arg[0] == '-'
  }

  /** How the scan treats an argument found where an option may stand. */
  datatype ArgKind = Positional | ExcludeOption | IncludeOption | LogOption | IgnoredOption

  function Classify(arg: string): ArgKind
  {
    if !StartsWithDash(arg) then Positional
    else if arg == "-e" || arg == "--exclude" then ExcludeOption
    else if arg == "-i" || arg == "--include" then IncludeOption
    else if arg == "-l" || arg == "--log" then LogOption
    else IgnoredOption
  }

  /** The flags that consume the argument after them. */
  predicate TakesValue(arg: string)
  {
    Classify(arg) in {ExcludeOption, IncludeOption, LogOption}
  }

  datatype Options = Options(excludes: seq<string>, includes: seq<string>, logPath: Option<string>)

  const NoOptions := Options([], [], None)

  /**
   * The end of the scan: the options read and the arguments not read as
   * options (the first of them is the target URI), or the flag whose value
   * is missing (where the Java code indexes past the end of `args` and throws).
   */
  datatype Scan = Scanned(options: Options, rest: seq<string>) | MissingValue(flag: string)

  /** The scan of the arguments `args` not yet read, having read `acc` so far. */
  function ScanFrom(args: seq<string>, acc: Options): Scan
    decreases |args|
  {
    if args == [] then Scanned(acc, args)
    else
      match Classify(args[0])
      case Positional => Scanned(acc, args)
      case IgnoredOption => ScanFrom(args[1..], acc)
      case ExcludeOption =>
        if |args| == 1 then MissingValue(args[0])
        else ScanFrom(args[2..], acc.(excludes := acc.excludes + [args[1]]))
      case IncludeOption =>
        if |args| == 1 then MissingValue(args[0])
        else ScanFrom(args[2..], acc.(includes := acc.includes + [args[1]]))
      case LogOption =>
        if |args| == 1 then MissingValue(args[0])
        else ScanFrom(args[2..], acc.(logPath := Some(args[1])))
  }

  /** The `for` loop of `main` over `args`, with its mutable index and lists. */
  method ScanArguments(args: seq<string>) returns (r: Scan)
    ensures r == ScanFrom(args, NoOptions)
  {
    var includes: seq<string> := [];
    var excludes: seq<string> := [];
    var logPath: Option<string> := None;
    var i := 0;
    while i < |args|
      invariant 0 <= i <= |args|
      invariant ScanFrom(args[i..], Options(excludes, includes, logPath)) == ScanFrom(args, NoOptions)
    {
      var arg := args[i];
      var kind := Classify(arg);
      if kind == Positional {
        break;
      }
      assert args[i..][1..] == args[i + 1..];
      if kind == ExcludeOption {
        i := i + 1;
        if i == |args| {
          return MissingValue(arg);
        }
        assert args[i - 1..][2..] == args[i + 1..];
        excludes := excludes + [args[i]];
      } else if kind == IncludeOption {
        i := i + 1;
        if i == |args| {
          return MissingValue(arg);
        }
        assert args[i - 1..][2..] == args[i + 1..];
        includes := includes + [args[i]];
      } else if kind == LogOption {
        i := i + 1;
        if i == |args| {
          return MissingValue(arg);
        }
        assert args[i - 1..][2..] == args[i + 1..];
        logPath := Some(args[i]);
      }
      i := i + 1;
    }
    r := Scanned(Options(excludes, includes, logPath), args[i..]);
  }

  /**
   * A completed scan leaves a suffix of the arguments, which is empty or
   * starts with an argument without a leading dash.
   */
  lemma {:induction false} ScanStops(args: seq<string>, acc: Options)
    ensures ScanFrom(args, acc).Scanned? ==>
      var rest := ScanFrom(args, acc).rest;
      |rest| <= |args| && rest == args[|args| - |rest|..] && (rest == [] || !StartsWithDash(rest[0]))
    decreases |args|
  {
    if args != [] && (TakesValue(args[0]) ==> |args| > 1) {
      match Classify(args[0])
      case Positional =>
      case IgnoredOption => ScanStops(args[1..], acc);
      case ExcludeOption => ScanStops(args[2..], acc.(excludes := acc.excludes + [args[1]]));
      case IncludeOption => ScanStops(args[2..], acc.(includes := acc.includes + [args[1]]));
      case LogOption => ScanStops(args[2..], acc.(logPath := Some(args[1])));
    }
  }

  // ---------------------------------------------------------------------
  // An independent description of an option prefix: a list of option items,
  // what they look like on the command line and what they configure.

  datatype OptionItem =
    | ExcludeItem(flag: string, pattern: string)
    | IncludeItem(flag: string, pattern: string)
    | LogItem(flag: string, path: string)
    | SkippedFlag(flag: string)

  predicate WellFormedItem(x: OptionItem)
  {
    match x
    case ExcludeItem(f, _) => Classify(f) == ExcludeOption
    case IncludeItem(f, _) => Classify(f) == IncludeOption
    case LogItem(f, _) => Classify(f) == LogOption
    case SkippedFlag(f) => Classify(f) == IgnoredOption
  }

  predicate WellFormed(items: seq<OptionItem>)
  {
    forall k :: 0 <= k < |items| ==> WellFormedItem(items[k])
  }

  function RenderItem(x: OptionItem): seq<string>
  {
    match x
    case ExcludeItem(f, p) => [f, p]
    case IncludeItem(f, p) => [f, p]
    case LogItem(f, p) => [f, p]
    case SkippedFlag(f) => [f]
  }

  /** The arguments that spell out a list of option items. */
  function Render(items: seq<OptionItem>): seq<string>
  {
    if |items| == 0 then [] else RenderItem(items[0]) + Render(items[1..])
  }

  /** The exclude patterns of the items, in order. */
  function Excludes(items: seq<OptionItem>): seq<string>
  {
    if |items| == 0 then []
    else (if items[0].ExcludeItem? then [items[0].pattern] else []) + Excludes(items[1..])
  }

  /** The include patterns of the items, in order. */
  function Includes(items: seq<OptionItem>): seq<string>
  {
    if |items| == 0 then []
    else (if items[0].IncludeItem? then [items[0].pattern] else []) + Includes(items[1..])
  }

  /** The path of the last log item, if there is one. */
  function LastLog(items: seq<OptionItem>): Option<string>
  {
    if |items| == 0 then None
    else if LastLog(items[1..]).Some? then LastLog(items[1..])
    else if items[0].LogItem? then Some(items[0].path)
    else None
  }

  /** The options after reading one item. */
  function Step(acc: Options, x: OptionItem): Options
  {
    match x
    case ExcludeItem(_, p) => acc.(excludes := acc.excludes + [p])
    case IncludeItem(_, p) => acc.(includes := acc.includes + [p])
    case LogItem(_, p) => acc.(logPath := Some(p))
    case SkippedFlag(_) => acc
  }

  /** The options in force after `acc` followed by `items`, read one at a time. */
  function Collect(acc: Options, items: seq<OptionItem>): Options
    decreases |items|
  {
    if |items| == 0 then acc else Collect(Step(acc, items[0]), items[1..])
  }

  /** Reading items appends their exclude patterns, in order. */
  lemma {:induction false} CollectExcludes(acc: Options, items: seq<OptionItem>)
    ensures Collect(acc, items).excludes == acc.excludes + Excludes(items)
    decreases |items|
  {
    if |items| == 0 {
      assert acc.excludes + [] == acc.excludes;
    } else {
      var x, tail := items[0], items[1..];
      var next := Step(acc, x);
      CollectExcludes(next, tail);
      if x.ExcludeItem? {
        assert next.excludes == acc.excludes + [x.pattern];
        assert Excludes(items) == [x.pattern] + Excludes(tail);
        ConcatAssoc(acc.excludes, [x.pattern], Excludes(tail));
      } else {
        assert next.excludes == acc.excludes;
        assert Excludes(items) == Excludes(tail);
      }
    }
  }

  /** Reading items appends their include patterns, in order. */
  lemma {:induction false} CollectIncludes(acc: Options, items: seq<OptionItem>)
    ensures Collect(acc, items).includes == acc.includes + Includes(items)
    decreases |items|
  {
    if |items| == 0 {
      assert acc.includes + [] == acc.includes;
    } else {
      var x, tail := items[0], items[1..];
      var next := Step(acc, x);
      CollectIncludes(next, tail);
      if x.IncludeItem? {
        assert next.includes == acc.includes + [x.pattern];
        assert Includes(items) == [x.pattern] + Includes(tail);
        ConcatAssoc(acc.includes, [x.pattern], Includes(tail));
      } else {
        assert next.includes == acc.includes;
        assert Includes(items) == Includes(tail);
      }
    }
  }

  /** Reading items leaves the log path of the last log item, or the earlier one when there is none. */
  lemma {:induction false} CollectLogPath(acc: Options, items: seq<OptionItem>)
    ensures Collect(acc, items).logPath == if LastLog(items).Some? then LastLog(items) else acc.logPath
    decreases |items|
  {
    if |items| > 0 {
      CollectLogPath(Step(acc, items[0]), items[1..]);
    }
  }

  /** Reading one well-formed item consumes its arguments and applies it. */
  lemma ScanItem(x: OptionItem, rest: seq<string>, acc: Options)
    requires WellFormedItem(x)
    ensures ScanFrom(RenderItem(x) + rest, acc) == ScanFrom(rest, Step(acc, x))
  {
    var args := RenderItem(x) + rest;
    assert args[0] == x.flag;
    if x.SkippedFlag? {
      assert args[1..] == rest;
    } else {
      assert args[1] == RenderItem(x)[1];
      assert args[2..] == rest;
    }
  }

  lemma ConcatAssoc<T>(a: seq<T>, b: seq<T>, c: seq<T>)
    ensures (a + b) + c == a + (b + c)
  {
  }

  lemma WellFormedTail(items: seq<OptionItem>)
    requires WellFormed(items) && |items| > 0
    ensures WellFormedItem(items[0]) && WellFormed(items[1..])
  {
    forall k | 0 <= k < |items[1..]| ensures WellFormedItem(items[1..][k]) {
      assert items[1..][k] == items[k + 1];
    }
  }

  /**
   * Soundness of the scan: arguments that begin with well-formed option
   * items are read item by item, in order; the scan continues right after
   * them with those options applied.
   */
  lemma {:induction false} ScanPrefix(items: seq<OptionItem>, rest: seq<string>, acc: Options)
    requires WellFormed(items)
    ensures ScanFrom(Render(items) + rest, acc) == ScanFrom(rest, Collect(acc, items))
    decreases items
  {
    if |items| == 0 {
      assert Render(items) + rest == rest;
      assert Collect(acc, items) == acc;
    } else {
      var x, tail := items[0], items[1..];
      WellFormedTail(items);
      ConcatAssoc(RenderItem(x), Render(tail), rest);
      ScanItem(x, Render(tail) + rest, acc);
      ScanPrefix(tail, rest, Step(acc, x));
    }
  }

  /** The option item at the front of `args`, when the scan reads one there. */
  lemma ItemAt(args: seq<string>) returns (x: OptionItem)
    requires args != [] && StartsWithDash(args[0]) && !(TakesValue(args[0]) && |args| == 1)
    ensures WellFormedItem(x)
    ensures |RenderItem(x)| <= |args| && args == RenderItem(x) + args[|RenderItem(x)|..]
  {
    var f := args[0];
    x :=
      match Classify(f)
      case ExcludeOption => ExcludeItem(f, args[1])
      case IncludeOption => IncludeItem(f, args[1])
      case LogOption => LogItem(f, args[1])
      case _ => SkippedFlag(f);
    assert args[..|RenderItem(x)|] == RenderItem(x);
  }

  lemma ConsItem(x: OptionItem, tail: seq<OptionItem>)
    requires WellFormedItem(x) && WellFormed(tail)
    ensures WellFormed([x] + tail)
    ensures Render([x] + tail) == RenderItem(x) + Render(tail)
  {
    var items := [x] + tail;
    assert items[1..] == tail;
    forall k | 0 <= k < |items| ensures WellFormedItem(items[k]) {
      if k > 0 { assert items[k] == tail[k - 1]; }
    }
  }

  /** `items` then `rest` account for the outcome `s` of a scan that started with options `acc`. */
  ghost predicate Explains(s: Scan, acc: Options, items: seq<OptionItem>, rest: seq<string>)
  {
    match s
    case Scanned(o, r) => r == rest && (rest == [] || !StartsWithDash(rest[0])) && o == Collect(acc, items)
    case MissingValue(f) => rest == [f] && TakesValue(f)
  }

  /**
   * Completeness of the scan: whatever the arguments, they begin with
   * well-formed option items; the scan reads exactly those and stops at a
   * non-dash argument or the end, or fails on a value flag that is last.
   */
  lemma {:induction false} ScanExplained(args: seq<string>, acc: Options)
    returns (items: seq<OptionItem>, rest: seq<string>)
    ensures WellFormed(items) && args == Render(items) + rest
    ensures Explains(ScanFrom(args, acc), acc, items, rest)
    decreases |args|
  {
    if args == [] || !StartsWithDash(args[0]) || (TakesValue(args[0]) && |args| == 1) {
      items, rest := [], args;
      assert Render(items) + rest == rest;
      assert Collect(acc, items) == acc;
      return;
    }
    var x := ItemAt(args);
    var n := |RenderItem(x)|;
    ScanItem(x, args[n..], acc);
    var tail;
    tail, rest := ScanExplained(args[n..], Step(acc, x));
    items := [x] + tail;
    ConsItem(x, tail);
    assert items[1..] == tail;
    ConcatAssoc(RenderItem(x), Render(tail), rest);
  }

  /** The five lines `main` prints to standard error when the target URI is missing. */
  const UsageText: seq<string> := [
    "Usage: RunTests [options] S3_URI",
    "Options:",
    "  -e --exclude PATTERN    Exclude tests matching PATTERN",
    "  -i --include PATTERN    Include tests matching PATTERN",
    "  -l --log PATH           Write test error output and HTTP wire trace to PATH"
  ]

  /** How `main` proceeds once the options are read. */
  datatype Launch =
    | Usage(exitStatus: int, stderr: seq<string>)
    | OptionValueMissing(flag: string)
    | Start(options: Options, targetUri: string)

  /** The decision of `main` on its arguments, up to resolving the target URI. */
  function ParseCommandLine(args: seq<string>): (r: Launch)
    ensures r.Usage? ==> r.exitStatus == 1 && r.stderr == UsageText
    ensures r.Start? ==> !StartsWithDash(r.targetUri) && r.targetUri in args
  {
    ScanStops(args, NoOptions);
    match ScanFrom(args, NoOptions)
    case MissingValue(f) => OptionValueMissing(f)
    case Scanned(o, rest) =>
      if rest == [] then Usage(1, UsageText)
      else
        assert rest[0] == args[|args| - |rest|];
        Start(o, rest[0])
  }

  /**
   * The command line `options target more...` starts a run with the options'
   * patterns in order, the last log path and `target` as URI, whatever
   * follows; with no argument after the options the usage is printed.
   */
  lemma LaunchRendered(items: seq<OptionItem>, rest: seq<string>)
    requires WellFormed(items)
    requires rest == [] || !StartsWithDash(rest[0])
    ensures ParseCommandLine(Render(items) + rest) ==
      if rest == [] then Usage(1, UsageText)
      else Start(Options(Excludes(items), Includes(items), LastLog(items)), rest[0])
  {
    ScanPrefix(items, rest, NoOptions);
    CollectExcludes(NoOptions, items);
    CollectIncludes(NoOptions, items);
    CollectLogPath(NoOptions, items);
    assert [] + Excludes(items) == Excludes(items);
    assert [] + Includes(items) == Includes(items);
  }

  /** A value flag with nothing after it ends the scan with an error, not a run. */
  lemma MissingValueRendered(items: seq<OptionItem>, flag: string)
    requires WellFormed(items) && TakesValue(flag)
    ensures ParseCommandLine(Render(items) + [flag]) == OptionValueMissing(flag)
  {
    ScanPrefix(items, [flag], NoOptions);
  }
}
