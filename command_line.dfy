/** The command line handed to the test process. The runner turns its own options into
    launcher flags, appends the caller's extra arguments, then the flags naming where results
    go on the device and the filter file. A flag is `--name` or `--name=value`. */
module CommandLine {
  import opened Wrappers
  import opened Text
  import opened TestOutputs
  import opened FilterFiles
  import opened Options

  const ShardIndexFlag := "--test-launcher-shard-index"
  const TotalShardsFlag := "--test-launcher-total-shards"
  const SingleProcessTestsFlag := "--single-process-tests"
  const BotModeFlag := "--test-launcher-bot-mode"
  const BatchLimitFlag := "--test-launcher-batch-limit"
  const JobsFlag := "--test-launcher-jobs"
  const PrintTestStdioFlag := "--test-launcher-print-test-stdio"
  const GtestFilterFlag := "--gtest_filter"
  const GtestRepeatFlag := "--gtest_repeat"
  const TimeoutFlag := "--test-launcher-timeout"
  const RetryLimitFlag := "--test-launcher-retry-limit"
  const BreakOnFailureFlag := "--gtest_break_on_failure"
  const AlsoRunDisabledTestsFlag := "--gtest_also_run_disabled_tests"
  const SummaryOutputFlag := "--test-launcher-summary-output"
  const IsolatedOutputFlag := "--isolated-script-test-output"
  const IsolatedPerfOutputFlag := "--isolated-script-test-perf-output"
  const FilterFileFlag := "--test-launcher-filter-file"

  /** The device path CFv1 filter files are combined into. */
  const TestFilterPath := TestDataDir + "/test_filter.txt"

  /** The launcher timeout value that disables it. */
  const NoTimeout := "-1"

  datatype LaunchFlag = Switch(name: string) | Valued(name: string, value: string)

  /** A flag name the child can split off at the first `=`. */
  predicate IsFlagName(name: string) {
    '=' !in name
  }

  function Render(f: LaunchFlag): string {
    match f
    case Switch(name) => name
    case Valued(name, value) => name + "=" + value
  }

  /** How the child process reads one argument: up to the first `=` is the name. */
  function Parse(arg: string): LaunchFlag {
    if '=' in arg then
      var k := IndexOfChar(arg, '=');
      Valued(arg[..k], arg[k + 1..])
    else Switch(arg)
  }

  /** A rendered flag reads back as itself, whatever its value holds. */
  lemma ParseRender(f: LaunchFlag)
    requires IsFlagName(f.name)
    ensures Parse(Render(f)) == f
  {
    if f.Valued? {
      var arg := f.name + "=" + f.value;
      IndexOfCharAfter(f.name, '=', f.value);
      assert arg[..|f.name|] == f.name;
      assert arg[|f.name| + 1..] == f.value;
    }
  }

  /** Renders flags in order, one argument each. */
  function RenderAll(flags: seq<LaunchFlag>): seq<string> {
    seq(|flags|, i requires 0 <= i < |flags| => Render(flags[i]))
  }

  function ParseAll(args: seq<string>): seq<LaunchFlag> {
    seq(|args|, i requires 0 <= i < |args| => Parse(args[i]))
  }

  /** Rendering then parsing a list of well-named flags gives back the list. */
  lemma ParseAllRenderAll(flags: seq<LaunchFlag>)
    requires forall f :: f in flags ==> IsFlagName(f.name)
    ensures ParseAll(RenderAll(flags)) == flags
  {
    forall i | 0 <= i < |flags| ensures ParseAll(RenderAll(flags))[i] == flags[i] {
      ParseRender(flags[i]);
    }
  }

  /** Some flag in `flags` has this name. */
  predicate HasFlag(flags: seq<LaunchFlag>, name: string) {
    exists f :: f in flags && f.name == name
  }

  function IntFlag(name: string, value: Option<int>, forwarded: bool): seq<LaunchFlag>
    requires forwarded ==> value.Some?
  {
    if forwarded then [Valued(name, IntToString(value.value))] else []
  }

  function StringFlag(name: string, value: Option<string>): seq<LaunchFlag> {
    if IsTruthyString(value) then [Valued(name, value.value)] else []
  }

  function SwitchFlag(name: string, on: bool): seq<LaunchFlag> {
    if on then [Switch(name)] else []
  }

  /** A repeat count always comes with the flag that disables the launcher timeout. */
  function RepeatFlags(repeat: Option<string>): seq<LaunchFlag> {
    if IsTruthyString(repeat) then [Valued(GtestRepeatFlag, repeat.value), Valued(TimeoutFlag, NoTimeout)] else []
  }

  /** Sharding, process and bot-mode flags. Shard index and count are forwarded whenever given,
      zero included; the batch limit only when non-zero. */
  function ProcessFlags(args: ParsedArgs): seq<LaunchFlag> {
    IntFlag(ShardIndexFlag, args.testLauncherShardIndex, args.testLauncherShardIndex.Some?)
    + IntFlag(TotalShardsFlag, args.testLauncherTotalShards, args.testLauncherTotalShards.Some?)
    + SwitchFlag(SingleProcessTestsFlag, args.singleProcessTests)
    + SwitchFlag(BotModeFlag, args.testLauncherBotMode)
    + IntFlag(BatchLimitFlag, args.testLauncherBatchLimit, IsTruthyInt(args.testLauncherBatchLimit))
  }

  /** The job count, when the chosen concurrency is truthy, and the stdio policy. */
  function ConcurrencyFlags(args: ParsedArgs): seq<LaunchFlag> {
    var concurrency := TestConcurrency(args);
    IntFlag(JobsFlag, concurrency, IsTruthyInt(concurrency))
    + StringFlag(PrintTestStdioFlag, args.testLauncherPrintTestStdio)
  }

  /** The gtest flags, each only when truthy. */
  function GtestFlags(args: ParsedArgs): seq<LaunchFlag> {
    StringFlag(GtestFilterFlag, args.gtestFilter)
    + RepeatFlags(args.gtestRepeat)
    + StringFlag(RetryLimitFlag, args.testLauncherRetryLimit)
    + SwitchFlag(BreakOnFailureFlag, args.gtestBreakOnFailure)
    + SwitchFlag(AlsoRunDisabledTestsFlag, args.gtestAlsoRunDisabledTests)
  }

  /** The flags the runner derives from its own options, in the order it appends them. */
  function LaunchFlags(args: ParsedArgs): seq<LaunchFlag> {
    ProcessFlags(args) + ConcurrencyFlags(args) + GtestFlags(args)
  }

  function PathFlag(name: string, requested: Option<string>, devicePath: string): seq<LaunchFlag> {
    if IsTruthyString(requested) then [Valued(name, devicePath)] else []
  }

  /** Where the test writes its summary and perf results, as device paths of the outputs
      strategy. */
  function OutputFlags(args: ParsedArgs, outputs: TestOutputs): seq<LaunchFlag> {
    PathFlag(SummaryOutputFlag, args.testLauncherSummaryOutput, outputs.GetDevicePath(TestResultFile))
    + PathFlag(IsolatedOutputFlag, args.isolatedScriptTestOutput, outputs.GetDevicePath(TestResultFile))
    + PathFlag(IsolatedPerfOutputFlag, args.isolatedScriptTestPerfOutput, outputs.GetDevicePath(TestPerfResultFile))
  }

  /** The filter-file flag: CFv2 names the packaged copies of the listed files; CFv1 names the
      single combined file pushed to the device. */
  function FilterFileFlags(args: ParsedArgs): Result<seq<LaunchFlag>, Error> {
    if !IsTruthyString(args.testLauncherFilterFile) then Success([])
    else if args.componentVersion == "2" then
      match MapFilterFileList(args.testLauncherFilterFile.value)
      case Failure(e) => Failure(e)
      case Success(packaged) => Success([Valued(FilterFileFlag, packaged)])
    else Success([Valued(FilterFileFlag, TestFilterPath)])
  }

  /** The whole argument list of the test process: generated flags, then `--child-arg` values,
      then positional arguments, then output paths, then the filter file. */
  function ChildArgs(args: ParsedArgs, outputs: TestOutputs): Result<seq<string>, Error> {
    var base := RenderAll(LaunchFlags(args)) + args.childArg + args.childArgs
      + RenderAll(OutputFlags(args, outputs));
    match FilterFileFlags(args)
    case Failure(e) => Failure(e)
    case Success(filter) => Success(base + RenderAll(filter))
  }

  lemma RenderAllAppend(flags: seq<LaunchFlag>, more: seq<LaunchFlag>)
    ensures RenderAll(flags + more) == RenderAll(flags) + RenderAll(more)
  {
  }

  /** A single flag renders to a single argument. */
  lemma RenderOne(f: LaunchFlag)
    ensures RenderAll([f]) == [Render(f)]
  {
    assert [f][..0] == [];
  }

  /** Two flags render to two arguments. */
  lemma RenderTwo(f: LaunchFlag, g: LaunchFlag)
    ensures RenderAll([f, g]) == [Render(f), Render(g)]
  {
  }

  /** The sharding, process and bot-mode arguments, appended one by one. */
  method ProcessFlagArgs(args: ParsedArgs) returns (r: seq<string>)
    ensures r == RenderAll(ProcessFlags(args))
  {
    // `flags` is the part of ProcessFlags(args) that has been appended so far.
    ghost var flags: seq<LaunchFlag>;
    ghost var segment: seq<LaunchFlag>;
    r := [];

    segment := IntFlag(ShardIndexFlag, args.testLauncherShardIndex, args.testLauncherShardIndex.Some?);
    if args.testLauncherShardIndex.Some? {
      r := r + [ShardIndexFlag + "=" + IntToString(args.testLauncherShardIndex.value)];
      RenderOne(segment[0]);
    }
    flags := segment;
    assert r == RenderAll(flags);

    segment := IntFlag(TotalShardsFlag, args.testLauncherTotalShards, args.testLauncherTotalShards.Some?);
    if args.testLauncherTotalShards.Some? {
      r := r + [TotalShardsFlag + "=" + IntToString(args.testLauncherTotalShards.value)];
      RenderOne(segment[0]);
    }
    RenderAllAppend(flags, segment);
    flags := flags + segment;
    assert r == RenderAll(flags);

    segment := SwitchFlag(SingleProcessTestsFlag, args.singleProcessTests);
    if args.singleProcessTests {
      r := r + [SingleProcessTestsFlag];
      RenderOne(segment[0]);
    }
    RenderAllAppend(flags, segment);
    flags := flags + segment;
    assert r == RenderAll(flags);

    segment := SwitchFlag(BotModeFlag, args.testLauncherBotMode);
    if args.testLauncherBotMode {
      r := r + [BotModeFlag];
      RenderOne(segment[0]);
    }
    RenderAllAppend(flags, segment);
    flags := flags + segment;
    assert r == RenderAll(flags);

    segment := IntFlag(BatchLimitFlag, args.testLauncherBatchLimit, IsTruthyInt(args.testLauncherBatchLimit));
    if IsTruthyInt(args.testLauncherBatchLimit) {
      r := r + [BatchLimitFlag + "=" + IntToString(args.testLauncherBatchLimit.value)];
      RenderOne(segment[0]);
    }
    RenderAllAppend(flags, segment);
    flags := flags + segment;
    assert r == RenderAll(flags);
    assert flags == ProcessFlags(args);
  }

  /** Picks the test concurrency, then produces the job-count argument (when the concurrency is
      truthy) and the stdio policy. */
  method ConcurrencyFlagArgs(args: ParsedArgs) returns (r: seq<string>, testConcurrency: Option<int>)
    ensures testConcurrency == TestConcurrency(args)
    ensures r == RenderAll(ConcurrencyFlags(args))
  {
    testConcurrency := None;
    if IsTruthyInt(args.testLauncherJobs) {
      testConcurrency := args.testLauncherJobs;
    } else if args.enableTestServer {
      if args.device == Some("device") {
        testConcurrency := Some(DefaultTestServerConcurrency);
      } else {
        testConcurrency := Some(args.cpuCores);
      }
    }

    ghost var flags: seq<LaunchFlag>;
    ghost var segment: seq<LaunchFlag>;
    r := [];

    segment := IntFlag(JobsFlag, testConcurrency, IsTruthyInt(testConcurrency));
    if IsTruthyInt(testConcurrency) {
      r := r + [JobsFlag + "=" + IntToString(testConcurrency.value)];
      RenderOne(segment[0]);
    }
    flags := segment;
    assert r == RenderAll(flags);

    segment := StringFlag(PrintTestStdioFlag, args.testLauncherPrintTestStdio);
    if IsTruthyString(args.testLauncherPrintTestStdio) {
      r := r + [PrintTestStdioFlag + "=" + args.testLauncherPrintTestStdio.value];
      RenderOne(segment[0]);
    }
    RenderAllAppend(flags, segment);
    flags := flags + segment;
    assert r == RenderAll(flags);
    assert flags == ConcurrencyFlags(args);
  }

  /** The gtest arguments, appended one by one; a repeat count is followed at once by the
      argument that switches the launcher timeout off. */
  method GtestFlagArgs(args: ParsedArgs) returns (r: seq<string>)
    ensures r == RenderAll(GtestFlags(args))
  {
    ghost var flags: seq<LaunchFlag>;
    ghost var segment: seq<LaunchFlag>;
    r := [];

    segment := StringFlag(GtestFilterFlag, args.gtestFilter);
    if IsTruthyString(args.gtestFilter) {
      r := r + [GtestFilterFlag + "=" + args.gtestFilter.value];
      RenderOne(segment[0]);
    }
    flags := segment;
    assert r == RenderAll(flags);

    segment := RepeatFlags(args.gtestRepeat);
    if IsTruthyString(args.gtestRepeat) {
      r := r + [GtestRepeatFlag + "=" + args.gtestRepeat.value];
      r := r + [TimeoutFlag + "=" + NoTimeout];
      RenderTwo(segment[0], segment[1]);
    }
    RenderAllAppend(flags, segment);
    flags := flags + segment;
    assert r == RenderAll(flags);

    segment := StringFlag(RetryLimitFlag, args.testLauncherRetryLimit);
    if IsTruthyString(args.testLauncherRetryLimit) {
      r := r + [RetryLimitFlag + "=" + args.testLauncherRetryLimit.value];
      RenderOne(segment[0]);
    }
    RenderAllAppend(flags, segment);
    flags := flags + segment;
    assert r == RenderAll(flags);

    segment := SwitchFlag(BreakOnFailureFlag, args.gtestBreakOnFailure);
    if args.gtestBreakOnFailure {
      r := r + [BreakOnFailureFlag];
      RenderOne(segment[0]);
    }
    RenderAllAppend(flags, segment);
    flags := flags + segment;
    assert r == RenderAll(flags);

    segment := SwitchFlag(AlsoRunDisabledTestsFlag, args.gtestAlsoRunDisabledTests);
    if args.gtestAlsoRunDisabledTests {
      r := r + [AlsoRunDisabledTestsFlag];
      RenderOne(segment[0]);
    }
    RenderAllAppend(flags, segment);
    flags := flags + segment;
    assert r == RenderAll(flags);
    assert flags == GtestFlags(args);
  }

  /** Builds the first part of the child's arguments: the generated launcher flags in order,
      then every `--child-arg` value, then the positional arguments. */
  method BuildChildArgs(args: ParsedArgs) returns (childArgs: seq<string>, testConcurrency: Option<int>)
    ensures testConcurrency == TestConcurrency(args)
    ensures childArgs == RenderAll(LaunchFlags(args)) + args.childArg + args.childArgs
  {
    var processArgs := ProcessFlagArgs(args);
    var concurrencyArgs;
    concurrencyArgs, testConcurrency := ConcurrencyFlagArgs(args);
    var gtestArgs := GtestFlagArgs(args);
    RenderLaunchFlags(args);
    ghost var launch := RenderAll(LaunchFlags(args));
    childArgs := processArgs + concurrencyArgs + gtestArgs;
    assert childArgs == launch;

    if args.childArg != [] {
      childArgs := childArgs + args.childArg;
    }
    assert childArgs == launch + args.childArg;
    if args.childArgs != [] {
      childArgs := childArgs + args.childArgs;
    }
  }

  /** The generated flags render group by group. */
  lemma RenderLaunchFlags(args: ParsedArgs)
    ensures RenderAll(LaunchFlags(args))
      == RenderAll(ProcessFlags(args)) + RenderAll(ConcurrencyFlags(args)) + RenderAll(GtestFlags(args))
  {
    RenderAllAppend(ProcessFlags(args), ConcurrencyFlags(args));
    RenderAllAppend(ProcessFlags(args) + ConcurrencyFlags(args), GtestFlags(args));
  }

  lemma HasFlagAppend(a: seq<LaunchFlag>, b: seq<LaunchFlag>, name: string)
    ensures HasFlag(a + b, name) <==> HasFlag(a, name) || HasFlag(b, name)
  {
    if HasFlag(a + b, name) {
      var f :| f in a + b && f.name == name;
    }
    if HasFlag(a, name) {
      var f :| f in a && f.name == name;
      assert f in a + b;
    }
    if HasFlag(b, name) {
      var f :| f in b && f.name == name;
      assert f in a + b;
    }
  }

  lemma HasFlagSegment(segment: seq<LaunchFlag>, name: string)
    requires |segment| <= 2
    ensures HasFlag(segment, name) <==>
      (|segment| >= 1 && segment[0].name == name) || (|segment| == 2 && segment[1].name == name)
  {
    if HasFlag(segment, name) {
      var f :| f in segment && f.name == name;
    }
  }

  /** The names among the sharding, process and bot-mode flags. */
  lemma ProcessFlagNames(args: ParsedArgs, name: string)
    ensures HasFlag(ProcessFlags(args), name) <==>
      (name == ShardIndexFlag && args.testLauncherShardIndex.Some?)
      || (name == TotalShardsFlag && args.testLauncherTotalShards.Some?)
      || (name == SingleProcessTestsFlag && args.singleProcessTests)
      || (name == BotModeFlag && args.testLauncherBotMode)
      || (name == BatchLimitFlag && IsTruthyInt(args.testLauncherBatchLimit))
  {
    var p1 := IntFlag(ShardIndexFlag, args.testLauncherShardIndex, args.testLauncherShardIndex.Some?);
    var p2 := IntFlag(TotalShardsFlag, args.testLauncherTotalShards, args.testLauncherTotalShards.Some?);
    var p3 := SwitchFlag(SingleProcessTestsFlag, args.singleProcessTests);
    var p4 := SwitchFlag(BotModeFlag, args.testLauncherBotMode);
    var p5 := IntFlag(BatchLimitFlag, args.testLauncherBatchLimit, IsTruthyInt(args.testLauncherBatchLimit));
    HasFlagSegment(p1, name);
    HasFlagSegment(p2, name);
    HasFlagSegment(p3, name);
    HasFlagSegment(p4, name);
    HasFlagSegment(p5, name);
    HasFlagAppend(p1, p2, name);
    HasFlagAppend(p1 + p2, p3, name);
    HasFlagAppend(p1 + p2 + p3, p4, name);
    HasFlagAppend(p1 + p2 + p3 + p4, p5, name);
  }

  /** The names among the job-count and stdio flags. */
  lemma ConcurrencyFlagNames(args: ParsedArgs, name: string)
    ensures HasFlag(ConcurrencyFlags(args), name) <==>
      (name == JobsFlag && IsTruthyInt(TestConcurrency(args)))
      || (name == PrintTestStdioFlag && IsTruthyString(args.testLauncherPrintTestStdio))
  {
    var concurrency := TestConcurrency(args);
    var c1 := IntFlag(JobsFlag, concurrency, IsTruthyInt(concurrency));
    var c2 := StringFlag(PrintTestStdioFlag, args.testLauncherPrintTestStdio);
    HasFlagSegment(c1, name);
    HasFlagSegment(c2, name);
    HasFlagAppend(c1, c2, name);
  }

  /** The names among the gtest flags. */
  lemma GtestFlagNames(args: ParsedArgs, name: string)
    ensures HasFlag(GtestFlags(args), name) <==>
      (name == GtestFilterFlag && IsTruthyString(args.gtestFilter))
      || ((name == GtestRepeatFlag || name == TimeoutFlag) && IsTruthyString(args.gtestRepeat))
      || (name == RetryLimitFlag && IsTruthyString(args.testLauncherRetryLimit))
      || (name == BreakOnFailureFlag && args.gtestBreakOnFailure)
      || (name == AlsoRunDisabledTestsFlag && args.gtestAlsoRunDisabledTests)
  {
    var g1 := StringFlag(GtestFilterFlag, args.gtestFilter);
    var g2 := RepeatFlags(args.gtestRepeat);
    var g3 := StringFlag(RetryLimitFlag, args.testLauncherRetryLimit);
    var g4 := SwitchFlag(BreakOnFailureFlag, args.gtestBreakOnFailure);
    var g5 := SwitchFlag(AlsoRunDisabledTestsFlag, args.gtestAlsoRunDisabledTests);
    HasFlagSegment(g1, name);
    HasFlagSegment(g2, name);
    HasFlagSegment(g3, name);
    HasFlagSegment(g4, name);
    HasFlagSegment(g5, name);
    HasFlagAppend(g1, g2, name);
    HasFlagAppend(g1 + g2, g3, name);
    HasFlagAppend(g1 + g2 + g3, g4, name);
    HasFlagAppend(g1 + g2 + g3 + g4, g5, name);
  }

  /** A flag is among the generated flags exactly when it is among one of the three groups. */
  lemma LaunchFlagNames(args: ParsedArgs, name: string)
    ensures HasFlag(LaunchFlags(args), name) <==>
      HasFlag(ProcessFlags(args), name) || HasFlag(ConcurrencyFlags(args), name) || HasFlag(GtestFlags(args), name)
  {
    HasFlagAppend(ProcessFlags(args), ConcurrencyFlags(args), name);
    HasFlagAppend(ProcessFlags(args) + ConcurrencyFlags(args), GtestFlags(args), name);
  }

  /** Shard index and total shards reach the child whenever they are given, zero included;
      the switches whenever they are set; the batch limit only when non-zero. */
  lemma ProcessFlagsForwarded(args: ParsedArgs)
    ensures HasFlag(LaunchFlags(args), ShardIndexFlag) <==> args.testLauncherShardIndex.Some?
    ensures HasFlag(LaunchFlags(args), TotalShardsFlag) <==> args.testLauncherTotalShards.Some?
    ensures HasFlag(LaunchFlags(args), SingleProcessTestsFlag) <==> args.singleProcessTests
    ensures HasFlag(LaunchFlags(args), BotModeFlag) <==> args.testLauncherBotMode
    ensures HasFlag(LaunchFlags(args), BatchLimitFlag) <==> IsTruthyInt(args.testLauncherBatchLimit)
    ensures args.testLauncherShardIndex.Some? ==>
      Valued(ShardIndexFlag, IntToString(args.testLauncherShardIndex.value)) in LaunchFlags(args)
    ensures args.testLauncherTotalShards.Some? ==>
      Valued(TotalShardsFlag, IntToString(args.testLauncherTotalShards.value)) in LaunchFlags(args)
  {
    ProcessNameOnlyInGroup(args, ShardIndexFlag);
    ProcessNameOnlyInGroup(args, TotalShardsFlag);
    ProcessNameOnlyInGroup(args, SingleProcessTestsFlag);
    ProcessNameOnlyInGroup(args, BotModeFlag);
    ProcessNameOnlyInGroup(args, BatchLimitFlag);
    ProcessFlagNames(args, ShardIndexFlag);
    ProcessFlagNames(args, TotalShardsFlag);
    ProcessFlagNames(args, SingleProcessTestsFlag);
    ProcessFlagNames(args, BotModeFlag);
    ProcessFlagNames(args, BatchLimitFlag);
  }

  /** A process flag's name occurs in no other group. */
  lemma ProcessNameOnlyInGroup(args: ParsedArgs, name: string)
    requires name == ShardIndexFlag || name == TotalShardsFlag || name == SingleProcessTestsFlag
             || name == BotModeFlag || name == BatchLimitFlag
    ensures HasFlag(LaunchFlags(args), name) <==> HasFlag(ProcessFlags(args), name)
  {
    LaunchFlagNames(args, name);
    ConcurrencyFlagNames(args, name);
    GtestFlagNames(args, name);
  }

  /** `--test-launcher-jobs` is generated exactly when the chosen concurrency is truthy, and
      the stdio policy exactly when it is a non-empty string. */
  lemma ConcurrencyFlagsForwarded(args: ParsedArgs)
    ensures HasFlag(LaunchFlags(args), JobsFlag) <==> IsTruthyInt(TestConcurrency(args))
    ensures IsTruthyInt(TestConcurrency(args)) ==>
      Valued(JobsFlag, IntToString(TestConcurrency(args).value)) in LaunchFlags(args)
    ensures HasFlag(LaunchFlags(args), PrintTestStdioFlag) <==> IsTruthyString(args.testLauncherPrintTestStdio)
  {
    LaunchFlagNames(args, JobsFlag);
    ProcessFlagNames(args, JobsFlag);
    ConcurrencyFlagNames(args, JobsFlag);
    GtestFlagNames(args, JobsFlag);
    LaunchFlagNames(args, PrintTestStdioFlag);
    ProcessFlagNames(args, PrintTestStdioFlag);
    ConcurrencyFlagNames(args, PrintTestStdioFlag);
    GtestFlagNames(args, PrintTestStdioFlag);
  }

  /** The gtest filter and retry limit reach the child only when non-empty, the repeat count
      and the timeout switch-off together and only when the repeat count is non-empty, and the
      two gtest switches whenever they are set. */
  lemma GtestFlagsForwarded(args: ParsedArgs)
    ensures HasFlag(LaunchFlags(args), GtestFilterFlag) <==> IsTruthyString(args.gtestFilter)
    ensures HasFlag(LaunchFlags(args), GtestRepeatFlag) <==> IsTruthyString(args.gtestRepeat)
    ensures HasFlag(LaunchFlags(args), TimeoutFlag) <==> IsTruthyString(args.gtestRepeat)
    ensures HasFlag(LaunchFlags(args), RetryLimitFlag) <==> IsTruthyString(args.testLauncherRetryLimit)
    ensures HasFlag(LaunchFlags(args), BreakOnFailureFlag) <==> args.gtestBreakOnFailure
    ensures HasFlag(LaunchFlags(args), AlsoRunDisabledTestsFlag) <==> args.gtestAlsoRunDisabledTests
  {
    GtestNameOnlyInGroup(args, GtestFilterFlag);
    GtestNameOnlyInGroup(args, GtestRepeatFlag);
    GtestNameOnlyInGroup(args, TimeoutFlag);
    GtestNameOnlyInGroup(args, RetryLimitFlag);
    GtestNameOnlyInGroup(args, BreakOnFailureFlag);
    GtestNameOnlyInGroup(args, AlsoRunDisabledTestsFlag);
    GtestFlagNames(args, GtestFilterFlag);
    GtestFlagNames(args, GtestRepeatFlag);
    GtestFlagNames(args, TimeoutFlag);
    GtestFlagNames(args, RetryLimitFlag);
    GtestFlagNames(args, BreakOnFailureFlag);
    GtestFlagNames(args, AlsoRunDisabledTestsFlag);
  }

  /** A gtest flag's name occurs in no other group. */
  lemma GtestNameOnlyInGroup(args: ParsedArgs, name: string)
    requires name == GtestFilterFlag || name == GtestRepeatFlag || name == TimeoutFlag
             || name == RetryLimitFlag || name == BreakOnFailureFlag || name == AlsoRunDisabledTestsFlag
    ensures HasFlag(LaunchFlags(args), name) <==> HasFlag(GtestFlags(args), name)
  {
    LaunchFlagNames(args, name);
    ProcessFlagNames(args, name);
    ConcurrencyFlagNames(args, name);
  }

  /** In `a + pair + rest`, where only the head of `pair` carries `name`, a flag named `name`
      is always followed by the second flag of the pair. */
  lemma FollowedInside(a: seq<LaunchFlag>, pair: seq<LaunchFlag>, rest: seq<LaunchFlag>, name: string, next: LaunchFlag)
    requires forall f :: f in a ==> f.name != name
    requires forall f :: f in rest ==> f.name != name
    requires pair == [] || (|pair| == 2 && pair[0].name == name && pair[1] == next && next.name != name)
    ensures var s := a + pair + rest;
      forall j :: 0 <= j < |s| && s[j].name == name ==> j + 1 < |s| && s[j + 1] == next
  {
    var s := a + pair + rest;
    forall j | 0 <= j < |s| && s[j].name == name
      ensures j + 1 < |s| && s[j + 1] == next
    {
      if |a| <= j < |a| + |pair| {
        assert s[j] == pair[j - |a|];
        assert s[j + 1] == pair[j - |a| + 1];
      }
    }
  }

  /** Within the gtest flags, a repeat count is always immediately followed by the flag that
      switches the launcher timeout off. */
  lemma GtestRepeatThenTimeout(args: ParsedArgs)
    ensures var g := GtestFlags(args);
      forall j :: 0 <= j < |g| && g[j].name == GtestRepeatFlag ==>
        j + 1 < |g| && g[j + 1] == Valued(TimeoutFlag, NoTimeout)
  {
    var g1 := StringFlag(GtestFilterFlag, args.gtestFilter);
    var rest := StringFlag(RetryLimitFlag, args.testLauncherRetryLimit)
      + SwitchFlag(BreakOnFailureFlag, args.gtestBreakOnFailure)
      + SwitchFlag(AlsoRunDisabledTestsFlag, args.gtestAlsoRunDisabledTests);
    assert GtestFlags(args) == g1 + RepeatFlags(args.gtestRepeat) + rest;
    FollowedInside(g1, RepeatFlags(args.gtestRepeat), rest, GtestRepeatFlag, Valued(TimeoutFlag, NoTimeout));
  }

  /** Across the generated flags, `--gtest_repeat` is always immediately followed by
      `--test-launcher-timeout=-1`, and it is present exactly when a repeat count is given. */
  lemma RepeatDisablesTimeout(args: ParsedArgs)
    ensures var flags := LaunchFlags(args);
      forall i :: 0 <= i < |flags| && flags[i].name == GtestRepeatFlag ==>
        i + 1 < |flags| && flags[i + 1] == Valued(TimeoutFlag, NoTimeout)
    ensures HasFlag(LaunchFlags(args), GtestRepeatFlag) <==> IsTruthyString(args.gtestRepeat)
  {
    var front := ProcessFlags(args) + ConcurrencyFlags(args);
    var g := GtestFlags(args);
    var flags := LaunchFlags(args);
    ProcessFlagNames(args, GtestRepeatFlag);
    ConcurrencyFlagNames(args, GtestRepeatFlag);
    HasFlagAppend(ProcessFlags(args), ConcurrencyFlags(args), GtestRepeatFlag);
    GtestRepeatThenTimeout(args);
    GtestFlagsForwarded(args);
    forall i | 0 <= i < |flags| && flags[i].name == GtestRepeatFlag
      ensures i + 1 < |flags| && flags[i + 1] == Valued(TimeoutFlag, NoTimeout)
    {
      if |front| <= i {
        assert flags[i] == g[i - |front|];
        assert flags[i + 1] == g[i - |front| + 1];
      }
    }
  }

  /** No flag name holds `=`; one lemma per group keeps each check small. */
  lemma ProcessFlagNamesWellFormed()
    ensures IsFlagName(ShardIndexFlag) && IsFlagName(TotalShardsFlag) && IsFlagName(SingleProcessTestsFlag)
    ensures IsFlagName(BotModeFlag) && IsFlagName(BatchLimitFlag)
  {
  }

  lemma ConcurrencyFlagNamesWellFormed()
    ensures IsFlagName(JobsFlag) && IsFlagName(PrintTestStdioFlag)
  {
  }

  lemma GtestFlagNamesWellFormed()
    ensures IsFlagName(GtestFilterFlag) && IsFlagName(GtestRepeatFlag) && IsFlagName(TimeoutFlag)
    ensures IsFlagName(RetryLimitFlag) && IsFlagName(BreakOnFailureFlag) && IsFlagName(AlsoRunDisabledTestsFlag)
  {
  }

  lemma OutputFlagNamesWellFormed()
    ensures IsFlagName(SummaryOutputFlag) && IsFlagName(IsolatedOutputFlag) && IsFlagName(IsolatedPerfOutputFlag)
    ensures IsFlagName(FilterFileFlag)
  {
  }

  /** Every generated flag has a name the child can split off at the first `=`. */
  lemma LaunchFlagNamesWellFormed(args: ParsedArgs)
    ensures forall f :: f in LaunchFlags(args) ==> IsFlagName(f.name)
  {
    ProcessFlagNamesWellFormed();
    ConcurrencyFlagNamesWellFormed();
    GtestFlagNamesWellFormed();
    forall f | f in LaunchFlags(args) ensures IsFlagName(f.name) {
      assert HasFlag(LaunchFlags(args), f.name);
      LaunchFlagNames(args, f.name);
      ProcessFlagNames(args, f.name);
      ConcurrencyFlagNames(args, f.name);
      GtestFlagNames(args, f.name);
    }
  }

  /** The child process, reading its arguments back flag by flag, recovers exactly the
      generated flags, values included. */
  lemma ChildReadsLaunchFlags(args: ParsedArgs)
    ensures ParseAll(RenderAll(LaunchFlags(args))) == LaunchFlags(args)
  {
    LaunchFlagNamesWellFormed(args);
    ParseAllRenderAll(LaunchFlags(args));
  }

  /** Appends the output-path arguments, each naming a device path of the outputs strategy. */
  method AppendOutputArgs(childArgs: seq<string>, args: ParsedArgs, outputs: TestOutputs) returns (r: seq<string>)
    ensures r == childArgs + RenderAll(OutputFlags(args, outputs))
  {
    ghost var flags: seq<LaunchFlag>;
    ghost var segment: seq<LaunchFlag>;
    r := childArgs;

    segment := PathFlag(SummaryOutputFlag, args.testLauncherSummaryOutput, outputs.GetDevicePath(TestResultFile));
    if IsTruthyString(args.testLauncherSummaryOutput) {
      r := r + [SummaryOutputFlag + "=" + outputs.GetDevicePath(TestResultFile)];
      RenderOne(segment[0]);
    }
    flags := segment;
    assert r == childArgs + RenderAll(flags);

    segment := PathFlag(IsolatedOutputFlag, args.isolatedScriptTestOutput, outputs.GetDevicePath(TestResultFile));
    if IsTruthyString(args.isolatedScriptTestOutput) {
      r := r + [IsolatedOutputFlag + "=" + outputs.GetDevicePath(TestResultFile)];
      RenderOne(segment[0]);
    }
    RenderAllAppend(flags, segment);
    flags := flags + segment;
    assert r == childArgs + RenderAll(flags);

    segment := PathFlag(IsolatedPerfOutputFlag, args.isolatedScriptTestPerfOutput, outputs.GetDevicePath(TestPerfResultFile));
    if IsTruthyString(args.isolatedScriptTestPerfOutput) {
      r := r + [IsolatedPerfOutputFlag + "=" + outputs.GetDevicePath(TestPerfResultFile)];
      RenderOne(segment[0]);
    }
    RenderAllAppend(flags, segment);
    flags := flags + segment;
    assert r == childArgs + RenderAll(flags);
    assert flags == OutputFlags(args, outputs);
  }

  /** Each output path is passed exactly when the caller asked for that output, and it names
      the result file under the strategy's own device directory: /tmp for CFv1,
      /custom_artifacts for CFv2. */
  lemma OutputFlagsUseDevicePaths(args: ParsedArgs, outputs: TestOutputs)
    ensures var root := if outputs.TargetOutputs? then "/tmp/" else "/custom_artifacts/";
      var flags := OutputFlags(args, outputs);
      (Valued(SummaryOutputFlag, root + TestResultFile) in flags <==> IsTruthyString(args.testLauncherSummaryOutput))
      && (Valued(IsolatedOutputFlag, root + TestResultFile) in flags <==> IsTruthyString(args.isolatedScriptTestOutput))
      && (Valued(IsolatedPerfOutputFlag, root + TestPerfResultFile) in flags <==> IsTruthyString(args.isolatedScriptTestPerfOutput))
      && (forall f :: f in flags ==> f.Valued? && StartsWith(f.value, root))
  {
    var root := if outputs.TargetOutputs? then "/tmp/" else "/custom_artifacts/";
    var result := outputs.GetDevicePath(TestResultFile);
    var perf := outputs.GetDevicePath(TestPerfResultFile);
    assert result == root + TestResultFile && perf == root + TestPerfResultFile;
    PrefixOfConcat(root, TestResultFile);
    PrefixOfConcat(root, TestPerfResultFile);
    var s1 := PathFlag(SummaryOutputFlag, args.testLauncherSummaryOutput, result);
    var s2 := PathFlag(IsolatedOutputFlag, args.isolatedScriptTestOutput, result);
    var s3 := PathFlag(IsolatedPerfOutputFlag, args.isolatedScriptTestPerfOutput, perf);
    assert OutputFlags(args, outputs) == s1 + s2 + s3;
  }

  /** Appends the filter-file argument: for CFv2 the packaged copies of the listed files, or
      the rejection of an unregistered one; for CFv1 the combined file on the device. */
  method AppendFilterFileArg(childArgs: seq<string>, args: ParsedArgs) returns (r: Result<seq<string>, Error>)
    ensures FilterFileFlags(args).Failure? ==> r == Failure(FilterFileFlags(args).error)
    ensures FilterFileFlags(args).Success? ==> r == Success(childArgs + RenderAll(FilterFileFlags(args).value))
  {
    r := Success(childArgs);
    if IsTruthyString(args.testLauncherFilterFile) {
      if args.componentVersion == "2" {
        var packaged := MapFilterFileList(args.testLauncherFilterFile.value);
        if packaged.Failure? {
          return Failure(packaged.error);
        }
        r := Success(childArgs + [FilterFileFlag + "=" + packaged.value]);
        RenderOne(Valued(FilterFileFlag, packaged.value));
      } else {
        r := Success(childArgs + [FilterFileFlag + "=" + TestFilterPath]);
        RenderOne(Valued(FilterFileFlag, TestFilterPath));
      }
    } else {
      assert childArgs + RenderAll([]) == childArgs;
    }
  }

  /** Without a filter file nothing is added. With one, CFv1 always names /tmp/test_filter.txt,
      while CFv2 names the `;`-joined packaged copies and fails exactly when some listed file
      lies outside the registered filter directory. */
  lemma FilterFileFlagChoice(args: ParsedArgs)
    ensures !IsTruthyString(args.testLauncherFilterFile) ==> FilterFileFlags(args) == Success([])
    ensures IsTruthyString(args.testLauncherFilterFile) && args.componentVersion != "2" ==>
      FilterFileFlags(args) == Success([Valued(FilterFileFlag, "/tmp/test_filter.txt")])
    ensures IsTruthyString(args.testLauncherFilterFile) && args.componentVersion == "2" ==>
      var entries := Split(args.testLauncherFilterFile.value, ';');
      (FilterFileFlags(args).Failure? <==> exists i :: 0 <= i < |entries| && !Contains(entries[i], FilterDir))
      && (FilterFileFlags(args).Failure? ==> FilterFileFlags(args).error == UnregisteredFilterFile)
      && (FilterFileFlags(args).Success? ==>
            exists packaged :: FilterFileFlags(args).value == [Valued(FilterFileFlag, packaged)]
              && Split(packaged, ';') == seq(|entries|, i requires 0 <= i < |entries| =>
                   MapFilterFileToPackageFile(entries[i]).value))
  {
    assert TestDataDir == "/tmp";
    assert TestFilterPath == "/tmp/test_filter.txt";
    if IsTruthyString(args.testLauncherFilterFile) && args.componentVersion == "2" {
      var list := args.testLauncherFilterFile.value;
      var entries := Split(list, ';');
      MapFilterFileListEntries(list);
      var m := MapFilterFileList(list);
      if m.Success? {
        var packaged := m.value;
        assert FilterFileFlags(args).value == [Valued(FilterFileFlag, packaged)];
        assert Split(packaged, ';') == seq(|entries|, i requires 0 <= i < |entries| =>
                   MapFilterFileToPackageFile(entries[i]).value);
      } else {
        assert m.error == UnregisteredFilterFile by {
          assert MapEach(entries).Failure?;
        }
      }
    }
  }
}
