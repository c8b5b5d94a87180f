/** The parsed command line and the decisions the runner takes from it before launching the
    test: option fix-ups, the arm64 bot override, test concurrency and the test realms. */
module Options {
  import opened Wrappers

  const DefaultTestServerConcurrency := 4
  const TestRealmName := "chromium_tests"

  /** The options the runner reads, as argparse leaves them. `None` is an option that was not
      given; a repeatable option that was never given is the empty list. */
  datatype ParsedArgs = ParsedArgs(
    outDir: Option<string>,
    componentVersion: string,
    packageName: Option<string>,
    device: Option<string>,
    cpuCores: int,
    useRunTestComponent: bool,
    codeCoverage: bool,
    codeCoverageDir: string,
    enableTestServer: bool,
    testLauncherBotMode: bool,
    testLauncherShardIndex: Option<int>,
    testLauncherTotalShards: Option<int>,
    singleProcessTests: bool,
    testLauncherBatchLimit: Option<int>,
    testLauncherJobs: Option<int>,
    testLauncherPrintTestStdio: Option<string>,
    gtestFilter: Option<string>,
    gtestRepeat: Option<string>,
    testLauncherRetryLimit: Option<string>,
    gtestBreakOnFailure: bool,
    gtestAlsoRunDisabledTests: bool,
    childArg: seq<string>,
    childArgs: seq<string>,
    testLauncherSummaryOutput: Option<string>,
    isolatedScriptTestOutput: Option<string>,
    isolatedScriptTestPerfOutput: Option<string>,
    testLauncherFilterFile: Option<string>)

  /** Python truthiness of an optional string: given and non-empty. */
  predicate IsTruthyString(o: Option<string>) {
    o.Some? && o.value != ""
  }

  /** Python truthiness of an optional integer: given and non-zero. */
  predicate IsTruthyInt(o: Option<int>) {
    o.Some? && o.value != 0
  }

  /** The checks and adjustments `main` makes before anything else: a missing output directory
      is an error; CFv2 never uses run-test-component; code coverage under CFv1 needs
      run-test-component, which is forced on when the test server is enabled and is an error
      otherwise. Only `useRunTestComponent` ever changes. */
  function ApplyOptionFixups(args: ParsedArgs): (r: Result<ParsedArgs, Error>)
    ensures r == Failure(OutDirMissing) <==> !IsTruthyString(args.outDir)
    ensures r == Failure(CoverageNeedsRunTestComponent) <==>
      IsTruthyString(args.outDir) && args.codeCoverage && args.componentVersion != "2"
      && !args.useRunTestComponent && !args.enableTestServer
    ensures r.Success? <==>
              IsTruthyString(args.outDir)
              && !(args.codeCoverage && args.componentVersion != "2" && !args.useRunTestComponent && !args.enableTestServer)
    ensures r.Success? ==> r.value == args.(useRunTestComponent := r.value.useRunTestComponent)
    ensures r.Success? && args.componentVersion == "2" ==> !r.value.useRunTestComponent
    ensures r.Success? && args.componentVersion != "2" && args.codeCoverage ==> r.value.useRunTestComponent
    ensures r.Success? && args.componentVersion != "2" && !args.codeCoverage ==> r.value == args
  {
    if !IsTruthyString(args.outDir) then Failure(OutDirMissing)
    else
      var a := if args.componentVersion == "2" then args.(useRunTestComponent := false) else args;
      if a.codeCoverage && a.componentVersion != "2" && !a.useRunTestComponent then
        if a.enableTestServer then Success(a.(useRunTestComponent := true))
        else Failure(CoverageNeedsRunTestComponent)
      else Success(a)
  }

  /** On a bot running on an arm64 host the emulator gets at most four cores; nothing else
      changes, and in every other case nothing changes at all. */
  function MaybeApplyTestBotOverrides(args: ParsedArgs, hostArch: string): (r: ParsedArgs)
    ensures r == args.(cpuCores := r.cpuCores)
    ensures !(args.testLauncherBotMode && hostArch == "arm64") ==> r == args
    ensures args.testLauncherBotMode && hostArch == "arm64" ==>
      r.cpuCores <= 4 && r.cpuCores <= args.cpuCores && (r.cpuCores == 4 || r.cpuCores == args.cpuCores)
  {
    if !args.testLauncherBotMode then args
    else if hostArch == "arm64" then args.(cpuCores := if args.cpuCores < 4 then args.cpuCores else 4)
    else args
  }

  /** How many parallel jobs the test launcher is told to run: an explicit non-zero job count
      wins; otherwise, with the test server enabled, four on a physical device and the
      emulator's core count elsewhere; otherwise none. */
  function TestConcurrency(args: ParsedArgs): (r: Option<int>)
    ensures IsTruthyInt(args.testLauncherJobs) ==> r == args.testLauncherJobs
    ensures !IsTruthyInt(args.testLauncherJobs) && !args.enableTestServer ==> r == None
    ensures !IsTruthyInt(args.testLauncherJobs) && args.enableTestServer ==>
      r.Some?
      && (args.device == Some("device") ==> r == Some(DefaultTestServerConcurrency))
      && (args.device != Some("device") ==> r == Some(args.cpuCores))
  {
    if IsTruthyInt(args.testLauncherJobs) then args.testLauncherJobs
    else if args.enableTestServer then
      if args.device == Some("device") then Some(DefaultTestServerConcurrency) else Some(args.cpuCores)
    else None
  }

  /** The realms the package runs in: the Chromium test realm exactly when run-test-component
      is used, none otherwise. */
  function TestRealms(useRunTestComponent: bool): (r: seq<string>)
    ensures r == [TestRealmName] <==> useRunTestComponent
    ensures !useRunTestComponent ==> r == []
  {
    if useRunTestComponent then [TestRealmName] else []
  }

  /** On an arm64 bot the concurrency the test server derives from the core count, after the
      override, never exceeds four. */
  lemma ArmBotConcurrencyCapped(args: ParsedArgs, hostArch: string)
    requires args.testLauncherBotMode && hostArch == "arm64"
    requires !IsTruthyInt(args.testLauncherJobs) && args.enableTestServer
    ensures TestConcurrency(MaybeApplyTestBotOverrides(args, hostArch)).value <= 4
  {
  }

  /** After the fix-ups, CFv2 tests run in no realm, and CFv1 tests that collect coverage run in
      the Chromium test realm. */
  lemma RealmsAfterFixups(args: ParsedArgs)
    requires ApplyOptionFixups(args).Success?
    ensures var a := ApplyOptionFixups(args).value;
      (args.componentVersion == "2" ==> TestRealms(a.useRunTestComponent) == [])
      && (args.componentVersion != "2" && args.codeCoverage ==> TestRealms(a.useRunTestComponent) == [TestRealmName])
  {
  }
}
