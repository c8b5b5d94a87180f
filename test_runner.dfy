/** One run of `main`, from the parsed options to what it hands the test package and what it
    copies back afterwards. The deployment target and the ffx session are opaque inputs; the
    test itself is not run, so the plan records the arguments the runner would launch it with. */
module TestRunner {
  import opened Wrappers
  import opened Text
  import opened TestOutputs
  import opened FilterFiles
  import opened Options
  import opened CommandLine

  /** What `main` decides for one run. */
  datatype RunPlan = RunPlan(
    childArgs: seq<string>,             // the test process's command line
    testRealms: seq<string>,            // realms the package runs in
    testConcurrency: Option<int>,       // parallel jobs, also handed to the test server
    ffxSession: Option<FfxSession>,     // the session passed to the package runner
    outputDirectory: Option<string>,    // where ffx stages CFv2 artifacts
    retrievals: seq<CopyRequest>)       // copies made after the test finished

  /** The copy one requested output leads to, once the outputs session (if any) is open with
      the given staging directory. */
  function Fetch(outputs: TestOutputs, outputDir: string, requested: Option<string>, glob: string): seq<CopyRequest> {
    if !IsTruthyString(requested) then []
    else match outputs
      case TargetOutputs(t) => [t.GetFile(glob, requested.value)]
      case CustomArtifactsOutputs(_) => [HostCopy(StagedPath(outputDir, glob), requested.value)]
  }

  /** Everything copied back after the run, in order: coverage profiles, then the summary, the
      isolated-script output and the perf output, each only when requested. */
  function Retrievals(args: ParsedArgs, outputs: TestOutputs, outputDir: string): seq<CopyRequest> {
    (if args.codeCoverage then [outputs.GetCoverageProfiles(args.codeCoverageDir)] else [])
    + Fetch(outputs, outputDir, args.testLauncherSummaryOutput, TestResultFile)
    + Fetch(outputs, outputDir, args.isolatedScriptTestOutput, TestResultFile)
    + Fetch(outputs, outputDir, args.isolatedScriptTestPerfOutput, TestPerfResultFile)
  }

  /** Copies the results back. CFv1 always succeeds; CFv2 succeeds while its session is open
      and, with the session closed, fails on the first requested result file. */
  method CollectOutputs(args: ParsedArgs, outputs: TestOutputs) returns (r: Result<seq<CopyRequest>, Error>)
    ensures outputs.TargetOutputs? ==> r == Success(Retrievals(args, outputs, ""))
    ensures outputs.CustomArtifactsOutputs? && outputs.customOutputs.ffxSession.Some? ==>
      r == Success(Retrievals(args, outputs, outputs.customOutputs.ffxSession.value.outputDir))
    ensures outputs.CustomArtifactsOutputs? && outputs.customOutputs.ffxSession.None? ==>
      (r.Failure? <==> IsTruthyString(args.testLauncherSummaryOutput) || IsTruthyString(args.isolatedScriptTestOutput)
                       || IsTruthyString(args.isolatedScriptTestPerfOutput))
      && (r.Failure? ==> r.error == SessionNotOpen)
      && (r.Success? ==> r.value == Retrievals(args, outputs, ""))
  {
    ghost var dir := if outputs.CustomArtifactsOutputs? && outputs.customOutputs.ffxSession.Some?
      then outputs.customOutputs.ffxSession.value.outputDir else "";
    var copies: seq<CopyRequest> := [];
    if args.codeCoverage {
      copies := copies + [outputs.GetCoverageProfiles(args.codeCoverageDir)];
    }
    if IsTruthyString(args.testLauncherSummaryOutput) {
      var copy := outputs.GetFile(TestResultFile, args.testLauncherSummaryOutput.value);
      if copy.Failure? {
        return Failure(copy.error);
      }
      copies := copies + [copy.value];
    }
    assert copies == (if args.codeCoverage then [outputs.GetCoverageProfiles(args.codeCoverageDir)] else [])
      + Fetch(outputs, dir, args.testLauncherSummaryOutput, TestResultFile);
    if IsTruthyString(args.isolatedScriptTestOutput) {
      var copy := outputs.GetFile(TestResultFile, args.isolatedScriptTestOutput.value);
      if copy.Failure? {
        return Failure(copy.error);
      }
      copies := copies + [copy.value];
    }
    assert copies == (if args.codeCoverage then [outputs.GetCoverageProfiles(args.codeCoverageDir)] else [])
      + Fetch(outputs, dir, args.testLauncherSummaryOutput, TestResultFile)
      + Fetch(outputs, dir, args.isolatedScriptTestOutput, TestResultFile);
    if IsTruthyString(args.isolatedScriptTestPerfOutput) {
      var copy := outputs.GetFile(TestPerfResultFile, args.isolatedScriptTestPerfOutput.value);
      if copy.Failure? {
        return Failure(copy.error);
      }
      copies := copies + [copy.value];
    }
    assert copies == Retrievals(args, outputs, dir);
    r := Success(copies);
  }

  /** The flow of `main`: option fix-ups, the bot override, the generated arguments and the
      concurrency, the realms, the outputs strategy (entered with the session the ffx context
      opened), output paths, the filter file, the test-server check, the session and staging
      directory handed to the package runner, then the copies back; the strategy is exited on
      every path once it exists. */
  method RunTest(parsed: ParsedArgs, hostArch: string, target: Target, session: FfxSession)
    returns (r: Result<RunPlan, Error>, outputs: Option<TestOutputs>)
    ensures ApplyOptionFixups(parsed).Failure? ==> r == Failure(ApplyOptionFixups(parsed).error) && outputs == None
    ensures ApplyOptionFixups(parsed).Success? ==>
      var args := MaybeApplyTestBotOverrides(ApplyOptionFixups(parsed).value, hostArch);
      outputs.Some?
      && (outputs.value.CustomArtifactsOutputs? <==> args.componentVersion == "2")
      && (outputs.value.TargetOutputs? ==>
            outputs.value.targetOutputs == TargetTestOutputs(target, args.packageName, TestRealms(args.useRunTestComponent)))
      && (outputs.value.CustomArtifactsOutputs? ==>
            outputs.value.customOutputs.target == target && outputs.value.customOutputs.ffxSession == None)
      && (ChildArgs(args, outputs.value).Failure? ==> r == Failure(ChildArgs(args, outputs.value).error))
      && (ChildArgs(args, outputs.value).Success? && args.enableTestServer && !IsTruthyInt(TestConcurrency(args)) ==>
            r == Failure(NoTestConcurrency))
      && (ChildArgs(args, outputs.value).Success? && !(args.enableTestServer && !IsTruthyInt(TestConcurrency(args))) ==>
            r == Success(RunPlan(
              ChildArgs(args, outputs.value).value,
              TestRealms(args.useRunTestComponent),
              TestConcurrency(args),
              if args.componentVersion == "2" then Some(session) else None,
              if args.componentVersion == "2" then Some(session.outputDir) else None,
              Retrievals(args, outputs.value, if args.componentVersion == "2" then session.outputDir else ""))))
  {
    var fixed := ApplyOptionFixups(parsed);
    if fixed.Failure? {
      return Failure(fixed.error), None;
    }
    var args := MaybeApplyTestBotOverrides(fixed.value, hostArch);

    var childArgs, testConcurrency := BuildChildArgs(args);
    var testRealms := TestRealms(args.useRunTestComponent);

    var o := MakeTestOutputs(args.componentVersion, target, args.packageName, testRealms);
    outputs := Some(o);
    o.Enter(session);
    childArgs := AppendOutputArgs(childArgs, args, o);
    var filtered := AppendFilterFileArg(childArgs, args);
    if filtered.Failure? {
      o.Exit();
      return Failure(filtered.error), outputs;
    }
    childArgs := filtered.value;
    assert childArgs == ChildArgs(args, o).value;

    if args.enableTestServer && !IsTruthyInt(testConcurrency) {
      o.Exit();
      return Failure(NoTestConcurrency), outputs;
    }

    var outputDirectory: Option<string> := None;
    if args.componentVersion == "2" {
      var dir := o.customOutputs.GetOutputDirectory();
      outputDirectory := Some(dir.value);
    }
    var ffx := o.GetFfxSession();

    var copies := CollectOutputs(args, o);
    o.Exit();
    r := Success(RunPlan(childArgs, testRealms, testConcurrency, ffx.value, outputDirectory, copies.value));
  }

  /** A requested result is fetched from where the child was told to write it: CFv1 names a
      device path under /tmp and copies that very path, scoped to the package and realms; CFv2
      names a path under /custom_artifacts and copies the same relative path out of the
      session's staging directory. */
  predicate FetchedAsWritten(outputs: TestOutputs, outputDir: string, flags: seq<LaunchFlag>, copies: seq<CopyRequest>,
                             flag: string, requested: Option<string>, glob: string)
  {
    IsTruthyString(requested) ==>
      (outputs.TargetOutputs? ==>
        Valued(flag, "/tmp/" + glob) in flags
        && DeviceCopy(outputs.targetOutputs.target, "/tmp/" + glob, requested.value,
             Scoped(outputs.targetOutputs.packageName, Some(outputs.targetOutputs.testRealms))) in copies)
      && (outputs.CustomArtifactsOutputs? ==>
        Valued(flag, CustomArtifactsDir + glob) in flags
        && HostCopy(StagedPath(outputDir, glob), requested.value) in copies)
  }

  /** The summary, the isolated-script output and the perf output are each fetched from where
      the child was told to write them. */
  lemma ResultsFetchedFromWhereWritten(args: ParsedArgs, outputs: TestOutputs, outputDir: string)
    ensures var flags := OutputFlags(args, outputs);
      var copies := Retrievals(args, outputs, outputDir);
      FetchedAsWritten(outputs, outputDir, flags, copies, SummaryOutputFlag, args.testLauncherSummaryOutput, TestResultFile)
      && FetchedAsWritten(outputs, outputDir, flags, copies, IsolatedOutputFlag, args.isolatedScriptTestOutput, TestResultFile)
      && FetchedAsWritten(outputs, outputDir, flags, copies, IsolatedPerfOutputFlag, args.isolatedScriptTestPerfOutput, TestPerfResultFile)
  {
    var front := if args.codeCoverage then [outputs.GetCoverageProfiles(args.codeCoverageDir)] else [];
    var f1 := Fetch(outputs, outputDir, args.testLauncherSummaryOutput, TestResultFile);
    var f2 := Fetch(outputs, outputDir, args.isolatedScriptTestOutput, TestResultFile);
    var f3 := Fetch(outputs, outputDir, args.isolatedScriptTestPerfOutput, TestPerfResultFile);
    var copies := Retrievals(args, outputs, outputDir);
    assert copies == front + f1 + f2 + f3;
    if f1 != [] { assert f1[0] in copies; }
    if f2 != [] { assert f2[0] in copies; }
    if f3 != [] { assert f3[0] in copies; }
    OutputFlagsUseDevicePaths(args, outputs);
  }

  /** What kind of copy each retrieval is. CFv1 copies everything from the device: results
      scoped to its package and realms, coverage profiles unscoped. CFv2 copies results on the
      host and only the coverage profiles from the device, with the target's default scope. */
  lemma RetrievalKinds(args: ParsedArgs, outputs: TestOutputs, outputDir: string)
    ensures outputs.TargetOutputs? ==>
      forall c :: c in Retrievals(args, outputs, outputDir) ==>
        c.DeviceCopy? && c.target == outputs.targetOutputs.target
        && (c.scope == Scoped(outputs.targetOutputs.packageName, Some(outputs.targetOutputs.testRealms))
            || (args.codeCoverage && c == outputs.GetCoverageProfiles(args.codeCoverageDir) && c.scope == Scoped(None, None)))
    ensures outputs.CustomArtifactsOutputs? ==>
      forall c :: c in Retrievals(args, outputs, outputDir) ==>
        c.HostCopy? || (args.codeCoverage && c.DeviceCopy? && c.scope == DefaultScope)
  {
    var front := if args.codeCoverage then [outputs.GetCoverageProfiles(args.codeCoverageDir)] else [];
    var f1 := Fetch(outputs, outputDir, args.testLauncherSummaryOutput, TestResultFile);
    var f2 := Fetch(outputs, outputDir, args.isolatedScriptTestOutput, TestResultFile);
    var f3 := Fetch(outputs, outputDir, args.isolatedScriptTestPerfOutput, TestPerfResultFile);
    assert Retrievals(args, outputs, outputDir) == front + f1 + f2 + f3;
  }

  /** The layout of the test process's command line: the generated flags, then the
      `--child-arg` values, then the positional arguments, each group in its input order, then
      the output paths and finally the filter file. */
  lemma ChildArgsLayout(args: ParsedArgs, outputs: TestOutputs)
    requires ChildArgs(args, outputs).Success?
    ensures var r := ChildArgs(args, outputs).value;
      var n1 := |LaunchFlags(args)|;
      var n2 := n1 + |args.childArg|;
      var n3 := n2 + |args.childArgs|;
      n3 <= |r|
      && ParseAll(r[..n1]) == LaunchFlags(args)
      && r[n1..n2] == args.childArg
      && r[n2..n3] == args.childArgs
      && ParseAll(r[n3..]) == OutputFlags(args, outputs) + FilterFileFlags(args).value
  {
    var launch := RenderAll(LaunchFlags(args));
    var tail := RenderAll(OutputFlags(args, outputs)) + RenderAll(FilterFileFlags(args).value);
    var r := ChildArgs(args, outputs).value;
    assert r == launch + args.childArg + args.childArgs + tail;
    var n1 := |LaunchFlags(args)|;
    var n2 := n1 + |args.childArg|;
    var n3 := n2 + |args.childArgs|;
    assert r[..n1] == launch;
    assert r[n1..n2] == args.childArg;
    assert r[n2..n3] == args.childArgs;
    assert r[n3..] == tail;
    ChildReadsLaunchFlags(args);
    RenderAllAppend(OutputFlags(args, outputs), FilterFileFlags(args).value);
    TrailingFlagsWellFormed(args, outputs);
    ParseAllRenderAll(OutputFlags(args, outputs) + FilterFileFlags(args).value);
  }

  /** The output-path and filter-file flags also have names the child can split off. */
  lemma TrailingFlagsWellFormed(args: ParsedArgs, outputs: TestOutputs)
    requires FilterFileFlags(args).Success?
    ensures forall f :: f in OutputFlags(args, outputs) + FilterFileFlags(args).value ==> IsFlagName(f.name)
  {
    var output := OutputFlags(args, outputs);
    var filter := FilterFileFlags(args).value;
    OutputFlagNamesWellFormed();
    assert forall f :: f in output ==> IsFlagName(f.name);
    assert forall f :: f in filter ==> IsFlagName(f.name);
  }

  /** With the test server enabled, the runner's assertion on the concurrency fails exactly when
      no job count is given, the target is not a physical device and the emulator has zero
      cores (after the bot override, which never turns a non-zero core count into zero). */
  lemma TestServerConcurrencyCheck(parsed: ParsedArgs, hostArch: string)
    requires parsed.enableTestServer
    ensures var args := MaybeApplyTestBotOverrides(parsed, hostArch);
      !IsTruthyInt(TestConcurrency(args)) <==>
        !IsTruthyInt(parsed.testLauncherJobs) && parsed.device != Some("device") && parsed.cpuCores == 0
  {
  }
}
