# Fuchsia test runner: launch decisions and output retrieval

This project models, in Dafny, the decision logic of Chromium's Fuchsia test runner
(`fuchsia/test_runner.py`). The runner deploys a test package to a Fuchsia target, launches it
with a command line derived from its own options, and copies the test's results back. It has
the following pieces, each with a module:

- **Output strategies** (`TestOutputs`). CFv1 tests write under `/tmp` on the device. Their
  files are fetched with the target's remote copy, scoped to the package and its realms. CFv2
  tests write under `/custom_artifacts`, and an ffx session stages their files on the host.
  - The CFv1 strategy is a value.
  - The CFv2 strategy is a class whose `ffxSession` field is set on entry and cleared on exit.
  - `MakeTestOutputs` picks CFv2 exactly for component version `"2"`.
  - Retrieval is modelled as the copy request each call would issue: a device copy with its
    scope, or a host copy out of the staging directory.
- **Filter files** (`FilterFiles`). CFv2 can only use filter files packaged with the test.
  - Each `;`-separated entry must contain `testing/buildbot/filters`.
  - Each entry is rewritten to `/pkg/` plus its suffix from that directory on.
- **Options** (`Options`). The parsed command line is a record. The record is then adjusted:
  - the output directory is required;
  - CFv2 turns run-test-component off;
  - CFv1 coverage needs run-test-component;
  - arm64 bots cap the emulator at four cores.
  
  The same module holds the test concurrency rule and the test realms.
- **The child's command line** (`CommandLine`). The generated launcher flags come first, in
  the runner's order. Then the `--child-arg` values, then the positional arguments, then the
  output paths (device paths of the chosen strategy), and last the filter file.
  - Flags are modelled as `--name` or `--name=value` and rendered to strings.
  - The child recovers them by splitting at the first `=`.
  - Each group of arguments is built by successive appends, as the runner does, and the
    groups are then concatenated. Each builder method is proved equal to a function over the
    options. Lemmas about that function state what
    is forwarded and when, and in what order.
- **One run of `main`** (`TestRunner`). It goes from fix-ups to the copies back. The deployment
  target, the session the ffx context opens, and the host architecture are inputs. Python's
  `%d`, `str.split`/`str.join`, `in`/`str.index` and `os.path.join` are modelled in `Text`.

Two behaviours of the code worth noting:

- CFv2's `GetCoverageProfiles` copies
  `/tmp/test_manager:0/children/debug_data:0/data/llvm-profile/*`. That is a device copy under
  `/tmp`, not under `/custom_artifacts` (`CoverageProfileSources`).
- CFv1's `GetFfxSession` returns `None` (fuchsia/test_runner.py:74-75).

The order of `main` puts the output-path flags (lines 354-362) and the filter-file flag
(lines 367-387) after the positional arguments. The model keeps that order.

## Model

| member | source | states |
|---|---|---|
| `Text.FindFirst` | fuchsia/test_runner.py:242-245 | `None` exactly when the pattern does not occur; otherwise an occurrence with none earlier (Python's `in` and `str.index`) |
| `Text.Split` | fuchsia/test_runner.py:373 | `str.split` on one character gives at least one piece, none holding the separator |
| `Text.JoinSplit` | fuchsia/test_runner.py:371-375 | joining the pieces of a split restores the string |
| `Text.SplitJoin` | fuchsia/test_runner.py:371-375 | splitting a join of separator-free pieces restores the pieces |
| `Text.PathJoin` | fuchsia/test_runner.py:126 | `os.path.join`: an absolute component replaces the prefix; a slash is inserted only after a non-empty prefix not ending in one |
| `Text.IntToString` | fuchsia/test_runner.py:293-298 | `'%d'`: a minus sign exactly for negatives, then decimal digits only |
| `Text.NatToStringValue` | fuchsia/test_runner.py:293-298 | the decimal digits written for a natural number denote that number, only zero starts with `0`, and a number below ten is one digit |
| `Text.IntToStringValue` | fuchsia/test_runner.py:293-298 | the digits `'%d'` writes after the optional sign denote the magnitude of the number |
| `TestOutputs.TargetTestOutputs.GetFile` | fuchsia/test_runner.py:80-85 | one device copy of `/tmp/<glob>` to the destination, on the stored target, scoped to the stored package name and realms unchanged |
| `TestOutputs.CustomArtifactsTestOutputs.constructor` | fuchsia/test_runner.py:98-102 | the target is stored and no session is open |
| `TestOutputs.CustomArtifactsTestOutputs.Enter` | fuchsia/test_runner.py:104-106 | the session opened by the ffx context is stored |
| `TestOutputs.CustomArtifactsTestOutputs.Exit` | fuchsia/test_runner.py:108-111 | the session is cleared |
| `TestOutputs.CustomArtifactsTestOutputs.GetFfxSession` | fuchsia/test_runner.py:113-115 | succeeds exactly when a session is open and returns it; fails its assertion otherwise |
| `TestOutputs.CustomArtifactsTestOutputs.GetOutputDirectory` | fuchsia/test_runner.py:120-121 | the open session's output directory; an error without a session |
| `TestOutputs.CustomArtifactsTestOutputs.GetFile` | fuchsia/test_runner.py:123-127 | a host copy from `<output dir>/artifact-0/custom-0/<glob>` exactly when a session is open; otherwise the session error |
| `TestOutputs.TestOutputs.GetFfxSession` | fuchsia/test_runner.py:74-75 | CFv1 always answers `None`; CFv2 succeeds exactly when its session is open, with that session, and otherwise fails with the missing-session error |
| `TestOutputs.TestOutputs.Enter` | fuchsia/test_runner.py:42-43 | CFv2 stores the session; CFv1 entry changes nothing |
| `TestOutputs.TestOutputs.Exit` | fuchsia/test_runner.py:45-46 | CFv2 clears the session; CFv1 exit changes nothing |
| `TestOutputs.MakeTestOutputs` | fuchsia/test_runner.py:138-141 | CFv2 exactly for component version `"2"`, fresh and with no session; any other version gives CFv1 with the package name and realms unchanged |
| `TestOutputs.DevicePathNamespaces` | fuchsia/test_runner.py:77-118 | CFv1 device paths are `/tmp/` + path, CFv2 ones `/custom_artifacts/` + path; neither carries the other's prefix and they never coincide |
| `TestOutputs.StagedPathLayout` | fuchsia/test_runner.py:123-127 | a relative glob is read from `artifact-0/custom-0/` under the output directory; an absolute glob replaces the whole path |
| `TestOutputs.SessionLifecycle` | fuchsia/test_runner.py:98-115 | the session state machine: no session before entry, the entered one inside, none after exit |
| `TestOutputs.CoverageProfileSources` | fuchsia/test_runner.py:87-135 | CFv1 copies `/tmp/llvm-profile/*` with no package or realm scope; CFv2 copies the test manager's debug-data profiles with the target's default scope; both sources lie under `/tmp`, neither under `/custom_artifacts` |
| `FilterFiles.MapFilterFileToPackageFile` | fuchsia/test_runner.py:239-245 | rejected exactly when the filter directory does not occur; otherwise `/pkg/` plus the suffix from its first occurrence |
| `FilterFiles.RewrittenFilterFile` | fuchsia/test_runner.py:245 | a rewritten path starts with `/pkg/testing/buildbot/filters`, keeps the original's tail and gains no `;` |
| `FilterFiles.MapEach` | fuchsia/test_runner.py:371-373 | every entry is rewritten in order, and the whole map fails exactly when some entry is unregistered |
| `FilterFiles.MapFilterFileListEntries` | fuchsia/test_runner.py:367-375 | the `;` list fails exactly when an entry (an empty one included) is unregistered; otherwise splitting the result gives one rewritten entry per original entry |
| `Options.ApplyOptionFixups` | fuchsia/test_runner.py:269-286 | missing output directory and CFv1 coverage without run-test-component or test server are the two errors, and it succeeds exactly when neither holds; version `"2"` turns run-test-component off; CFv1 coverage turns it on; nothing else changes |
| `Options.MaybeApplyTestBotOverrides` | fuchsia/test_runner.py:248-259 | only on an arm64 bot, cores become `min(cores, 4)`; nothing else ever changes |
| `Options.TestConcurrency` | fuchsia/test_runner.py:312-319 | a truthy job count wins; else with the test server four on a device and the core count elsewhere; else none |
| `Options.TestRealms` | fuchsia/test_runner.py:344-346 | `["chromium_tests"]` exactly when run-test-component is used, `[]` otherwise |
| `Options.ArmBotConcurrencyCapped` | fuchsia/test_runner.py:254-319 | on an arm64 bot the test-server concurrency derived from cores is at most four |
| `Options.RealmsAfterFixups` | fuchsia/test_runner.py:273-346 | after the fix-ups CFv2 runs in no realm and CFv1 with coverage in the Chromium test realm |
| `CommandLine.ParseRender` | fuchsia/test_runner.py:293-295 | a `--name=value` argument reads back as its name and value, whatever the value holds |
| `CommandLine.ChildReadsLaunchFlags` | fuchsia/test_runner.py:292-337 | the child, splitting each generated argument at its first `=`, recovers exactly the generated flags |
| `CommandLine.ProcessFlagArgs` | fuchsia/test_runner.py:292-305 | appends the shard, single-process, bot-mode and batch-limit arguments; the result is the rendering of `ProcessFlags` |
| `CommandLine.ConcurrencyFlagArgs` | fuchsia/test_runner.py:312-324 | computes the concurrency rule and appends the job count and stdio arguments; the results are `TestConcurrency` and the rendering of `ConcurrencyFlags` |
| `CommandLine.GtestFlagArgs` | fuchsia/test_runner.py:326-337 | appends the gtest arguments; the result is the rendering of `GtestFlags` |
| `CommandLine.BuildChildArgs` | fuchsia/test_runner.py:292-342 | the generated flags in order, then every `--child-arg` value, then the positional arguments; the concurrency is the rule's |
| `CommandLine.ProcessFlagNames` | fuchsia/test_runner.py:292-305 | which sharding and process flags appear, each under its own condition |
| `CommandLine.ConcurrencyFlagNames` | fuchsia/test_runner.py:320-324 | the job count appears exactly when the concurrency is truthy, the stdio policy when non-empty |
| `CommandLine.GtestFlagNames` | fuchsia/test_runner.py:326-337 | which gtest flags appear, the timeout switch-off together with the repeat count |
| `CommandLine.LaunchFlagNames` | fuchsia/test_runner.py:292-337 | a flag appears among the generated flags exactly when it appears in one of the three groups |
| `CommandLine.ProcessFlagsForwarded` | fuchsia/test_runner.py:293-305 | shard index and total shards appear exactly when given (zero included) with their `%d` value; the switches exactly when set; the batch limit exactly when non-zero |
| `CommandLine.ConcurrencyFlagsForwarded` | fuchsia/test_runner.py:312-324 | `--test-launcher-jobs=N` appears exactly when the concurrency is truthy, with that value; the stdio policy exactly when non-empty |
| `CommandLine.GtestFlagsForwarded` | fuchsia/test_runner.py:326-337 | gtest filter, repeat and retry limit appear exactly when non-empty, the timeout switch-off exactly with a repeat count, the switches exactly when set |
| `CommandLine.GtestRepeatThenTimeout` | fuchsia/test_runner.py:328-330 | within the gtest flags, a repeat count is immediately followed by `--test-launcher-timeout=-1` |
| `CommandLine.RepeatDisablesTimeout` | fuchsia/test_runner.py:328-330 | among all generated flags, `--gtest_repeat` is always immediately followed by `--test-launcher-timeout=-1` |
| `CommandLine.AppendOutputArgs` | fuchsia/test_runner.py:354-362 | appends the output-path arguments; the result is the rendering of `OutputFlags` |
| `CommandLine.OutputFlagsUseDevicePaths` | fuchsia/test_runner.py:354-362 | each output path is passed exactly when requested and names the result file under the strategy's own device root |
| `CommandLine.AppendFilterFileArg` | fuchsia/test_runner.py:367-387 | appends the filter-file argument or returns the rejection, as `FilterFileFlags` decides |
| `CommandLine.FilterFileFlagChoice` | fuchsia/test_runner.py:367-387 | no filter file adds nothing; CFv1 names `/tmp/test_filter.txt`; CFv2 names the `;`-joined packaged copies and fails exactly when an entry is unregistered |
| `TestRunner.CollectOutputs` | fuchsia/test_runner.py:409-421 | CFv1, and CFv2 with its session open, copy coverage then summary, isolated and perf results as requested; a closed CFv2 session fails exactly when a result file is requested, and otherwise still makes the coverage copy |
| `TestRunner.RunTest` | fuchsia/test_runner.py:269-423 | the run's errors in the runner's order; otherwise the child's command line, realms, concurrency, the session and staging directory handed on, and the copies back; the strategy is CFv2 exactly for version `"2"`, on the given target, and CFv1 carries the target, package name and realms; the CFv2 session is closed at the end |
| `TestRunner.ResultsFetchedFromWhereWritten` | fuchsia/test_runner.py:354-421 | every requested result is fetched from where the child was told to write it |
| `TestRunner.RetrievalKinds` | fuchsia/test_runner.py:80-135 | CFv1 copies only from the device, results scoped to package and realms and coverage unscoped; CFv2 copies results on the host and only coverage from the device |
| `TestRunner.ChildArgsLayout` | fuchsia/test_runner.py:292-387 | generated flags, then `--child-arg` values, then positional arguments, then output paths and the filter file, each group in its own order |
| `TestRunner.TestServerConcurrencyCheck` | fuchsia/test_runner.py:389-393 | with the test server on, the concurrency assertion fails exactly when there is no job count, no physical device and zero cores |

## Left out

- Argument parsing (`AddTestExecutionArgs`, `AddCommonArgs`, `AddTargetSpecificArgs`): declarative library configuration. The parsed record is the input. `component_version` is taken to be a string and `cpu_cores` an integer.
- The in-place updates of the argparse namespace (`use_run_test_component`, `cpu_cores`) are modelled as functions returning the updated record. Nothing else holds a reference to the namespace, so aliasing plays no part.
- `common.GetHostArchFromPlatform` becomes the `hostArch` input. `GetDeploymentTargetForArgs` and its context become the opaque `Target` input.
- `ffx_session.FfxSession` is a foreign context manager. The session its `__enter__` returns is an input, and its own `__exit__` is not modelled.
- File I/O is left out; only the requests are modelled:
  - `shutil.copy` and `target.GetFile` are recorded as copy requests, not performed;
  - the CFv1 filter-file concatenation through a temporary file and `target.PutFile` (lines 376-386) are left out, and only the resulting `--test-launcher-filter-file` argument is modelled.
- `target.Start`, `target.StartSystemLog`, `ConfigureLogging`, `SetupTestServer` and `test_server.Stop` are side effects on foreign objects and are not modelled.
- `RunTestPackageArgs.FromCommonArgs` and the realm label and run-test-component settings on it (lines 395-398) are not modelled. The model records what is handed to `RunTestPackage`: the child arguments, the session and the CFv2 output directory. `RunTestPackage` itself, and the return code it gives, are not part of this model.
- The `try`/`except` translation into an exit code by `HandleExceptionAndReturnExitCode` is not modelled. Errors are `Failure` values, one per exception kind, and the strategy is exited on every failing path after it was created.
- `rust/tests/test_rust_static_library/src/lib.rs` is a build-test fixture with no decision logic and is not part of this model.
