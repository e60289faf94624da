# s3test run engine in Dafny

A model of the decision logic of the s3test conformance harness, which runs
a fixed battery of JUnit tests against an S3-compatible server. It covers:

- the **command-line scan** at the start of `RunTests.main`: exclude and include patterns, the log root and the target URI, or the usage message and exit status 1;
- the **name filter** the runner installs on every test class, in which an exclude match rejects a test before any include pattern is consulted;
- the **`SkipForQuirks` rule**, which swaps a test for an always-failing assumption naming the first declared quirk the target server has;
- the **per-test diagnostics**: the `FileLogger` that redirects HTTP wire logging into `root/DeclaringClass/testMethod/wire.log` while a test runs and then restores the previous logging configuration, and the `TextListener` that prints exactly one marker per test and sends failure traces to `root/TestClass/testMethod/error.log` or to the console. The wire log is named after the class that declares the test method, the error log after the class being run; for an inherited test method the two logs are in different directories, and subclasses inheriting the same method share one wire log.

Modules, one file each:

| module | file | what it holds |
|---|---|---|
| `Wrappers` | wrappers.dfy | `Option`, for Java's nullable references |
| `Quirks` | quirks.dfy | the 17-value `Quirk` enum and its constant names |
| `Statements` | statements.dfy | JUnit statements: a test body, or an `IgnoreStatement` around another statement; evaluation |
| `SkipRules` | skip_rules.dfy | `SkipForQuirksRule.apply` and its first-match search |
| `NameFilter` | name_filter.dfy | `shouldRun` of the runner's anonymous filter |
| `CommandLine` | command_line.dfy | the option loop (an imperative method), its specification, and the usage decision |
| `WireLogging` | wire_logging.dfy | `Host` (global state), `FileLogger`, the `methodInvoker` wrapper |
| `Reporting` | reporting.dfy | `TextListener` and a pure model of its per-test state |
| `Runner` | runner.dfy | creating the file logger and listener from the options |

Abstractions:

- **Regular expressions.** Patterns stay the strings given on the command line. Whether a pattern fully matches a name is a parameter `fullMatch: (string, string) -> bool`.
- **Global state.** The process-wide state (the log4j configuration, the file system and standard output) is the class `WireLogging.Host`. Every method that touches it receives it as a parameter.
- **Logging configuration.** A configuration is reduced to where the `org.apache.http.wire` logger writes: nowhere (`WireDiscarded`) or into a file (`WireToFile(path)`).
- **Paths.** A path is a sequence of name segments, and `resolve` appends a segment.
- **Test bodies.** A test body is abstracted to the wire traffic it produces and how it completes. A `Thrown` completion stands for an exception.
- **Assertions.** JUnit's `assumeFalse` becomes a `Completion` value.

## Model

| member | source | states |
|---|---|---|
| `SkipRules.FirstQuirkIndex` | src/main/java/com/datadobi/s3test/s3/SkipForQuirksRule.java:19-23 | the index found is the first declared quirk the target has (all earlier ones it lacks); none is found exactly when the target has no declared quirk |
| `SkipRules.Apply` | src/main/java/com/datadobi/s3test/s3/SkipForQuirksRule.java:12-27 | no annotation, or a test that is not an `S3TestBase`, or no declared quirk present: the base statement unchanged; otherwise an ignore statement around the base for the first declared quirk the target has (never a null quirk) |
| `SkipRules.FirstMatchUnique` | src/main/java/com/datadobi/s3test/s3/SkipForQuirksRule.java:19-22 | at most one position is the first match, so the quirk chosen is determined by the declaration order and the target's set |
| `SkipRules.ApplyThenEvaluate` | src/main/java/com/datadobi/s3test/s3/SkipForQuirksRule.java:12-42 | evaluating the rule's result: when a declared quirk is present, no test body runs and the assumption fails with "Ignored due to quirk " + the first such quirk's name; otherwise evaluation is exactly that of the base statement |
| `SkipRules.ChecksumScenario` | src/main/java/com/datadobi/s3test/s3/SkipForQuirksRule.java:12-42 | a target with CHECKSUMS_NOT_SUPPORTED skips a test declaring it with reason "Ignored due to quirk CHECKSUMS_NOT_SUPPORTED"; an unannotated test keeps its base statement |
| `Statements.Evaluate` | src/main/java/com/datadobi/s3test/s3/SkipForQuirksRule.java:38-42 | an ignore statement with a quirk never evaluates the wrapped statement and fails its assumption with the reason text; with a null quirk it evaluates as the wrapped statement; a body runs once and completes as it does |
| `NameFilter.AnyMatch` | src/main/java/com/datadobi/s3test/RunTests.java:148 | the stream match is true iff some pattern fully matches the name |
| `NameFilter.ShouldRun` | src/main/java/com/datadobi/s3test/RunTests.java:146-159 | runs iff no exclude pattern matches and the include list is empty or one of its patterns matches; an excluded name prints exactly "name excluded"; a name excluded by the include list prints exactly "name not included"; an accepted name prints nothing |
| `NameFilter.ExcludeWins` | src/main/java/com/datadobi/s3test/RunTests.java:148-151 | once an exclude pattern matches, the decision and the line printed are the same whatever the include list |
| `NameFilter.FilterExample` | src/main/java/com/datadobi/s3test/RunTests.java:146-159 | with exclude `.*Multipart.*` and include `Get.*`: GetObjectBasic runs, GetObjectMultipartCopy is excluded, PutObjectBasic is not included |
| `CommandLine.ScanArguments` | src/main/java/com/datadobi/s3test/RunTests.java:62-80 | the loop with its mutable index and lists computes the scan specification `ScanFrom` over all arguments with no options; every branch keeps the scan of the arguments from the index on, with the lists read so far, equal to it |
| `CommandLine.ScanStops` | src/main/java/com/datadobi/s3test/RunTests.java:66-71 | a completed scan leaves a suffix of the arguments, empty or starting with an argument not starting with `-` |
| `CommandLine.ScanPrefix` | src/main/java/com/datadobi/s3test/RunTests.java:66-80 | arguments beginning with well-formed option items are read one item at a time: patterns appended in order, the last log path kept, other dash arguments skipped; option values are taken even when they start with `-` |
| `CommandLine.ScanExplained` | src/main/java/com/datadobi/s3test/RunTests.java:66-80 | every argument list starts with well-formed option items that the scan reads exactly; it then stops before a non-dash argument or at the end, or fails on a value flag that is the last argument |
| `CommandLine.ParseCommandLine` | src/main/java/com/datadobi/s3test/RunTests.java:82-91 | the usage outcome has exit status 1 and the five usage lines on standard error; a started run's target URI is an argument not starting with `-` |
| `CommandLine.LaunchRendered` | src/main/java/com/datadobi/s3test/RunTests.java:66-91 | options followed by nothing give the usage exit; options followed by a non-dash argument start a run with exactly those options and that argument as URI, whatever follows it |
| `CommandLine.MissingValueRendered` | src/main/java/com/datadobi/s3test/RunTests.java:73-78 | a value-taking flag as the last argument ends the scan with the missing-value error for that flag |
| `CommandLine.CollectExcludes` | src/main/java/com/datadobi/s3test/RunTests.java:73-74 | reading option items one at a time appends exactly their exclude patterns, in order |
| `CommandLine.CollectIncludes` | src/main/java/com/datadobi/s3test/RunTests.java:75-76 | reading option items one at a time appends exactly their include patterns, in order |
| `CommandLine.CollectLogPath` | src/main/java/com/datadobi/s3test/RunTests.java:77-78 | after reading option items the log path is that of the last log item, or the earlier one when there is no log item |
| `WireLogging.LogFilesAreSeparate` | src/main/java/com/datadobi/s3test/RunTests.java:181-184 | different (class name, method name) pairs have different wire logs and different error logs; the wire log and error log of one pair differ; both lie in `root/Class/method` |
| `WireLogging.InheritedTestLogsApart` | src/main/java/com/datadobi/s3test/RunTests.java:127 | the wire log's directory (keyed on the method's declaring class) and the error log's directory (keyed on the description's class, line 260) coincide exactly when the two class names are equal |
| `WireLogging.FileLogger.constructor` | src/main/java/com/datadobi/s3test/RunTests.java:177-179 | keeps the root; no configuration saved yet |
| `WireLogging.FileLogger.ResolveLogPath` | src/main/java/com/datadobi/s3test/RunTests.java:181-184 | returns `root/Class/method` and creates it with its parents |
| `WireLogging.FileLogger.StartWireLogging` | src/main/java/com/datadobi/s3test/RunTests.java:186-204 | saves the configuration in force; wire output now goes to the test's `wire.log`; the test's directories exist; files and stdout untouched |
| `WireLogging.FileLogger.StopWireLogging` | src/main/java/com/datadobi/s3test/RunTests.java:206-210 | restores the configuration saved by the latest start, or changes nothing if none was saved |
| `WireLogging.FileLogger.WriteErrorLog` | src/main/java/com/datadobi/s3test/RunTests.java:212-219 | the test's `error.log` holds the trace, replacing earlier content; no other file changes |
| `WireLogging.InvokeBody` | src/main/java/com/datadobi/s3test/RunTests.java:121 | the body's traffic goes where the configuration sends it; its completion is passed on |
| `WireLogging.EvaluateWithWireLogging` | src/main/java/com/datadobi/s3test/RunTests.java:120-140 | whether the body completes or throws, the logging configuration afterwards is the one before; with a file logger the body's traffic is appended to the `wire.log` of the method's declaring class and name; without one nothing is started or stopped and the traffic goes where the configuration in force sends it |
| `WireLogging.RunTwoTests` | src/main/java/com/datadobi/s3test/RunTests.java:123-136 | two test methods with different (declaring class, method name) pairs run in sequence with a file logger each add exactly their own traffic to what their own `wire.log` held before, and the configuration is restored |
| `Reporting.DeliverAllState` | src/main/java/com/datadobi/s3test/RunTests.java:239-251 | after callbacks, the ignored flag is set iff it was set or some ignore came; the failure is the last one reported, else the earlier one |
| `Reporting.OutcomeOfTest` | src/main/java/com/datadobi/s3test/RunTests.java:254-266 | after `testStarted` and any callbacks, exactly one outcome: skipped if an ignore came, else failed with the last failure if one came, else passed |
| `Reporting.MarkersDistinct` | src/main/java/com/datadobi/s3test/RunTests.java:255-266 | the three markers are distinct, so the status line tells the outcome kind |
| `Reporting.TextListener.constructor` | src/main/java/com/datadobi/s3test/RunTests.java:229-232 | keeps the file logger; no failure, not ignored |
| `Reporting.TextListener.TestRunStarted` | src/main/java/com/datadobi/s3test/RunTests.java:235-237 | prints "Running " and the description as one line |
| `Reporting.TextListener.TestStarted` | src/main/java/com/datadobi/s3test/RunTests.java:239-243 | prints two spaces and the method name without a line break; clears failure and ignored |
| `Reporting.TextListener.TestFailure` | src/main/java/com/datadobi/s3test/RunTests.java:245-247 | records the failure, keeps the ignored flag |
| `Reporting.TextListener.TestIgnored` | src/main/java/com/datadobi/s3test/RunTests.java:249-251 | sets the ignored flag, keeps the failure |
| `Reporting.TextListener.TestFinished` | src/main/java/com/datadobi/s3test/RunTests.java:254-267 | prints exactly one marker line for the verdict; on a failure the full trace goes to `error.log` when there is a file logger and the trimmed trace to stdout otherwise, never both; the logging configuration is untouched |
| `Runner.StartRun` | src/main/java/com/datadobi/s3test/RunTests.java:112-115 | a file logger exists exactly when a log path was given, rooted there; the listener reports through it |

`SkipRules.Apply` is a function of its arguments. Applying it twice to the
same inputs therefore gives the same statement, and it cannot change the
target's quirk set.

## Left out

- Regular-expression semantics and `Pattern.compile` failures: matching is the parameter `fullMatch`, and a malformed pattern is not modelled.
- `ServiceDefinition.fromURI`, `fromS3Profile` and `hasQuirk` are not part of this model. The target is its quirk set, and `hasQuirk` is set membership. The URI is returned unparsed. The lines printed after parsing (`S3 tests: host`) and the assignment of `S3TestBase.DEFAULT` are left out.
- `Path.of` on the log argument: the root is kept as the one string given, as a single path segment. Invalid paths are not modelled.
- I/O errors (`IOException` from `Files.createDirectories` or `Files.writeString`) are left out: the model's file operations always succeed.
- log4j: the configurations built in `main` and in `startWireLogging` are reduced to the wire logger's destination. The appender's layout and levels are not modelled. A file appender adds to an existing file, log4j's default.
- The test-class catalog and the JUnit loop that builds a runner per class, installs the filter, runs it and prints "Skipping …" when no test remains: this is JUnit machinery and fixed data.
- Which listener callback JUnit delivers for a failed assumption, and the order in which JUnit nests rules, befores and afters around `methodInvoker`. The model does not compose the skip rule with the listener.
- `Statements.Evaluate` covers only the two kinds of statement this code builds: a test body and the rule's `IgnoreStatement`.
- `S3TestBase` (client creation, bucket set-up and teardown, environment variables, its own `WireLogger`): network plumbing over an SDK that is not shown.
- Line separators: `println` is modelled as appending `"\n"`; Java appends `System.lineSeparator()`, which is platform dependent.
- The unused `previousConfiguration` field of `TextListener`.
- Quirk names: `Quirks.Name` gives each constant's name, but the model does not prove that the 17 names are pairwise distinct.
- The process exit status of a completed run (0 whatever the test outcomes) is not modelled. Only the usage exit with status 1 is.
