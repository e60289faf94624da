/**
 * Per-test diagnostics on disk: the runner's `FileLogger`, which redirects
 * the HTTP wire logger into `root/Class/method/wire.log` for the duration
 * of a test and writes failure traces to `root/Class/method/error.log`, and
 * the wrapper the runner puts around every test method's invocation. The
 * wrapper names the wire log after the class that DECLARES the test method;
 * the listener names the error log after the class being run. For a test
 * method inherited from a superclass the two differ, so the two logs land
 * in different directories, and subclasses that inherit the same method
 * share (and append to) one wire log.
 */
module WireLogging {
  import opened Wrappers
  import opened Statements

  /** A file-system path as its sequence of name segments; `resolve` appends one. */
  type Path = seq<string>

  /**
   * A logging configuration, reduced to the one thing the runner changes:
   * where the `org.apache.http.wire` logger's output goes.
   */
  datatype Configuration = WireDiscarded | WireToFile(file: Path)

  /** The directories `Files.createDirectories` creates for `p`: `p` and every ancestor. */
  function Ancestry(p: Path): set<Path>
  {
    set k | 0 < k <= |p| :: p[..k]
  }

  /** The content of file `p`, empty when there is no such file. */
  function Content(files: map<Path, string>, p: Path): string
  {
    if p in files then files[p] else ""
  }

  /** The content of the files after the wire logger has emitted `text` under `configuration`. */
  function WireWrite(files: map<Path, string>, configuration: Configuration, text: string): map<Path, string>
  {
    match configuration
    case WireDiscarded => files
    case WireToFile(p) => files[p := Content(files, p) + text]
  }

  /**
   * The process-wide state the runner touches: the active logging
   * configuration, the directories and files on disk, and standard output.
   */
  class Host {
    var configuration: Configuration
    var directories: set<Path>
    var files: map<Path, string>
    var stdout: string

    /** `main` starts with the wire logger enabled but attached to no appender. */
    constructor ()
      ensures configuration == WireDiscarded && directories == {} && files == map[] && stdout == ""
    {
      configuration := WireDiscarded;
      directories := {};
      files := map[];
      stdout := "";
    }

    /** `Configurator.reconfigure`. */
    method Reconfigure(c: Configuration)
      modifies this
      ensures configuration == c
      ensures directories == old(directories) && files == old(files) && stdout == old(stdout)
    {
      configuration := c;
    }

    /** `Files.createDirectories`, which also creates missing parents. */
    method CreateDirectories(p: Path)
      modifies this
      ensures directories == old(directories) + Ancestry(p)
      ensures configuration == old(configuration) && files == old(files) && stdout == old(stdout)
    {
      directories := directories + Ancestry(p);
    }

    /** `Files.writeString`, which replaces the file's content. */
    method WriteString(p: Path, content: string)
      modifies this
      ensures files == old(files)[p := content]
      ensures configuration == old(configuration) && directories == old(directories) && stdout == old(stdout)
    {
      files := files[p := content];
    }

    /** HTTP traffic logged on the wire logger goes wherever the configuration sends it. */
    method LogWire(text: string)
      modifies this
      ensures files == WireWrite(old(files), old(configuration), text)
      ensures configuration == old(configuration) && directories == old(directories) && stdout == old(stdout)
    {
      files := WireWrite(files, configuration, text);
    }

    /** `PrintStream.append`: text without a line break. */
    method Print(text: string)
      modifies this
      ensures stdout == old(stdout) + text
      ensures configuration == old(configuration) && directories == old(directories) && files == old(files)
    {
      stdout := stdout + text;
    }
  }

  /** The directory of one test's diagnostics: `root/simpleClassName/methodName`. */
  function LogDirectory(root: Path, testClass: string, methodName: string): Path
  {
    root + [testClass, methodName]
  }

  function WireLogFile(root: Path, testClass: string, methodName: string): Path
  {
    LogDirectory(root, testClass, methodName) + ["wire.log"]
  }

  function ErrorLogFile(root: Path, testClass: string, methodName: string): Path
  {
    LogDirectory(root, testClass, methodName) + ["error.log"]
  }

  /**
   * Different (class name, method name) pairs never share a log file, and
   * the wire log and the error log of one pair are different files in that
   * pair's directory.
   */
  lemma LogFilesAreSeparate(root: Path, c1: string, m1: string, c2: string, m2: string)
    ensures WireLogFile(root, c1, m1) != ErrorLogFile(root, c2, m2)
    ensures (c1, m1) != (c2, m2) ==>
      WireLogFile(root, c1, m1) != WireLogFile(root, c2, m2)
      && ErrorLogFile(root, c1, m1) != ErrorLogFile(root, c2, m2)
    ensures WireLogFile(root, c1, m1)[..|root| + 2] == LogDirectory(root, c1, m1)
    ensures ErrorLogFile(root, c1, m1)[..|root| + 2] == LogDirectory(root, c1, m1)
  {
    var n := |root|;
    assert WireLogFile(root, c1, m1)[n + 2] == "wire.log" && ErrorLogFile(root, c2, m2)[n + 2] == "error.log";
    if (c1, m1) != (c2, m2) {
      assert WireLogFile(root, c1, m1)[n] == c1 && WireLogFile(root, c1, m1)[n + 1] == m1;
      assert WireLogFile(root, c2, m2)[n] == c2 && WireLogFile(root, c2, m2)[n + 1] == m2;
      assert ErrorLogFile(root, c1, m1)[n] == c1 && ErrorLogFile(root, c1, m1)[n + 1] == m1;
      assert ErrorLogFile(root, c2, m2)[n] == c2 && ErrorLogFile(root, c2, m2)[n + 1] == m2;
    }
  }

  /**
   * The wire log (named after the declaring class) and the error log (named
   * after the class being run) of one test method share a directory exactly
   * when the two classes have the same simple name.
   */
  lemma InheritedTestLogsApart(root: Path, declaringClass: string, testClass: string, methodName: string)
    ensures LogDirectory(root, declaringClass, methodName) == LogDirectory(root, testClass, methodName)
            <==> declaringClass == testClass
  {
    if LogDirectory(root, declaringClass, methodName) == LogDirectory(root, testClass, methodName) {
      assert LogDirectory(root, declaringClass, methodName)[|root|] == declaringClass;
      assert LogDirectory(root, testClass, methodName)[|root|] == testClass;
    }
  }

  /** The runner's `FileLogger`, rooted at the `--log` path. */
  class FileLogger {
    const logPath: Path
    var previousConfiguration: Option<Configuration>

    constructor (logPath: Path)
      ensures this.logPath == logPath && previousConfiguration == None
    {
      this.logPath := logPath;
      previousConfiguration := None;
    }

    /** The private `logPath(testClass, methodName)`: resolves the test's directory and creates it. */
    method ResolveLogPath(host: Host, testClass: string, methodName: string) returns (path: Path)
      modifies host
      ensures path == LogDirectory(logPath, testClass, methodName)
      ensures host.directories == old(host.directories) + Ancestry(path)
      ensures host.configuration == old(host.configuration) && host.files == old(host.files)
      ensures host.stdout == old(host.stdout)
    {
      path := logPath + [testClass] + [methodName];
      host.CreateDirectories(path);
    }

    /**
     * Sends wire logging to the test's `wire.log`, remembering the
     * configuration in force so that `StopWireLogging` can put it back.
     */
    method StartWireLogging(host: Host, testClass: string, methodName: string)
      modifies this, host
      ensures previousConfiguration == Some(old(host.configuration))
      ensures host.configuration == WireToFile(WireLogFile(logPath, testClass, methodName))
      ensures host.directories == old(host.directories) + Ancestry(LogDirectory(logPath, testClass, methodName))
      ensures host.files == old(host.files) && host.stdout == old(host.stdout)
    {
      var path := ResolveLogPath(host, testClass, methodName);
      host.CreateDirectories(path);
      var configuration := WireToFile(path + ["wire.log"]);
      previousConfiguration := Some(host.configuration);
      host.Reconfigure(configuration);
    }

    /** Restores the configuration saved by the latest start; does nothing if none was saved. */
    method StopWireLogging(host: Host)
      modifies host
      ensures host.configuration == if previousConfiguration.Some? then previousConfiguration.value
                                    else old(host.configuration)
      ensures host.directories == old(host.directories) && host.files == old(host.files)
      ensures host.stdout == old(host.stdout)
    {
      if previousConfiguration.Some? {
        host.Reconfigure(previousConfiguration.value);
      }
    }

    /** Writes a failure's full trace to the test's `error.log`, replacing any earlier one. */
    method WriteErrorLog(host: Host, testClass: string, methodName: string, trace: string)
      modifies host
      ensures host.files == old(host.files)[ErrorLogFile(logPath, testClass, methodName) := trace]
      ensures host.directories == old(host.directories) + Ancestry(LogDirectory(logPath, testClass, methodName))
      ensures host.configuration == old(host.configuration) && host.stdout == old(host.stdout)
    {
      var path := ResolveLogPath(host, testClass, methodName);
      host.WriteString(path + ["error.log"], trace);
    }
  }

  /** Invoking a test body: its HTTP traffic reaches the wire logger, then it completes as it does. */
  method InvokeBody(host: Host, body: TestBody) returns (c: Completion)
    modifies host
    ensures c == body.completion
    ensures host.files == WireWrite(old(host.files), old(host.configuration), body.wireTraffic)
    ensures host.configuration == old(host.configuration) && host.directories == old(host.directories)
    ensures host.stdout == old(host.stdout)
  {
    host.LogWire(body.wireTraffic);
    c := body.completion;
  }

  /**
   * The statement the runner's `methodInvoker` returns: with a file logger,
   * wire logging is started before the test body and stopped after it
   * whether the body completes or throws, so the logging configuration
   * after the test is the one before it and the body's traffic lands in the
   * `wire.log` of the method's declaring class and name. The body's
   * completion, thrown or not, is passed on.
   */
  method EvaluateWithWireLogging(fileLogger: FileLogger?, host: Host, declaringClass: string, methodName: string, body: TestBody)
    returns (c: Completion)
    modifies host, fileLogger
    ensures c == body.completion
    ensures host.configuration == old(host.configuration)
    ensures fileLogger != null ==>
      && fileLogger.previousConfiguration == Some(old(host.configuration))
      && host.files == WireWrite(old(host.files), WireToFile(WireLogFile(fileLogger.logPath, declaringClass, methodName)), body.wireTraffic)
      && host.directories == old(host.directories) + Ancestry(LogDirectory(fileLogger.logPath, declaringClass, methodName))
    ensures fileLogger == null ==>
      && host.files == WireWrite(old(host.files), old(host.configuration), body.wireTraffic)
      && host.directories == old(host.directories)
    ensures host.stdout == old(host.stdout)
  {
    if fileLogger != null {
      fileLogger.StartWireLogging(host, declaringClass, methodName);
    }
    // try { invoker.evaluate(); } finally { stop }: the body cannot leave this
    // method other than by returning its completion, so the stop below runs
    // on the normal and on the exceptional path alike.
    c := InvokeBody(host, body);
    if fileLogger != null {
      fileLogger.StopWireLogging(host);
    }
  }

  /**
   * Diagnostics isolation: two test methods with different (declaring
   * class, method name) pairs run one after the other with a file logger
   * each add exactly their own traffic to what their own `wire.log` held
   * before (nothing, on a fresh log root), and leave the logging
   * configuration as they found it.
   */
  method RunTwoTests(fileLogger: FileLogger, host: Host,
                     class1: string, method1: string, body1: TestBody,
                     class2: string, method2: string, body2: TestBody)
    requires (class1, method1) != (class2, method2)
    modifies host, fileLogger
    ensures host.configuration == old(host.configuration)
    ensures WireLogFile(fileLogger.logPath, class1, method1) in host.files
    ensures host.files[WireLogFile(fileLogger.logPath, class1, method1)]
            == Content(old(host.files), WireLogFile(fileLogger.logPath, class1, method1)) + body1.wireTraffic
    ensures WireLogFile(fileLogger.logPath, class2, method2) in host.files
    ensures host.files[WireLogFile(fileLogger.logPath, class2, method2)]
            == Content(old(host.files), WireLogFile(fileLogger.logPath, class2, method2)) + body2.wireTraffic
  {
    var root := fileLogger.logPath;
    LogFilesAreSeparate(root, class1, method1, class2, method2);
    var c1 := EvaluateWithWireLogging(fileLogger, host, class1, method1, body1);
    var c2 := EvaluateWithWireLogging(fileLogger, host, class2, method2, body2);
  }
}
