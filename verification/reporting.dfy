/**
 * The runner's `TextListener`: one status line per test on standard output.
 * `testStarted` prints the method name and clears the two flags,
 * `testFailure` and `testIgnored` set them, and `testFinished` turns them
 * into exactly one marker; a failure's trace goes to the test's `error.log`
 * when there is a file logger and to standard output otherwise.
 */
module Reporting {
  import opened Wrappers
  import opened WireLogging

  /** A JUnit failure: the full stack trace and the trimmed one. */
  datatype Failure = Failure(trace: string, trimmedTrace: string)

  /** A test's description: its class's simple name and its method name. */
  datatype Description = Description(testClass: string, methodName: string)

  /** The listener's two per-test fields. */
  datatype ListenerState = ListenerState(failure: Option<Failure>, ignored: bool)

  /** The callbacks JUnit may deliver between `testStarted` and `testFinished`. */
  datatype Callback = FailureReported(failure: Failure) | IgnoreReported

  const Started := ListenerState(None, false)

  function Deliver(s: ListenerState, c: Callback): ListenerState
  {
    match c
    case FailureReported(f) => s.(failure := Some(f))
    case IgnoreReported => s.(ignored := true)
  }

  function DeliverAll(s: ListenerState, cs: seq<Callback>): ListenerState
    decreases |cs|
  {
    if |cs| == 0 then s else DeliverAll(Deliver(s, cs[0]), cs[1..])
  }

  datatype Outcome = Passed | Failed(failure: Failure) | Skipped

  /** What `testFinished` reports: ignored wins over failed, passed only when neither flag is set. */
  function Verdict(s: ListenerState): Outcome
  {
    if s.ignored then Skipped
    else if s.failure.Some? then Failed(s.failure.value)
    else Passed
  }

  function Marker(o: Outcome): string
  {
    match o
    case Skipped => "\U{1F648}"
    case Failed(_) => "❌"
    case Passed => "✅"
  }

  /** The standard-output text `testFinished` produces; `console` when there is no file logger. */
  function FinishText(o: Outcome, console: bool): string
  {
    " " + Marker(o) + "\n" + (if o.Failed? && console then o.failure.trimmedTrace + "\n" else "")
  }

  /** The failure of the last failure callback, if any. */
  function LastFailure(cs: seq<Callback>): Option<Failure>
  {
    if |cs| == 0 then None
    else if LastFailure(cs[1..]).Some? then LastFailure(cs[1..])
    else if cs[0].FailureReported? then Some(cs[0].failure)
    else None
  }

  /** Callbacks keep any earlier ignore, and the latest failure replaces earlier ones. */
  lemma {:induction false} DeliverAllState(s: ListenerState, cs: seq<Callback>)
    ensures DeliverAll(s, cs).ignored <==> s.ignored || exists k :: 0 <= k < |cs| && cs[k].IgnoreReported?
    ensures DeliverAll(s, cs).failure == if LastFailure(cs).Some? then LastFailure(cs) else s.failure
    decreases |cs|
  {
    if |cs| > 0 {
      DeliverAllState(Deliver(s, cs[0]), cs[1..]);
      if exists k :: 0 <= k < |cs| && cs[k].IgnoreReported? {
        var k :| 0 <= k < |cs| && cs[k].IgnoreReported?;
        if k > 0 {
          assert cs[1..][k - 1].IgnoreReported?;
        }
      }
      if exists k :: 0 <= k < |cs[1..]| && cs[1..][k].IgnoreReported? {
        var k :| 0 <= k < |cs[1..]| && cs[1..][k].IgnoreReported?;
        assert cs[k + 1].IgnoreReported?;
      }
    }
  }

  /**
   * Exactly one outcome per test, whatever JUnit delivers after
   * `testStarted`: skipped if any ignore came, otherwise failed with the
   * last failure if any came, otherwise passed.
   */
  lemma OutcomeOfTest(cs: seq<Callback>)
    ensures Verdict(DeliverAll(Started, cs)) ==
      if exists k :: 0 <= k < |cs| && cs[k].IgnoreReported? then Skipped
      else if LastFailure(cs).Some? then Failed(LastFailure(cs).value)
      else Passed
  {
    DeliverAllState(Started, cs);
  }

  /** The three markers are distinct, so the status line names one outcome kind. */
  lemma MarkersDistinct(a: Outcome, b: Outcome)
    ensures Marker(a) == Marker(b) <==> a.Skipped? == b.Skipped? && a.Passed? == b.Passed?
  {
  }

  class TextListener {
    const fileLogger: FileLogger?
    var failure: Option<Failure>
    var ignored: bool

    function State(): ListenerState
      reads this
    {
      ListenerState(failure, ignored)
    }

    constructor (fileLogger: FileLogger?)
      ensures this.fileLogger == fileLogger && State() == Started
    {
      this.fileLogger := fileLogger;
      failure := None;
      ignored := false;
    }

    method TestRunStarted(host: Host, description: string)
      modifies host
      ensures host.stdout == old(host.stdout) + "Running " + description + "\n"
      ensures host.configuration == old(host.configuration) && host.directories == old(host.directories)
      ensures host.files == old(host.files)
    {
      host.Print("Running " + description + "\n");
    }

    method TestStarted(host: Host, description: Description)
      modifies this, host
      ensures State() == Started
      ensures host.stdout == old(host.stdout) + "  " + description.methodName
      ensures host.configuration == old(host.configuration) && host.directories == old(host.directories)
      ensures host.files == old(host.files)
    {
      host.Print("  " + description.methodName);
      failure := None;
      ignored := false;
    }

    method TestFailure(f: Failure)
      modifies this
      ensures State() == Deliver(old(State()), FailureReported(f))
    {
      failure := Some(f);
    }

    method TestIgnored(description: Description)
      modifies this
      ensures State() == Deliver(old(State()), IgnoreReported)
    {
      ignored := true;
    }

    /**
     * Prints the one marker of the test's outcome; on a failure the trace
     * is written to `error.log` when there is a file logger and printed
     * otherwise, never both.
     */
    method TestFinished(host: Host, description: Description)
      modifies host
      ensures host.stdout == old(host.stdout) + FinishText(Verdict(State()), fileLogger == null)
      ensures host.files ==
        if Verdict(State()).Failed? && fileLogger != null
        then old(host.files)[ErrorLogFile(fileLogger.logPath, description.testClass, description.methodName)
                               := Verdict(State()).failure.trace]
        else old(host.files)
      ensures host.directories ==
        if Verdict(State()).Failed? && fileLogger != null
        then old(host.directories) + Ancestry(LogDirectory(fileLogger.logPath, description.testClass, description.methodName))
        else old(host.directories)
      ensures host.configuration == old(host.configuration)
    {
      if ignored {
        host.Print(" " + "\U{1F648}" + "\n");
      } else if failure.Some? {
        host.Print(" " + "❌" + "\n");
        if fileLogger != null {
          fileLogger.WriteErrorLog(host, description.testClass, description.methodName, failure.value.trace);
        } else {
          host.Print(failure.value.trimmedTrace + "\n");
        }
      } else {
        host.Print(" " + "✅" + "\n");
      }
    }
  }
}
