/** The part of `main` that wires the diagnostics together once the options are read. */
module Runner {
  import opened Wrappers
  import opened CommandLine
  import opened WireLogging
  import opened Reporting

  /**
   * A file logger exists exactly when `--log` was given, rooted at its
   * path; the listener reports through it.
   */
  method StartRun(options: Options) returns (fileLogger: FileLogger?, listener: TextListener)
    ensures (fileLogger != null) == options.logPath.Some?
    ensures fileLogger != null ==>
      fresh(fileLogger) && fileLogger.logPath == [options.logPath.value] && fileLogger.previousConfiguration == None
    ensures fresh(listener) && listener.fileLogger == fileLogger && listener.State() == Started
  {
    if options.logPath.Some? {
      fileLogger := new FileLogger([options.logPath.value]);
    } else {
      fileLogger := null;
    }
    listener := new TextListener(fileLogger);
  }
}
