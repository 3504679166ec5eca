/** `configure_tracing`: opens the local JSONL span log, installs the
    console exporter that writes to it, and sets up the remote OTLP exporter
    unless the DISABLE_OTEL_EXPORT toggle turns it off. The telemetry
    library's calls are abstract outcomes given as parameters; printing is
    recorded as the list of printed lines. */
module Tracing {
  import opened ExportToggle

  /** The outcome of a call into the telemetry library or the file system:
      it returns, or it raises an exception whose text is `message`. */
  datatype Step = Done | Failed(message: string)

  /** What a successful `configure_tracing` leaves behind. */
  datatype TracingState = TracingState(
    logPath: string,        // the span log, opened for appending ("a")
    consoleExporter: bool,  // spans are written to the log, one JSON line each
    otlpAttempted: bool,    // `setup_otlp_exporter` was called
    otlpExporter: bool,     // the remote exporter is in place
    printed: seq<string>)   // lines printed, in order

  /** How `configure_tracing` ends: it returns the state, or an exception
      escapes it. `logLeftOpen` says whether the log had already been opened
      when the exception escaped (nothing closes it then). */
  datatype Setup = Configured(state: TracingState) | Aborted(message: string, logLeftOpen: bool)

  /** The argument given as `log_path`: a `pathlib.Path`, or a plain `str`
      that only looks like one. */
  datatype LogPathArg = PathValue(path: string) | StrValue(text: string)

  /** The text of the AttributeError raised by calling `.open` on a `str`. */
  const StrHasNoOpen: string := "'str' object has no attribute 'open'"

  /** The span log's file name. */
  const TraceFile: string := "agent_traces.jsonl"

  const DisabledNotice: string :=
    "Remote OTLP export disabled via DISABLE_OTEL_EXPORT; writing spans to JSONL only."

  const OtlpFailurePrefix: string := "Failed to configure OTLP exporter: "

  /** `configure_tracing(log_path)` in the environment `env`. `openLog`,
      `consoleSetup` and `otlpSetup` are what opening the log, installing the
      console exporter and installing the OTLP exporter do. Only the first
      two can make it fail; a failing remote setup is caught and reported,
      and the remote setup is not even attempted when the toggle disables
      it. A `str` argument has no `open` method, so the call raises
      AttributeError before any log is opened. */
  method ConfigureTracing(env: map<string, string>, logPath: LogPathArg,
                          openLog: Step, consoleSetup: Step, otlpSetup: Step)
    returns (setup: Setup)
    ensures setup.Configured? <==> logPath.PathValue? && openLog.Done? && consoleSetup.Done?
    ensures logPath.StrValue? ==> setup == Aborted(StrHasNoOpen, false)
    ensures logPath.PathValue? && openLog.Failed? ==> setup == Aborted(openLog.message, false)
    ensures logPath.PathValue? && openLog.Done? && consoleSetup.Failed? ==>
      setup == Aborted(consoleSetup.message, true)
    ensures setup.Configured? ==>
      setup.state.logPath == logPath.path && setup.state.consoleExporter
    ensures setup.Configured? && OtelDisabled(env) ==>
      !setup.state.otlpAttempted && !setup.state.otlpExporter && setup.state.printed == [DisabledNotice]
    ensures setup.Configured? && !OtelDisabled(env) ==>
      setup.state.otlpAttempted && (setup.state.otlpExporter <==> otlpSetup.Done?)
    ensures setup.Configured? && !OtelDisabled(env) && otlpSetup.Done? ==> setup.state.printed == []
    ensures setup.Configured? && !OtelDisabled(env) && otlpSetup.Failed? ==>
      setup.state.printed == [OtlpFailurePrefix + otlpSetup.message]
  {
    // Only a path object can open the log; a string raises AttributeError.
    if logPath.StrValue? {
      return Aborted(StrHasNoOpen, false);
    }
    // Opening the log for appending may raise; nothing catches it.
    if openLog.Failed? {
      return Aborted(openLog.message, false);
    }
    var state := TracingState(logPath.path, false, false, false, []);
    // Installing the console exporter may raise; nothing catches it.
    if consoleSetup.Failed? {
      return Aborted(consoleSetup.message, true);
    }
    state := state.(consoleExporter := true);
    if OtelDisabled(env) {
      state := state.(printed := state.printed + [DisabledNotice]);
    } else {
      // The remote setup runs inside a handler that catches any exception.
      state := state.(otlpAttempted := true);
      match otlpSetup {
        case Done =>
          state := state.(otlpExporter := true);
        case Failed(message) =>
          state := state.(printed := state.printed + [OtlpFailurePrefix + message]);
      }
    }
    return Configured(state);
  }

  /** The tracing setup at the start of `main`, as written: the log's name is
      passed as a plain string, so setup always aborts with AttributeError
      before any log is opened, whatever the environment and the library do.
      The exception escapes `main` before the agents run. */
  method MainTracingSetup(env: map<string, string>, openLog: Step, consoleSetup: Step, otlpSetup: Step)
    returns (setup: Setup)
    ensures setup == Aborted(StrHasNoOpen, false)
  {
    setup := ConfigureTracing(env, StrValue(TraceFile), openLog, consoleSetup, otlpSetup);
  }

  /** The tracing setup at the start of `main` with the log's name passed as
      a path: it succeeds exactly when opening the log and installing the
      console exporter succeed, and then spans go to agent_traces.jsonl. */
  method MainTracingSetupWithPath(env: map<string, string>, openLog: Step, consoleSetup: Step, otlpSetup: Step)
    returns (setup: Setup)
    ensures setup.Configured? <==> openLog.Done? && consoleSetup.Done?
    ensures setup.Configured? ==> setup.state.logPath == TraceFile && setup.state.consoleExporter
    ensures openLog.Failed? ==> setup == Aborted(openLog.message, false)
  {
    setup := ConfigureTracing(env, PathValue(TraceFile), openLog, consoleSetup, otlpSetup);
  }
}
