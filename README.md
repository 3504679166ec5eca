# Strands agent demo: tools and tracing setup, in Dafny

The repository is a demo of an LLM agent built on the Strands library with an
OpenAI model. Almost all of it is library wiring; the deterministic logic it
owns is small, and this project models all of it:

- **The remote-export toggle** (`otel_disabled`). It reads the
  `DISABLE_OTEL_EXPORT` environment variable, with "" when the variable is unset.
  It strips surrounding whitespace with Python's `str.strip()` and lower-cases
  with `str.lower()`. It then tests membership in `{"1", "true", "yes"}`.
  Modules `PyStr` (the two string methods) and `ExportToggle` model it. The
  environment is a `map<string, string>` parameter.
- **The calculator tool** (`perform_calculation`). The same body appears in
  `src/strands_agent.py` and `src/strands_agent_livestream.py`; the module
  `Calculator` models both with one definition. It first checks every character
  against the 18-character alphabet `0123456789+-*/.() `. A rejected expression
  gives "Error: Invalid characters in expression.". An accepted one goes to
  Python's `eval`. The evaluator is a function parameter
  `string -> Evaluation<V>`: it returns a value or raises an exception with some
  message. The model does not interpret arithmetic. Every exception comes back
  as an "Error: "-prefixed text (module `Tools`).
- **The character-count tool** (`count_character_occurrences`). A needle whose
  length is not 1 gives "Error: Please provide a single character to count.".
  Otherwise the answer is `str.count`, which for one character is the
  case-sensitive number of matching positions. Module `CharCount` models it.
- **The tracing setup** (`configure_tracing`), in module `Tracing`. It opens the
  span log for appending and installs the console exporter that writes spans to
  it. It then either prints a notice (export disabled) or tries to install the
  OTLP exporter, catching and printing any failure. Each library or file-system
  call is a `Step` parameter: it is `Done` or `Failed(message)`. Printed lines
  are recorded in the returned state. An exception from opening the log or from
  installing the console exporter escapes, as in the source. In the second case
  the log is left open, and the model records that. The log's name is either a
  path object or a plain string; a string has no `open` method and raises
  AttributeError first (see "## Findings").

The tools return plain "Error: …" strings and call Python's `eval`; spans and
sessions live inside the Strands library.

## Model

| member | source | states |
|---|---|---|
| `PyStr.Strip` | src/strands_agent.py:34 | `str.strip()`: the result is the slice between the first and last non-whitespace characters; everything outside it is whitespace (Python's 29 `isspace` characters), and the result neither starts nor ends with whitespace |
| `PyStr.StripOfPadded` | src/strands_agent.py:34 | stripping `a + c + b`, with `a` and `b` all whitespace and `c` non-blank at both ends, gives back exactly `c` |
| `PyStr.Lower` | src/strands_agent.py:34 | `str.lower()` keeps the length and lower-cases each character in place |
| `PyStr.LowerIsSpelling` | src/strands_agent.py:34 | lower-casing gives a lower-case word `w` exactly when the text spells `w` with each letter in either case |
| `ExportToggle.LowerTruthyIffSpelling` | src/strands_agent.py:34 | lower-casing lands in {"1","true","yes"} exactly when the text spells one of them in any case |
| `ExportToggle.DisablesExportIffTruthySpelling` | src/strands_agent.py:34 | a value disables export exactly when its stripped text is "1", "true" or "yes" in any mix of cases |
| `ExportToggle.PaddedTruthyDisablesExport` | src/strands_agent.py:34 | any whitespace around a truthy spelling still disables export |
| `ExportToggle.PaddedTruthyAtDisablesExport` | src/strands_agent.py:34 | a value that is whitespace, then a truthy spelling, then whitespace (at given indices) disables export |
| `ExportToggle.DisablesExportIffPaddedTruthy` | src/strands_agent.py:34 | both directions: a value disables export if and only if it is a truthy spelling with only whitespace around it |
| `ExportToggle.OtelDisabledIff` | src/strands_agent.py:34 | both directions: `otel_disabled()` holds if and only if `DISABLE_OTEL_EXPORT` is set and its value is "1", "true" or "yes" in any mix of cases with only whitespace around it |
| `ExportToggle.UnsetKeepsExportOn` | src/strands_agent.py:34 | with `DISABLE_OTEL_EXPORT` unset, `otel_disabled` is false, so remote export stays on |
| `ExportToggleExamples.PaddedUpperTrueDisables` | src/strands_agent.py:34 | " TRUE " disables export |
| `ExportToggleExamples.TabbedYesDisables` | src/strands_agent.py:34 | "\tYes\n" disables export |
| `ExportToggleExamples.OnKeepsExportOn` | src/strands_agent.py:34 | "on" does not disable export |
| `Tools.ErrorReply` | src/strands_agent.py:92-93 | a caught exception becomes a text that starts with "Error: " and is followed by the exception's message, which can be read back |
| `Calculator.AllAllowed` | src/strands_agent.py:83-87 | the filter accepts an expression exactly when every character is in the 18-character alphabet; the empty expression is accepted |
| `Calculator.PerformCalculation` | src/strands_agent.py:70-93 | replies are well-formed; a character outside the alphabet gives exactly "Error: Invalid characters in expression."; the reply is a value exactly when the filter accepts and the evaluator returns, and then it is the evaluator's value; an evaluator exception comes back as "Error: " plus its message |
| `Calculator.RejectedNeverEvaluated` | src/strands_agent_livestream.py:31-35 | for a rejected expression the reply is the same whatever the evaluator does: the evaluator is never consulted |
| `Calculator.AcceptedDependsOnlyOnEvaluation` | src/strands_agent.py:86-90 | for an accepted expression the reply depends on nothing but what the evaluator does with that very expression |
| `Calculator.AllowedAlphabet` | src/strands_agent_livestream.py:28 | the alphabet is exactly the ten digits, `+ - * / . ( )` and space: 18 distinct characters |
| `Calculator.FilterExamples` | src/strands_agent_livestream.py:21-38 | "30 / 5" reaches the evaluator and returns its value; "30 / 5; rm" is rejected with the fixed text; "" passes the filter |
| `CharCount.Occurrences` | src/strands_agent.py:127 | `str.count` of one character is at most the length of the string |
| `CharCount.OccurrencesOfConcat` | src/strands_agent.py:127 | the count over a concatenation is the sum of the counts |
| `CharCount.OccurrencesArePositions` | src/strands_agent.py:127 | the count equals the number of indices holding the character, compared case-sensitively |
| `CharCount.OccurrencesExtremes` | src/strands_agent.py:127 | the count is 0 exactly when the character is absent, and equals the length exactly when every character is it |
| `CharCount.CountCharacterOccurrences` | src/strands_agent.py:112-129 | a needle of length other than 1 gives exactly "Error: Please provide a single character to count."; a one-character needle gives the number of indices holding it, at most the input's length |
| `CharCount.NeedleLengthExamples` | src/strands_agent.py:125-126 | the empty needle and "ab" are both refused, with the same reply |
| `CharCount.CaseSensitiveExample` | src/strands_agent.py:127 | in "an AI", needle "a" counts 1 and needle "A" counts 1: case matters |
| `CharCountDemo.DemoSentenceCount` | src/strands_agent.py:16-27 | the tool's answer for "a" in "Strands is an amazing AI framework" is 5, the count `show_actual_count` prints; the "A" of "AI" is not counted |
| `Tracing.ConfigureTracing` | src/strands_agent.py:37-51 | a plain-string log name aborts with "'str' object has no attribute 'open'" before any log is opened; with a path, setup succeeds exactly when opening the log and installing the console exporter succeed, whatever the remote setup does; an escaping failure reports whether the log was left open; on success the log and console exporter are in place; when the toggle disables export, the remote setup is not attempted and only the notice is printed; otherwise it is attempted, the remote exporter is in place exactly when it succeeded, and a failure prints "Failed to configure OTLP exporter: " plus its message |
| `Tracing.MainTracingSetup` | src/strands_agent.py:153 | `main` as written passes the log name as a string, so tracing setup always aborts with AttributeError and leaves no log open, whatever the environment and library do |
| `Tracing.MainTracingSetupWithPath` | src/strands_agent.py:153 | with the log name passed as a path, setup succeeds exactly when opening the log and installing the console exporter succeed, and then spans go to agent_traces.jsonl |

## Left out

- Python's `eval` is not interpreted: the evaluator is a parameter. The model says nothing about the numeric result, integer versus float, or floating-point division. The filter admits `**` (exponentiation) and malformed text such as "((". What the evaluator does with them, including raising SyntaxError on the empty expression, is the parameter's business.
- Exceptions that do not derive from `Exception` (`KeyboardInterrupt`, `SystemExit`) are not caught by the tools. An evaluator outcome is only "returns" or "raises an `Exception`", so the model has no such case.
- PyStr.Lower: only the ASCII letters A–Z are lower-cased; other Unicode case mappings are left out, including those that change a string's length. No non-ASCII character lower-cases into the characters of "1", "true" or "yes", so the toggle's verdict is the same as Python's.
- `str.count` with a needle longer than one character is not modelled; the tool never reaches it.
- `get_current_datetime` and `show_actual_datetime` read the system clock and format it with `strftime`; clock and formatting are left out.
- `Agent`, `OpenAIModel` and `StrandsTelemetry` are foreign library code. This covers prompt dispatch, sessions by `session_id`, span creation and the span JSON formatter. Constructing `StrandsTelemetry()` is assumed to succeed.
- File I/O and printing are not performed. Opening the log and the library calls are abstract outcomes. Printed lines are recorded as data.
- The `main` loop that runs every agent over the scenario prompts and closes the log in `finally`, and the module-level script of `src/strands_agent_livestream.py`, only sequence calls to the external model. They are left out, and so are the `uuid4` session identifiers.

## Findings

| source | as written | input that shows it | evidently intended | confidence | as-written member | corrected member |
|---|---|---|---|---|---|---|
| src/strands_agent.py:153, src/strands_agent.py:39 | `main` calls `configure_tracing(TRACE_FILE)` with the `str` "agent_traces.jsonl" (line 15), and `configure_tracing` calls `log_path.open(...)`; a `str` has no `open`, so AttributeError is raised before the log is opened, outside `main`'s `try`, and no agent runs | any run of `main` | pass `Path(TRACE_FILE)`, so the log opens for appending and the agents run | high, not executed | `Tracing.MainTracingSetup` | `Tracing.MainTracingSetupWithPath` |
