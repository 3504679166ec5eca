/** The `perform_calculation` tool: a character filter in front of an
    evaluator that the model does not interpret. The same tool body appears
    in both scripts of the repository; this one definition models both. */
module Calculator {
  import opened Tools

  /** The 18 characters an expression may contain. */
  const AllowedChars: string := "0123456789+-*/.() "

  const InvalidCharactersMessage: string := "Invalid characters in expression."

  /** What the evaluator does with an expression: it produces a value or
      raises an exception whose text is `message`. */
  datatype Evaluation<V> = Evaluated(value: V) | Raised(message: string)

  /** Whether `c` belongs to the allowed alphabet. */
  predicate IsAllowed(c: char)
  {
    c in AllowedChars
  }

  /** Python's `all(c in allowed_chars for c in expr)`, one character at a
      time; vacuously true of the empty expression. */
  function AllAllowed(expr: string): (ok: bool)
    ensures ok <==> forall i | 0 <= i < |expr| :: IsAllowed(expr[i])
  {
    if expr == [] then true else IsAllowed(expr[0]) && AllAllowed(expr[1..])
  }

  /** `perform_calculation(expr)`, with `eval` the evaluator. An expression
      holding a character outside the alphabet is rejected with a fixed text
      and never reaches the evaluator; otherwise the evaluator's value is the
      answer and its exception becomes an "Error: " text. */
  function PerformCalculation<V>(expr: string, eval: string -> Evaluation<V>): (r: Reply<V>)
    ensures WellFormed(r)
    ensures (exists i | 0 <= i < |expr| :: !IsAllowed(expr[i])) ==>
      r == ErrorText(ErrorPrefix + InvalidCharactersMessage)
    ensures r.Answer? <==> (forall i | 0 <= i < |expr| :: IsAllowed(expr[i])) && eval(expr).Evaluated?
    ensures r.Answer? ==> r.value == eval(expr).value
    ensures (forall i | 0 <= i < |expr| :: IsAllowed(expr[i])) && eval(expr).Raised? ==>
      r.ErrorText? && r.text[|ErrorPrefix|..] == eval(expr).message
  {
    if !AllAllowed(expr) then
      ErrorReply(InvalidCharactersMessage)
    else
      match eval(expr)
      case Evaluated(v) => Answer(v)
      case Raised(m) => ErrorReply(m)
  }

  /** A rejected expression is never evaluated: the reply is the same
      whatever the evaluator would have done. */
  lemma RejectedNeverEvaluated<V>(expr: string, eval1: string -> Evaluation<V>, eval2: string -> Evaluation<V>)
    requires exists i | 0 <= i < |expr| :: !IsAllowed(expr[i])
    ensures PerformCalculation(expr, eval1) == PerformCalculation(expr, eval2)
  {
  }

  /** An accepted expression is handed to the evaluator as it is: the reply
      depends on nothing but what the evaluator does with `expr`. */
  lemma AcceptedDependsOnlyOnEvaluation<V>(expr: string, eval1: string -> Evaluation<V>, eval2: string -> Evaluation<V>)
    requires AllAllowed(expr)
    requires eval1(expr) == eval2(expr)
    ensures PerformCalculation(expr, eval1) == PerformCalculation(expr, eval2)
  {
  }

  /** The alphabet is exactly the ten digits, the four operators, the
      decimal point, the two parentheses and the space: 18 distinct
      characters. */
  lemma AllowedAlphabet(c: char)
    ensures IsAllowed(c) <==>
      ('0' <= c <= '9' || c == '+' || c == '-' || c == '*' || c == '/' || c == '.' || c == '(' || c == ')' || c == ' ')
    ensures |AllowedChars| == 18
    ensures forall i, j | 0 <= i < j < |AllowedChars| :: AllowedChars[i] != AllowedChars[j]
  {
  }

  /** "30 / 5" is handed to the evaluator and "30 / 5; rm" is rejected; the
      empty expression passes the filter, so whatever the evaluator does with
      it decides the reply. */
  lemma FilterExamples<V>(eval: string -> Evaluation<V>)
    ensures eval("30 / 5").Evaluated? ==> PerformCalculation("30 / 5", eval) == Answer(eval("30 / 5").value)
    ensures PerformCalculation("30 / 5; rm", eval) == ErrorText(ErrorPrefix + InvalidCharactersMessage)
    ensures AllAllowed("")
  {
    var accepted, rejected := "30 / 5", "30 / 5; rm";
    forall i | 0 <= i < |accepted| ensures IsAllowed(accepted[i]) {
      AllowedAlphabet(accepted[i]);
    }
    AllowedAlphabet(';');
    assert rejected[6] == ';';
  }
}
