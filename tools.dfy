/** What a tool body hands back to the agent: the value it computed, or the
    text of the exception it caught, formatted as "Error: <message>". */
module Tools {

  datatype Reply<V> = Answer(value: V) | ErrorText(text: string)

  const ErrorPrefix: string := "Error: "

  /** The `except Exception as e: return f"Error: {e}"` arm of a tool: the
      reply starts with "Error: " and the message can be read back after it. */
  function ErrorReply<V>(message: string): (r: Reply<V>)
    ensures r.ErrorText?
    ensures |r.text| == |ErrorPrefix| + |message|
    ensures r.text[..|ErrorPrefix|] == ErrorPrefix && r.text[|ErrorPrefix|..] == message
  {
    ErrorText(ErrorPrefix + message)
  }

  /** A reply is either a value or an "Error: "-prefixed text: nothing else
      leaves a tool. */
  predicate WellFormed<V>(r: Reply<V>)
  {
    r.ErrorText? ==> ErrorPrefix <= r.text
  }
}
