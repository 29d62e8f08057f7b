/** One recorded call to the OpenAI API as the Event Hub delivers it. */
module OpenAiApiEvent {
  import opened Results

  /** The operations a recorded call can be. */
  datatype OpenAiOperation = ChatCompletion | TextCompletion

  /** The enum member's name, as `ToString()` renders it; the two members render apart. */
  function OperationName(op: OpenAiOperation): (r: string)
    ensures r == "ChatCompletion" || r == "TextCompletion"
    ensures op == TextCompletion <==> r == "TextCompletion"
  {
    match op
    case ChatCompletion => "ChatCompletion"
    case TextCompletion => "TextCompletion"
  }

  /** The member whose name is exactly `s`, if any (an ordinal match). */
  function ParseOperationName(s: string): Option<OpenAiOperation> {
    if s == "ChatCompletion" then Some(ChatCompletion)
    else if s == "TextCompletion" then Some(TextCompletion)
    else None
  }

  lemma OperationNameRoundTrip(op: OpenAiOperation)
    ensures ParseOperationName(OperationName(op)) == Some(op)
  {
  }

  /** The deserialized event. Every field may be null; `request` and `response` are JSON
      text kept as strings, the response possibly a sequence of `data:` lines. */
  datatype OpenAiApiEvent = OpenAiApiEvent(
    eventTime: Option<string>,
    apiOperation: Option<OpenAiOperation>,
    appSubscriptionKey: Option<string>,
    request: Option<string>,
    response: Option<string>)
}
