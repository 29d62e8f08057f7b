/** The calculator for streamed calls: prompt tokens are counted from the request with the
    tokenizer, completion tokens by folding over the server-sent-event lines of the response. */
module StreamTokenInfoService {
  import opened Results
  import opened Text
  import opened Json
  import opened OpenAiApiEvent
  import opened Collaborators
  import opened LineFold
  import Int32

  // ---------------------------------------------------------------------------------------
  // Splitting the response into lines, as `StreamReader.ReadLine` does until `EndOfStream`

  predicate IsLineTerminator(c: char) {
    c == '\n' || c == '\r'
  }

  predicate NoTerminator(s: string) {
    forall i :: 0 <= i < |s| ==> !IsLineTerminator(s[i])
  }

  /** The length of the first line of `s`: the index of its first terminator, or `|s|`. */
  function LineLength(s: string): (k: nat)
    ensures k <= |s|
    ensures NoTerminator(s[..k])
    ensures k < |s| ==> IsLineTerminator(s[k])
  {
    if s == [] || IsLineTerminator(s[0]) then 0 else 1 + LineLength(s[1..])
  }

  /** Where the next line starts when the current one ends at `k`: "\r\n" is one terminator,
      a lone "\r" or "\n" another. */
  function NextLineStart(s: string, k: nat): (e: nat)
    requires k <= |s|
    ensures k < |s| ==> k < e <= |s|
    ensures k == |s| ==> e == k
  {
    if k == |s| then k
    else if s[k] == '\r' && k + 1 < |s| && s[k + 1] == '\n' then k + 2
    else k + 1
  }

  /** The lines `ReadLine` returns for `s`, in order. */
  function SplitLines(s: string): (lines: seq<string>)
    decreases |s|
  {
    if s == [] then []
    else
      var k := LineLength(s);
      [s[..k]] + SplitLines(s[NextLineStart(s, k)..])
  }

  /** No line for the empty string, and at least one for any other. */
  lemma SplitLinesEmpty(s: string)
    ensures |SplitLines(s)| == 0 <==> |s| == 0
  {
    if s != [] {
      var k := LineLength(s);
      assert SplitLines(s) == [s[..k]] + SplitLines(s[NextLineStart(s, k)..]);
    }
  }

  lemma {:induction false} LineLengthIs(s: string, k: nat)
    requires k <= |s| && NoTerminator(s[..k])
    requires k < |s| ==> IsLineTerminator(s[k])
    ensures LineLength(s) == k
    decreases k
  {
    if k > 0 {
      assert s[0] == s[..k][0];
      assert s[1..][..k - 1] == s[..k][1..];
      LineLengthIs(s[1..], k - 1);
    }
  }

  /** The start of the next line, seen from position `pos`. */
  lemma NextLineStartFrom(s: string, pos: nat, end: nat, next: nat)
    requires pos <= end <= |s|
    requires next == if end == |s| then end
                     else if s[end] == '\r' && end + 1 < |s| && s[end + 1] == '\n' then end + 2
                     else end + 1
    ensures NextLineStart(s[pos..], end - pos) == next - pos
  {
    var rest := s[pos..];
    if end < |s| {
      assert rest[end - pos] == s[end];
      if end + 1 < |s| {
        assert rest[end - pos + 1] == s[end + 1];
      }
    }
  }

  /** The first line seen from position `pos` ends at the first terminator at or after it. */
  lemma LineLengthFrom(s: string, pos: nat, end: nat)
    requires pos <= end <= |s|
    requires forall k :: pos <= k < end ==> !IsLineTerminator(s[k])
    requires end < |s| ==> IsLineTerminator(s[end])
    ensures LineLength(s[pos..]) == end - pos
  {
    var rest := s[pos..];
    var k := end - pos;
    forall i | 0 <= i < k
      ensures !IsLineTerminator(rest[..k][i])
    {
      assert rest[..k][i] == s[pos + i];
    }
    assert k < |rest| ==> rest[k] == s[end];
    LineLengthIs(rest, k);
  }

  /** One `ReadLine` call from position `pos`: the line runs to where the first line of the
      rest ends, at `end`, and the next one starts at `next`. */
  lemma SplitLinesAt(s: string, pos: nat, end: nat, next: nat)
    requires pos < |s| && pos <= end <= next <= |s|
    requires LineLength(s[pos..]) == end - pos
    requires NextLineStart(s[pos..], end - pos) == next - pos
    ensures SplitLines(s[pos..]) == [s[pos..end]] + SplitLines(s[next..])
  {
    SlicesFrom(s, pos, end, next);
    SplitLinesStep(s[pos..], end - pos, next - pos, s[pos..end], s[next..]);
  }

  /** One step of `SplitLines`, named by the first line's length and the next line's start. */
  lemma SplitLinesStep(t: string, k: nat, e: nat, line: string, rest: string)
    requires t != [] && LineLength(t) == k && k <= e <= |t| && NextLineStart(t, k) == e
    requires line == t[..k] && rest == t[e..]
    ensures SplitLines(t) == [line] + SplitLines(rest)
  {
  }

  lemma SlicesFrom(s: string, pos: nat, end: nat, next: nat)
    requires pos <= end <= next <= |s|
    ensures s[pos..][..end - pos] == s[pos..end]
    ensures s[pos..][next - pos..] == s[next..]
  {
  }

  /** `StreamReader.ReadLine` on a stream positioned at `pos`, not at its end: the line up to
      the first terminator, and the position after that terminator. */
  method ReadLine(response: string, pos: nat) returns (line: string, next: nat)
    requires pos < |response|
    ensures pos < next <= |response|
    ensures SplitLines(response[pos..]) == [line] + SplitLines(response[next..])
  {
    var end := pos;
    while end < |response| && !IsLineTerminator(response[end])
      invariant pos <= end <= |response|
      invariant forall k :: pos <= k < end ==> !IsLineTerminator(response[k])
    {
      end := end + 1;
    }
    next := if end == |response| then end
            else if response[end] == '\r' && end + 1 < |response| && response[end + 1] == '\n' then end + 2
            else end + 1;
    LineLengthFrom(response, pos, end);
    NextLineStartFrom(response, pos, end, next);
    SplitLinesAt(response, pos, end, next);
    line := response[pos..end];
  }

  /** `ReadChatCompletionChunks`: read lines until the end of the stream. */
  method ReadChatCompletionChunks(response: string) returns (lines: seq<string>)
    ensures lines == SplitLines(response)
  {
    lines := [];
    var pos := 0;
    while pos < |response|
      invariant 0 <= pos <= |response|
      invariant lines + SplitLines(response[pos..]) == SplitLines(response)
      decreases |response| - pos
    {
      var line, next := ReadLine(response, pos);
      assert (lines + [line]) + SplitLines(response[next..]) == lines + ([line] + SplitLines(response[next..]));
      lines := lines + [line];
      pos := next;
    }
    assert response[pos..] == [];
    assert lines + [] == lines;
  }

  /** No line returned contains a terminator. */
  lemma {:induction false} SplitLinesHaveNoTerminators(s: string)
    ensures forall i :: 0 <= i < |SplitLines(s)| ==> NoTerminator(SplitLines(s)[i])
    decreases |s|
  {
    if s != [] {
      var k := LineLength(s);
      SplitLinesHaveNoTerminators(s[NextLineStart(s, k)..]);
    }
  }

  /** A line followed by "\n", by "\r\n", or by a lone "\r" that is not the start of "\r\n",
      is returned as it is, and reading goes on after the terminator. */
  lemma SplitLinesCons(line: string, terminator: string, rest: string)
    requires NoTerminator(line)
    requires terminator == "\n" || terminator == "\r\n" || (terminator == "\r" && (rest == [] || rest[0] != '\n'))
    ensures SplitLines(line + terminator + rest) == [line] + SplitLines(rest)
  {
    var s := line + terminator + rest;
    assert s[..|line|] == line;
    LineLengthIs(s, |line|);
    assert NextLineStart(s, |line|) == |line| + |terminator|;
    assert s[|line| + |terminator|..] == rest;
  }

  /** A last line without a terminator is returned as it is. */
  lemma SplitLinesLast(line: string)
    requires line != [] && NoTerminator(line)
    ensures SplitLines(line) == [line]
  {
    assert line[..|line|] == line;
    LineLengthIs(line, |line|);
  }

  /** The text of `lines`, each ended by "\n". */
  function JoinLines(lines: seq<string>): string {
    if lines == [] then "" else lines[0] + "\n" + JoinLines(lines[1..])
  }

  /** Splitting undoes joining: a final terminator yields no extra empty line, an empty line
      in the middle is kept, and no lines at all is the empty text. */
  lemma {:induction false} SplitJoinRoundTrip(lines: seq<string>)
    requires forall i :: 0 <= i < |lines| ==> NoTerminator(lines[i])
    ensures SplitLines(JoinLines(lines)) == lines
  {
    if lines != [] {
      var rest := lines[1..];
      forall i | 0 <= i < |rest|
        ensures NoTerminator(rest[i])
      {
        assert rest[i] == lines[i + 1];
      }
      SplitJoinRoundTrip(rest);
      SplitLinesCons(lines[0], "\n", JoinLines(rest));
      assert [lines[0]] + rest == lines;
    }
  }

  // ---------------------------------------------------------------------------------------
  // The tokenizer guard

  /** `GetTokenizerCount`: null and the empty string count 0 without calling the encoder;
      any other string counts what the encoder returns, which is never negative. */
  function GetTokenizerCount(count: string -> Int32.count32, input: Option<string>): (r: Int32.count32)
    ensures input.None? || input.value == "" ==> r == 0
    ensures input.Some? && input.value != "" ==> r == count(input.value)
  {
    match input
    case None => 0
    case Some(s) => if s == "" then 0 else count(s)
  }

  // ---------------------------------------------------------------------------------------
  // Prompt tokens

  /** The tokens of one chat message: the count of its `content` string. */
  function MessageTokens(ext: Externals, message: Json): (r: Result<Int32.count32>)
    ensures !message.JObject? ==> r == Err(ChildAccess)
    ensures message.JObject? && ("content" !in message.props || message.props["content"].JNull?) ==> r == Ok(0)
    ensures message.JObject? && "content" in message.props && message.props["content"].JString? ==>
      r == Ok(GetTokenizerCount(ext.count, Some(message.props["content"].s)))
    ensures message.JObject? && "content" in message.props && message.props["content"].JInteger? ==>
      r == Ok(GetTokenizerCount(ext.count, Some(IntToDecimal(message.props["content"].n))))
    ensures message.JObject? && "content" in message.props && message.props["content"].JBool? ==>
      r == Ok(GetTokenizerCount(ext.count, Some(BoolToString(message.props["content"].b))))
    ensures message.JObject? && "content" in message.props
            && (message.props["content"].JArray? || message.props["content"].JObject?) ==>
      r == Err(InvalidCast)
  {
    var content :- Index(message, "content");
    var text :- ToStringCast(content);
    Ok(GetTokenizerCount(ext.count, text))
  }

  /** The exact total over the messages, in unbounded arithmetic: the reference for the sum. */
  function MessagesTotal(ext: Externals, messages: seq<Json>): Result<nat> {
    if messages == [] then Ok(0)
    else
      var n :- MessageTokens(ext, messages[0]);
      var rest :- MessagesTotal(ext, messages[1..]);
      Ok(n + rest)
  }

  /** LINQ `Sum(selector)` over Int32: the selector runs element by element, and every
      addition is checked, so leaving the Int32 range throws at that element. */
  function CheckedSum(ext: Externals, messages: seq<Json>, acc: Int32.count32): (r: Result<Int32.count32>)
    ensures messages == [] ==> r == Ok(acc)
    ensures r.Ok? ==> acc <= r.value
  {
    if messages == [] then Ok(acc)
    else
      var n :- MessageTokens(ext, messages[0]);
      if acc + n > Int32.MAX then Err(Overflow) else CheckedSum(ext, messages[1..], acc + n)
  }

  /** The checked sum succeeds exactly when every message can be counted and the total fits
      in Int32, and then it is that total. */
  lemma {:induction false} CheckedSumIsTotal(ext: Externals, messages: seq<Json>, acc: Int32.count32)
    ensures CheckedSum(ext, messages, acc).Ok? <==>
      MessagesTotal(ext, messages).Ok? && acc + MessagesTotal(ext, messages).value <= Int32.MAX
    ensures CheckedSum(ext, messages, acc).Ok? ==>
      CheckedSum(ext, messages, acc).value == acc + MessagesTotal(ext, messages).value
  {
    if messages != [] {
      var n := MessageTokens(ext, messages[0]);
      if n.Ok? && acc + n.value <= Int32.MAX {
        CheckedSumIsTotal(ext, messages[1..], acc + n.value);
      }
    }
  }

  /** `CalculatePromptTokens`: parse the request; for a text completion count its `prompt`,
      otherwise sum the counts of the `content` of each element of a non-empty `messages`. */
  function CalculatePromptTokens(ext: Externals, event: OpenAiApiEvent): (r: Result<Int32.count32>)
    ensures ParseObject(ext.parse, event.request).Err? ==> r == Err(ParseObject(ext.parse, event.request).error)
  {
    var request :- ParseObject(ext.parse, event.request);
    if event.apiOperation == Some(TextCompletion) then
      var prompt :- ToStringCast(Lookup(request, "prompt"));
      Ok(GetTokenizerCount(ext.count, prompt))
    else if "messages" in request && HasValues(request["messages"]) then
      match request["messages"]
      case JArray(messages) => CheckedSum(ext, messages, 0)
      // the children of a non-empty object are properties, and a property has no "content"
      case _ => Err(ChildAccess)
    else
      Ok(0)
  }

  /** Text completion: the prompt tokens are the count of the `prompt` string, 0 when it is
      absent or null; an integer or boolean `prompt` counts its rendering, and an array or
      object makes the call fail. */
  lemma PromptOfTextCompletion(ext: Externals, event: OpenAiApiEvent, request: map<string, Json>)
    requires ParseObject(ext.parse, event.request) == Ok(request)
    requires event.apiOperation == Some(TextCompletion)
    ensures "prompt" !in request || request["prompt"] == JNull ==> CalculatePromptTokens(ext, event) == Ok(0)
    ensures "prompt" in request && request["prompt"].JString? ==>
      CalculatePromptTokens(ext, event) == Ok(GetTokenizerCount(ext.count, Some(request["prompt"].s)))
    ensures "prompt" in request && request["prompt"].JInteger? ==>
      CalculatePromptTokens(ext, event) == Ok(GetTokenizerCount(ext.count, Some(IntToDecimal(request["prompt"].n))))
    ensures "prompt" in request && request["prompt"].JBool? ==>
      CalculatePromptTokens(ext, event) == Ok(GetTokenizerCount(ext.count, Some(BoolToString(request["prompt"].b))))
    ensures "prompt" in request && (request["prompt"].JArray? || request["prompt"].JObject?) ==>
      CalculatePromptTokens(ext, event) == Err(InvalidCast)
  {
  }

  /** Chat: the prompt tokens are 0 without a non-empty `messages`; for an array of messages
      they are the exact sum of the messages' counts, and the call fails when a message cannot
      be counted or the sum leaves Int32; a non-empty object under `messages` makes it fail,
      since its children are properties. */
  lemma PromptOfChat(ext: Externals, event: OpenAiApiEvent, request: map<string, Json>)
    requires ParseObject(ext.parse, event.request) == Ok(request)
    requires event.apiOperation != Some(TextCompletion)
    ensures "messages" !in request || !HasValues(request["messages"]) ==> CalculatePromptTokens(ext, event) == Ok(0)
    ensures "messages" in request && request["messages"].JArray? ==>
      var total := MessagesTotal(ext, request["messages"].items);
      (CalculatePromptTokens(ext, event).Ok? <==> total.Ok? && total.value <= Int32.MAX)
      && (CalculatePromptTokens(ext, event).Ok? ==> CalculatePromptTokens(ext, event).value == total.value)
    ensures "messages" in request && HasValues(request["messages"]) && !request["messages"].JArray? ==>
      CalculatePromptTokens(ext, event) == Err(ChildAccess)
  {
    if "messages" in request && request["messages"].JArray? {
      CheckedSumIsTotal(ext, request["messages"].items, 0);
    }
  }

  // ---------------------------------------------------------------------------------------
  // Completion tokens

  const DataPrefix: string := "data:"
  const Done: string := "[DONE]"

  /** The payload of a line: every "data:" removed, then trimmed, so it is no longer than the
      line and has white space at neither end. */
  function FrameData(line: string): (payload: string)
    ensures |payload| <= |line|
    ensures payload == [] || (!IsWhiteSpace(payload[0]) && !IsWhiteSpace(payload[|payload| - 1]))
  {
    Trim(RemoveAll(line, DataPrefix))
  }

  /** The lines the fold passes over: a raw empty line, or one whose payload is "[DONE]"
      (which takes at least as many characters as "[DONE]"). */
  predicate SkippedLine(line: string)
    ensures line == [] ==> SkippedLine(line)
    ensures SkippedLine(line) ==> line == [] || |line| >= |Done|
  {
    line == "" || FrameData(line) == Done
  }

  /** `?.ToString()`: null stays null, a token gives its text. */
  function TextOf(format: Json -> string, t: Option<Json>): Option<string> {
    match t
    case None => None
    case Some(j) => Some(TokenText(format, j))
  }

  /** The text of the first choice: `text` for a text completion, `delta.content` otherwise. */
  function ChoiceText(format: Json -> string, operation: Option<OpenAiOperation>, choices: Json): (r: Result<Option<string>>)
    requires HasValues(choices)
    ensures !choices.JArray? ==> r == Err(ChildAccess)
    ensures choices.JArray? && !choices.items[0].JObject? ==> r == Err(ChildAccess)
    ensures choices.JArray? && choices.items[0].JObject? && operation == Some(TextCompletion) ==>
      r == Ok(TextOf(format, Lookup(choices.items[0].props, "text")))
    ensures choices.JArray? && choices.items[0].JObject? && operation != Some(TextCompletion) ==>
      var delta := Lookup(choices.items[0].props, "delta");
      (delta.None? ==> r == Ok(None))
      && (delta.Some? && !delta.value.JObject? ==> r == Err(ChildAccess))
      && (delta.Some? && delta.value.JObject? ==> r == Ok(TextOf(format, Lookup(delta.value.props, "content"))))
  {
    match choices
    case JArray(items) =>
      var first := items[0];
      if operation == Some(TextCompletion) then
        var text :- Index(first, "text");
        Ok(TextOf(format, text))
      else
        var delta :- Index(first, "delta");
        var content :- IndexOpt(delta, "content");
        Ok(TextOf(format, content))
    // the first child of a non-empty object is a property, which has no keyed children
    case _ => Err(ChildAccess)
  }

  /** What one line adds to the completion tokens, or the exception it raises. */
  function FrameTokens(ext: Externals, operation: Option<OpenAiOperation>, line: string): (r: Result<Int32.count32>)
    ensures SkippedLine(line) ==> r == Ok(0)
    ensures !SkippedLine(line) && ParseObject(ext.parse, Some(FrameData(line))).Err? ==> r == Err(JsonReader)
  {
    if SkippedLine(line) then Ok(0)
    else
      var chunk :- ParseObject(ext.parse, Some(FrameData(line)));
      if "choices" !in chunk || !HasValues(chunk["choices"]) then Ok(0)
      else
        var text :- ChoiceText(ext.format, operation, chunk["choices"]);
        Ok(GetTokenizerCount(ext.count, text))
  }

  /** The step of the completion fold for one operation. */
  function FrameStep(ext: Externals, operation: Option<OpenAiOperation>): string -> Result<Int32.count32> {
    line => FrameTokens(ext, operation, line)
  }

  /** The completion tokens `CalculateCompletionTokens` returns: the fold over the response's
      lines, kept in an Int32 that wraps on overflow (the `+=` is unchecked). */
  function CompletionTokens(ext: Externals, event: OpenAiApiEvent): (r: Result<Int32.int32>)
    ensures event.response.None? ==> r == Err(ArgumentNull)
    ensures event.response == Some([]) ==> r == Ok(0)
  {
    match event.response
    case None => Err(ArgumentNull)
    case Some(response) =>
      match Fold(FrameStep(ext, event.apiOperation), SplitLines(response))
      case Err(e) => Err(e)
      case Ok(total) => Ok(Int32.Wrap(total))
  }

  /** A line whose payload is empty is not skipped, since the emptiness test looks at the raw
      line: it reaches the parser, which rejects it. */
  lemma EmptyPayloadFails(ext: Externals, operation: Option<OpenAiOperation>, line: string)
    requires ValidExternals(ext)
    requires line != "" && FrameData(line) == ""
    ensures FrameTokens(ext, operation, line) == Err(JsonReader)
  {
  }

  /** So a line of white space only makes the line fail. */
  lemma WhiteSpaceLineFails(ext: Externals, operation: Option<OpenAiOperation>, line: string)
    requires ValidExternals(ext)
    requires line != "" && forall k :: 0 <= k < |line| ==> IsWhiteSpace(line[k])
    ensures FrameTokens(ext, operation, line) == Err(JsonReader)
  {
    forall k | 0 <= k < |line|
      ensures !OccursAt(line, DataPrefix, k)
    {
      assert IsWhiteSpace(line[k]);
    }
    RemoveAllAbsent(line, DataPrefix);
    TrimEmptyIff(line);
    EmptyPayloadFails(ext, operation, line);
  }

  /** And so does a bare "data:". */
  lemma BareDataLineFails(ext: Externals, operation: Option<OpenAiOperation>)
    requires ValidExternals(ext)
    ensures FrameTokens(ext, operation, "data:") == Err(JsonReader)
  {
    assert "data:"[..|DataPrefix|] == DataPrefix;
    assert RemoveAll("data:", DataPrefix) == RemoveAll([], DataPrefix) == [];
    EmptyPayloadFails(ext, operation, "data:");
  }

  /** The payload of the usual frame "data: " + `payload` is the trimmed payload, provided the
      payload itself holds no "data:". */
  lemma FrameDataOfDataLine(payload: string)
    requires forall k :: 0 <= k < |payload| ==> !OccursAt(payload, DataPrefix, k)
    ensures FrameData("data: " + payload) == Trim(payload)
  {
    var tail := " " + payload;
    forall k | 0 <= k < |tail|
      ensures !OccursAt(tail, DataPrefix, k)
    {
      if k == 0 {
        assert tail[0] == ' ';
      } else {
        OccursShift(tail, DataPrefix, k - 1);
        assert tail[1..] == payload;
      }
    }
    RemoveAllAbsent(tail, DataPrefix);
    var line := DataPrefix + tail;
    assert line == "data: " + payload;
    assert line[..|DataPrefix|] == DataPrefix && line[|DataPrefix|..] == tail;
    assert TrimStart(tail) == TrimStart(payload);
  }

  lemma DoneHasNoDataPrefix()
    ensures forall k :: 0 <= k < |Done| ==> !OccursAt(Done, DataPrefix, k)
  {
    forall k | 0 <= k < |Done|
      ensures !OccursAt(Done, DataPrefix, k)
    {
      assert k + |DataPrefix| <= |Done| ==> k <= 1 && Done[k] != 'd';
    }
  }

  lemma DoneTrimmed()
    ensures Trim(Done) == Done
  {
    assert !IsWhiteSpace(Done[0]);
    assert TrimStart(Done) == Done;
    assert !IsWhiteSpace(Done[|Done| - 1]);
  }

  /** "data: [DONE]" is a single line that is skipped: it counts 0 and never fails. */
  lemma DoneLineSkipped(done: string)
    requires done == "data: " + Done
    ensures NoTerminator(done) && SkippedLine(done)
  {
    DoneHasNoDataPrefix();
    FrameDataOfDataLine(Done);
    DoneTrimmed();
  }

  /** A frame that parses but has no `choices`, or an empty one, counts 0. */
  lemma NoChoicesZero(ext: Externals, operation: Option<OpenAiOperation>, line: string, chunk: map<string, Json>)
    requires !SkippedLine(line)
    requires ParseObject(ext.parse, Some(FrameData(line))) == Ok(chunk)
    requires "choices" !in chunk || !HasValues(chunk["choices"])
    ensures FrameTokens(ext, operation, line) == Ok(0)
  {
  }

  /** A text-completion frame counts the `text` of its first choice: 0 when it is absent, its
      count when it is a string; a first choice that is not an object makes the line fail. */
  lemma TextCompletionFrame(ext: Externals, line: string, chunk: map<string, Json>, first: Json, rest: seq<Json>)
    requires !SkippedLine(line)
    requires ParseObject(ext.parse, Some(FrameData(line))) == Ok(chunk)
    requires "choices" in chunk && chunk["choices"] == JArray([first] + rest)
    ensures !first.JObject? ==> FrameTokens(ext, Some(TextCompletion), line) == Err(ChildAccess)
    ensures first.JObject? && "text" !in first.props ==> FrameTokens(ext, Some(TextCompletion), line) == Ok(0)
    ensures first.JObject? && "text" in first.props && first.props["text"].JString? ==>
      FrameTokens(ext, Some(TextCompletion), line) == Ok(GetTokenizerCount(ext.count, Some(first.props["text"].s)))
  {
    assert ([first] + rest)[0] == first;
  }

  /** A chat frame counts the `delta.content` of its first choice: 0 when `delta` or `content`
      is absent, its count when it is a string; a `delta` that is not an object makes the line
      fail. */
  lemma ChatFrame(ext: Externals, operation: Option<OpenAiOperation>, line: string, chunk: map<string, Json>,
                  first: map<string, Json>, rest: seq<Json>)
    requires operation != Some(TextCompletion)
    requires !SkippedLine(line)
    requires ParseObject(ext.parse, Some(FrameData(line))) == Ok(chunk)
    requires "choices" in chunk && chunk["choices"] == JArray([JObject(first)] + rest)
    ensures "delta" !in first ==> FrameTokens(ext, operation, line) == Ok(0)
    ensures "delta" in first && !first["delta"].JObject? ==> FrameTokens(ext, operation, line) == Err(ChildAccess)
    ensures "delta" in first && first["delta"].JObject? && "content" !in first["delta"].props ==>
      FrameTokens(ext, operation, line) == Ok(0)
    ensures ("delta" in first && first["delta"].JObject? && "content" in first["delta"].props
             && first["delta"].props["content"].JString?) ==>
      FrameTokens(ext, operation, line) == Ok(GetTokenizerCount(ext.count, Some(first["delta"].props["content"].s)))
  {
    assert ([JObject(first)] + rest)[0] == JObject(first);
  }

  /** A line that raises makes the whole computation raise the same exception, whatever
      follows it, once the lines before it have been counted. */
  lemma CompletionFailsAt(ext: Externals, event: OpenAiApiEvent, i: nat, e: Error)
    requires event.response.Some?
    requires i < |SplitLines(event.response.value)|
    requires Fold(FrameStep(ext, event.apiOperation), SplitLines(event.response.value)[..i]).Ok?
    requires FrameTokens(ext, event.apiOperation, SplitLines(event.response.value)[i]) == Err(e)
    ensures CompletionTokens(ext, event) == Err(e)
  {
    FoldFails(FrameStep(ext, event.apiOperation), SplitLines(event.response.value), i, e);
  }

  /** A response made of several parts counts what its parts count together. */
  lemma CompletionAdditive(ext: Externals, operation: Option<OpenAiOperation>, a: seq<string>, b: seq<string>)
    ensures Fold(FrameStep(ext, operation), a + b) ==
      AddResults(Fold(FrameStep(ext, operation), a), Fold(FrameStep(ext, operation), b))
  {
    FoldAppend(FrameStep(ext, operation), a, b);
  }

  /** A chat frame whose first choice carries `delta.content` = `text`, as the service streams it. */
  function ContentFrame(text: string): Json {
    JObject(map["choices" := JArray([JObject(map["delta" := JObject(map["content" := JString(text)])])])])
  }

  /** A payload without "data:" that is not "[DONE]" and parses to a content frame carrying `text`. */
  predicate ContentPayload(ext: Externals, payload: string, text: string) {
    (forall k :: 0 <= k < |payload| ==> !OccursAt(payload, DataPrefix, k))
    && Trim(payload) != Done
    && ext.parse(Trim(payload)) == Some(ContentFrame(text))
  }

  /** The line "data: " + `payload`, where the payload parses to a content frame, counts the
      frame's text. */
  lemma ContentLine(ext: Externals, operation: Option<OpenAiOperation>, payload: string, text: string)
    requires operation != Some(TextCompletion)
    requires ContentPayload(ext, payload, text)
    ensures FrameTokens(ext, operation, "data: " + payload) == Ok(GetTokenizerCount(ext.count, Some(text)))
  {
    var line := "data: " + payload;
    FrameDataOfDataLine(payload);
    var first := map["delta" := JObject(map["content" := JString(text)])];
    ChatFrame(ext, operation, line, ContentFrame(text).props, first, []);
  }

  /** A response whose every line is skipped (empty lines and "[DONE]" markers) counts 0. */
  lemma SkippedResponseZero(ext: Externals, event: OpenAiApiEvent)
    requires event.response.Some?
    requires forall i :: 0 <= i < |SplitLines(event.response.value)| ==> SkippedLine(SplitLines(event.response.value)[i])
    ensures CompletionTokens(ext, event) == Ok(0)
  {
    var lines := SplitLines(event.response.value);
    var counts: seq<nat> := seq(|lines|, i => 0);
    forall i | 0 <= i < |lines|
      ensures FrameStep(ext, event.apiOperation)(lines[i]) == Ok(counts[i])
    {
      assert SkippedLine(lines[i]);
    }
    FoldAllOk(FrameStep(ext, event.apiOperation), lines, counts);
    SumZero(counts);
  }

  lemma {:induction false} SumZero(counts: seq<nat>)
    requires forall i :: 0 <= i < |counts| ==> counts[i] == 0
    ensures Sum(counts) == 0
  {
    if counts != [] {
      SumZero(counts[1..]);
    }
  }

  /** "data: [DONE]" followed by an empty line is 0 tokens, whatever the collaborators. */
  lemma DoneResponseZero(ext: Externals, event: OpenAiApiEvent, done: string)
    requires done == "data: " + Done
    requires event.response == Some(done + "\n" + "\n")
    ensures CompletionTokens(ext, event) == Ok(0)
  {
    DoneLineSkipped(done);
    var lines := [done, ""];
    assert JoinLines(lines[1..]) == "\n";
    SplitJoinRoundTrip(lines);
    SkippedResponseZero(ext, event);
  }

  /** The lines of a two-frame chat stream and what each of them counts. */
  lemma ChatStreamLines(ext: Externals, operation: Option<OpenAiOperation>, p1: string, p2: string,
                        t1: string, t2: string, done: string)
    requires operation != Some(TextCompletion)
    requires ContentPayload(ext, p1, t1) && ContentPayload(ext, p2, t2)
    requires SkippedLine(done)
    ensures var lines := ["data: " + p1, "", "data: " + p2, "", done, ""];
      var counts: seq<nat> := [GetTokenizerCount(ext.count, Some(t1)), 0, GetTokenizerCount(ext.count, Some(t2)), 0, 0, 0];
      forall i :: 0 <= i < |lines| ==> FrameStep(ext, operation)(lines[i]) == Ok(counts[i])
  {
    var lines := ["data: " + p1, "", "data: " + p2, "", done, ""];
    var counts: seq<nat> := [GetTokenizerCount(ext.count, Some(t1)), 0, GetTokenizerCount(ext.count, Some(t2)), 0, 0, 0];
    forall i | 0 <= i < |lines|
      ensures FrameStep(ext, operation)(lines[i]) == Ok(counts[i])
    {
      if i == 0 {
        ContentLine(ext, operation, p1, t1);
      } else if i == 2 {
        ContentLine(ext, operation, p2, t2);
      } else if i != 4 {
        assert lines[i] == [];
      }
    }
  }

  /** Two content frames, then a skipped line such as "[DONE]", each followed by an empty
      line: the completion tokens are the sum of the two texts' counts, narrowed to Int32. */
  lemma ChatStreamSum(ext: Externals, event: OpenAiApiEvent, p1: string, p2: string, t1: string, t2: string, done: string)
    requires event.apiOperation != Some(TextCompletion)
    requires NoTerminator(p1) && NoTerminator(p2) && NoTerminator(done)
    requires ContentPayload(ext, p1, t1) && ContentPayload(ext, p2, t2)
    requires SkippedLine(done)
    requires event.response == Some(JoinLines(["data: " + p1, "", "data: " + p2, "", done, ""]))
    ensures CompletionTokens(ext, event) ==
      Ok(Int32.Wrap(GetTokenizerCount(ext.count, Some(t1)) + GetTokenizerCount(ext.count, Some(t2))))
  {
    var lines := ["data: " + p1, "", "data: " + p2, "", done, ""];
    var c1: nat := GetTokenizerCount(ext.count, Some(t1));
    var c2: nat := GetTokenizerCount(ext.count, Some(t2));
    var counts: seq<nat> := [c1, 0, c2, 0, 0, 0];
    ChatStreamSplit(p1, p2, done);
    ChatStreamLines(ext, event.apiOperation, p1, p2, t1, t2, done);
    FoldAllOk(FrameStep(ext, event.apiOperation), lines, counts);
    SumOfTwoFrames(c1, c2);
  }

  lemma SumOfTwoFrames(c1: nat, c2: nat)
    ensures Sum([c1, 0, c2, 0, 0, 0]) == c1 + c2
  {
    var zeros: seq<nat> := [0, 0, 0];
    assert Sum(zeros) == 0 by {
      assert zeros[1..] == [0, 0] && zeros[1..][1..] == [0] && zeros[1..][1..][1..] == [];
    }
    var tail: seq<nat> := [c2] + zeros;
    assert tail[1..] == zeros;
    assert Sum(tail) == c2;
    var mid: seq<nat> := [0] + tail;
    assert mid[1..] == tail;
    assert Sum(mid) == c2;
    var counts: seq<nat> := [c1] + mid;
    assert counts[1..] == mid;
    assert Sum(counts) == c1 + c2;
    assert counts == [c1, 0, c2, 0, 0, 0];
  }

  lemma ChatStreamSplit(p1: string, p2: string, done: string)
    requires NoTerminator(p1) && NoTerminator(p2) && NoTerminator(done)
    ensures var lines := ["data: " + p1, "", "data: " + p2, "", done, ""];
      SplitLines(JoinLines(lines)) == lines
  {
    var lines := ["data: " + p1, "", "data: " + p2, "", done, ""];
    assert NoTerminator("data: " + p1) && NoTerminator("data: " + p2);
    SplitJoinRoundTrip(lines);
  }

  /** The "Hello", " world" stream: the source adds `GetTokenizerCount` of the two texts, which
      are count("Hello") and count(" world"), and narrows the sum to Int32 as the unchecked `+=`
      does, so the result is exactly that sum whenever it fits. */
  lemma HelloWorldStream(ext: Externals, event: OpenAiApiEvent, p1: string, p2: string, done: string,
                         hello: string, world: string)
    requires hello == "Hello" && world == " world"
    requires event.apiOperation != Some(TextCompletion)
    requires NoTerminator(p1) && NoTerminator(p2)
    requires ContentPayload(ext, p1, hello) && ContentPayload(ext, p2, world)
    requires done == "data: " + Done
    requires event.response == Some(JoinLines(["data: " + p1, "", "data: " + p2, "", done, ""]))
    ensures CompletionTokens(ext, event) ==
      Ok(Int32.Wrap(GetTokenizerCount(ext.count, Some(hello)) + GetTokenizerCount(ext.count, Some(world))))
    ensures GetTokenizerCount(ext.count, Some(hello)) == ext.count(hello)
    ensures GetTokenizerCount(ext.count, Some(world)) == ext.count(world)
  {
    DoneLineSkipped(done);
    ChatStreamSum(ext, event, p1, p2, hello, world, done);
  }

  /** `CalculateCompletionTokens`: read the response's lines, then add up what each counts. */
  method CalculateCompletionTokens(ext: Externals, event: OpenAiApiEvent) returns (r: Result<Int32.int32>)
    ensures r == CompletionTokens(ext, event)
  {
    if event.response.None? {
      return Err(ArgumentNull);
    }
    var responseChunks := ReadChatCompletionChunks(event.response.value);
    r := CountLines(FrameStep(ext, event.apiOperation), responseChunks);
  }
}
