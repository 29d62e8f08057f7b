# Token metering for Azure OpenAI chargeback

A Dafny model of the Azure Function that meters OpenAI API usage for chargeback. The function
receives a batch of recorded API calls from an Event Hub and turns each call into one usage
record. Each record is sent to Application Insights as an event named `Azure OpenAI Tokens`.

The model follows the function's parts:

- **`ChargebackEventHubTrigger`** (`chargeback_event_hub_trigger.dfy`) is the batch driver.
  - `ChargebackEventHubTrigger.Run` is an imperative loop over the events. An incomplete event
    is skipped; any exception is collected; the loop never stops early.
  - `ComputeEvent` reads the request's `stream` flag, picks a calculator and assembles the record.
    It is proved equal to the function `ProcessEvent`.
  - At the end, `OutcomePolicy` decides from the number of exceptions: complete normally,
    rethrow the single one, or throw an aggregate.
  - The batch lemmas partition the events into emitted, failed and skipped, and show that a
    failure leaves the other events untouched.
- **`TokenServiceFactory`** maps the flag to one of the two `ITokenCalculationService`
  implementations and dispatches calls to it.
- **`StreamTokenInfoService`** is the calculator for streamed calls.
  - Prompt tokens come from the request: the `prompt`, or the checked sum over `messages[].content`.
  - `ReadChatCompletionChunks` splits the response the way `StreamReader.ReadLine` does.
  - Completion tokens are a fold over those lines. The loop itself is `LineFold.CountLines`,
    proved against the specification function `Fold`. Per line, every `data:` is removed and the
    rest trimmed. A raw empty line or `[DONE]` is skipped; anything else is parsed as JSON and
    the first choice's `text` or `delta.content` is counted.
- **`NonStreamTokenService`** reads `usage.prompt_tokens` and `usage.completion_tokens` from
  the response.
- **`TokenInfo`** is the usage record. `TotalTokens` is derived from the two counts, and
  `ToDictionary` flattens the record into eight string properties.

Supporting modules:

- `Results` holds `Option`, `Result` and the exception kinds.
- `Int32` models C#'s 32-bit `int`, including unchecked wrap-around.
- `Text` models the `String` operations used: `Trim`, `Replace(pattern, "")` and decimal
  rendering and parsing.
- `Json` models the `JToken` tree, its indexers and Newtonsoft's `(string)`, `(int)` and
  `(bool)` conversions.
- `OpenAiApiEvent` is the input record and its operation enum.
- `Collaborators` holds the libraries that are not modelled, as parameters:
  - the JSON reader (`parse`), which must at least reject the empty string (`ValidExternals`);
  - the event deserializer (`deserialize`);
  - Tiktoken's token count (`count`);
  - the JSON writer used by `ToString()` on containers (`format`).

C#'s integer behaviour is written out:

- The `+=` in the completion loop and the `TotalTokens` addition are unchecked and wrap
  modulo 2^32 (`Int32.Wrap`).
- LINQ `Sum` over the chat messages is checked: leaving the Int32 range is an `Overflow` failure.

Where the code's behaviour is easy to misread, the model follows the code:

- `Replace("data:", "")` removes every occurrence of `data:` in a line, not only a leading one
  (`Text.RemoveAllInfix`).
- The emptiness test looks at the raw line. So a line of white space only, or a bare `data:`,
  reaches the JSON parser and makes the whole count fail (`WhiteSpaceLineFails`, `BareDataLineFails`).
- Of the checks on the response, only a null `Response` skips an event (a null event or a null
  `ApiOperation` skips it too). An empty-string response is processed:
  it yields no lines, so the streaming calculator counts 0 completion tokens.
- A `stream` value that `(bool)` cannot convert makes the event fail; it does not default to false.

## Model

| member | source | states |
|---|---|---|
| `Int32.Wrap` | src/chargeback_eventhub_trigger_function/Service/StreamTokenInfoService.cs:51 | the unchecked Int32 result of a sum: the sum itself when it fits, otherwise the value congruent to it modulo 2^32 |
| `Int32.WrapCongruent` | src/chargeback_eventhub_trigger_function/Service/StreamTokenInfoService.cs:51 | two sums that agree modulo 2^32 leave the same Int32 value |
| `Int32.WrapAdd` | src/chargeback_eventhub_trigger_function/Service/StreamTokenInfoService.cs:33-51 | wrapping after every `+=` of the running count is the same as wrapping the exact total once |
| `Text.TrimStart` | src/chargeback_eventhub_trigger_function/Service/StreamTokenInfoService.cs:38 | drops exactly the leading white space: what is dropped is white space and what is kept does not start with it |
| `Text.TrimStartIsSuffix` | src/chargeback_eventhub_trigger_function/Service/StreamTokenInfoService.cs:38 | what `TrimStart` keeps is a suffix of its input |
| `Text.TrimEnd` | src/chargeback_eventhub_trigger_function/Service/StreamTokenInfoService.cs:38 | drops exactly the trailing white space |
| `Text.Trim` | src/chargeback_eventhub_trigger_function/Service/StreamTokenInfoService.cs:38 | `Trim()` never lengthens the line and leaves no white space at either end |
| `Text.TrimEndIsPrefix` | src/chargeback_eventhub_trigger_function/Service/StreamTokenInfoService.cs:38 | what `TrimEnd` keeps is a prefix of its input |
| `Text.TrimEmptyIff` | src/chargeback_eventhub_trigger_function/Service/StreamTokenInfoService.cs:38 | a line trims to the empty string exactly when it is all white space (both directions) |
| `Text.TrimIdempotent` | src/chargeback_eventhub_trigger_function/Service/StreamTokenInfoService.cs:38 | trimming a trimmed payload changes nothing |
| `Text.RemoveAll` | src/chargeback_eventhub_trigger_function/Service/StreamTokenInfoService.cs:38 | `Replace("data:", "")` never lengthens the line |
| `Text.RemoveAllAbsent` | src/chargeback_eventhub_trigger_function/Service/StreamTokenInfoService.cs:38 | a line without any occurrence of the pattern is left unchanged |
| `Text.RemoveAllInfix` | src/chargeback_eventhub_trigger_function/Service/StreamTokenInfoService.cs:38 | an occurrence in the middle of a line is removed too, not only a leading one |
| `Text.OccursShift` | src/chargeback_eventhub_trigger_function/Service/StreamTokenInfoService.cs:38 | an occurrence in the tail of a string is an occurrence one position further in the string |
| `Text.NatToDecimal` | src/chargeback_eventhub_trigger_function/Model/TokenInfo.cs:31-33 | the decimal rendering is a non-empty digit string without a leading zero |
| `Text.NatToDecimalRoundTrip` | src/chargeback_eventhub_trigger_function/Model/TokenInfo.cs:31-33 | reading the decimal rendering of a natural number gives the number back |
| `Text.IntToDecimal` | src/chargeback_eventhub_trigger_function/Model/TokenInfo.cs:31-33 | `Int32.ToString()` is never empty, starts with `-` exactly for a negative value, and is digits otherwise |
| `Text.IntToDecimalRoundTrip` | src/chargeback_eventhub_trigger_function/Model/TokenInfo.cs:31-33 | `Int32.ToString()` with its minus sign reads back to the same integer |
| `Text.ParseInteger` | src/chargeback_eventhub_trigger_function/Service/NonStreamTokenService.cs:12 | a text is read exactly when it is digits, or `+` or `-` followed by digits; digits read as their decimal value, `+` keeps it and `-` negates it |
| `Text.ParseDigits` | src/chargeback_eventhub_trigger_function/Service/NonStreamTokenService.cs:12 | a digit string reads as its decimal value |
| `Text.ParseSigned` | src/chargeback_eventhub_trigger_function/Service/NonStreamTokenService.cs:12 | a sign before digits reads as that sign applied to their value, so `+` changes nothing |
| `Text.DecimalLeadingZero` | src/chargeback_eventhub_trigger_function/Service/NonStreamTokenService.cs:12 | one leading zero does not change the value of a digit string |
| `Text.LeadingZeros` | src/chargeback_eventhub_trigger_function/Service/NonStreamTokenService.cs:12 | any run of leading zeros does not change the value of a digit string |
| `Text.ParseLeadingZeros` | src/chargeback_eventhub_trigger_function/Service/NonStreamTokenService.cs:12 | zero-padded digits read as the unpadded value |
| `Text.DropTrailingNulls` | src/chargeback_eventhub_trigger_function/Service/NonStreamTokenService.cs:12 | drops exactly the trailing `\0` characters `Int32.Parse` accepts: all it drops is `\0` and what it keeps does not end with one |
| `Text.StripNumberWhite` | src/chargeback_eventhub_trigger_function/Service/NonStreamTokenService.cs:12 | never lengthens the text and leaves none of the white space `Int32.Parse` allows at either end |
| `Text.StripNumberWhiteAround` | src/chargeback_eventhub_trigger_function/Service/NonStreamTokenService.cs:12 | the white space `Int32.Parse` allows around a number is removed and nothing else |
| `Text.ParseNumberText` | src/chargeback_eventhub_trigger_function/Service/NonStreamTokenService.cs:12 | white space around an optionally signed digit string reads as that signed value |
| `Text.TrimWhiteSpaceAndNull` | src/chargeback_eventhub_trigger_function/ChargebackEventHubTrigger.cs:53 | the trim inside `Boolean.Parse` never lengthens the text and leaves neither white space nor `\0` at either end |
| `Text.TrimWhiteSpaceAndNullAround` | src/chargeback_eventhub_trigger_function/ChargebackEventHubTrigger.cs:53 | white space and `\0` around a text that starts and ends with neither are trimmed, and nothing else |
| `Text.EqualsIgnoreCase` | src/chargeback_eventhub_trigger_function/ChargebackEventHubTrigger.cs:53 | the case-insensitive comparison inside `Boolean.Parse` holds for equal strings and only for strings of the same length |
| `Json.Lookup` | src/chargeback_eventhub_trigger_function/Service/StreamTokenInfoService.cs:20 | the `JObject` indexer: the property's value when present and null exactly when absent |
| `Json.HasValues` | src/chargeback_eventhub_trigger_function/Service/StreamTokenInfoService.cs:23 | only an array or an object has values, and an empty one has none |
| `Json.Index` | src/chargeback_eventhub_trigger_function/Service/StreamTokenInfoService.cs:47-48 | a string key succeeds exactly on an object and otherwise throws |
| `Json.IndexOpt` | src/chargeback_eventhub_trigger_function/Service/StreamTokenInfoService.cs:47-48 | `?[key]` on null is null without a lookup, otherwise the lookup |
| `Json.ParseObject` | src/chargeback_eventhub_trigger_function/Service/StreamTokenInfoService.cs:17 | `JObject.Parse`: a null string throws ArgumentNull, a text that is not a JSON object throws JsonReader, and success returns the parsed object |
| `Json.ToStringCast` | src/chargeback_eventhub_trigger_function/Service/StreamTokenInfoService.cs:20 | `(string)` gives null for null and JSON `null`, a string's text, an integer's or boolean's invariant rendering, and throws exactly for arrays and objects |
| `Json.BoolToString` | src/chargeback_eventhub_trigger_function/Model/TokenInfo.cs:30 | `Boolean.ToString()` is `True` or `False`, and `True` exactly for true |
| `Json.ToInt32` | src/chargeback_eventhub_trigger_function/Service/NonStreamTokenService.cs:12 | `(int)` of null throws ArgumentNull, an integer converts exactly when it fits in Int32 and overflows otherwise; a string goes through `Int32.Parse`, white space around the number and `\0` characters at its end allowed; only integer, boolean and string tokens convert |
| `Json.ToBoolean` | src/chargeback_eventhub_trigger_function/ChargebackEventHubTrigger.cs:53 | `(bool)` of a boolean is itself, of an Int64 integer is non-zero-ness; only booleans, integers and strings convert |
| `Json.ToBooleanOfText` | src/chargeback_eventhub_trigger_function/ChargebackEventHubTrigger.cs:53 | a string token holding `True` or `False` in any ASCII case, with any white space and `\0` at either end, converts to that boolean |
| `Json.TokenText` | src/chargeback_eventhub_trigger_function/Service/StreamTokenInfoService.cs:47-48 | `ToString()` of a string token is its raw text, of JSON `null` the empty string, of an integer or boolean its .NET rendering, and of an array or object the JSON writer's text |
| `Json.ToInt32OfDecimal` | src/chargeback_eventhub_trigger_function/Service/NonStreamTokenService.cs:12 | the decimal text of any Int32 converts back to it through `(int)` |
| `Json.ToInt32OfText` | src/chargeback_eventhub_trigger_function/Service/NonStreamTokenService.cs:12 | `(int)` of a string with white space, a sign and leading zeros is that signed value when it fits in Int32, an overflow otherwise |
| `Json.ToInt32TrailingNulls` | src/chargeback_eventhub_trigger_function/Service/NonStreamTokenService.cs:12 | `\0` characters appended to a string token do not change what `(int)` gives |
| `Json.ToBooleanOfString` | src/chargeback_eventhub_trigger_function/ChargebackEventHubTrigger.cs:53 | `"True"` and `"False"` convert back to the boolean through `(bool)` |
| `OpenAiApiEvent.OperationNameRoundTrip` | src/chargeback_eventhub_trigger_function/Model/OpenAiApiEvent.cs:21-27 | the enum member name reads back to the member, so the two names are distinct |
| `OpenAiApiEvent.OperationName` | src/chargeback_eventhub_trigger_function/Model/TokenInfo.cs:27 | `ToString()` of the operation is its member name, `ChatCompletion` or `TextCompletion`, and the two names differ |
| `LineFold.AddResultsZero` | src/chargeback_eventhub_trigger_function/Service/StreamTokenInfoService.cs:33 | 0 is the starting count of the fold |
| `LineFold.AddResultsAssoc` | src/chargeback_eventhub_trigger_function/Service/StreamTokenInfoService.cs:33-54 | adding counts or exceptions is associative, with the leftmost exception winning |
| `LineFold.Fold` | src/chargeback_eventhub_trigger_function/Service/StreamTokenInfoService.cs:33-54 | no lines count 0; a first line that throws makes the whole count throw its exception; a successful count is at least the first line's |
| `LineFold.FoldAppend` | src/chargeback_eventhub_trigger_function/Service/StreamTokenInfoService.cs:33-54 | the fold over a concatenation of line lists is the sum of the folds, the first part's exception first |
| `LineFold.FoldMonotone` | src/chargeback_eventhub_trigger_function/Service/StreamTokenInfoService.cs:33-54 | the running total never decreases: a successful fold over `a + b` succeeded over `a` with a total no larger |
| `LineFold.FoldFails` | src/chargeback_eventhub_trigger_function/Service/StreamTokenInfoService.cs:42 | a line that throws makes the whole fold throw that exception, whatever follows |
| `LineFold.FoldStep` | src/chargeback_eventhub_trigger_function/Service/StreamTokenInfoService.cs:51 | one more line that counts `n` adds `n` to the total |
| `LineFold.FoldSucceeds` | src/chargeback_eventhub_trigger_function/Service/StreamTokenInfoService.cs:35-52 | in a successful fold every line was counted without an exception |
| `LineFold.FoldAllOk` | src/chargeback_eventhub_trigger_function/Service/StreamTokenInfoService.cs:35-52 | when no line throws, the fold is the sum of the lines' counts |
| `LineFold.CountLines` | src/chargeback_eventhub_trigger_function/Service/StreamTokenInfoService.cs:33-54 | the accumulation loop returns the fold's total wrapped to Int32, or the first line's exception |
| `StreamTokenInfoService.LineLength` | src/chargeback_eventhub_trigger_function/Service/StreamTokenInfoService.cs:58-65 | the first line ends at the first `\r` or `\n`, or at the end of the text |
| `StreamTokenInfoService.NextLineStart` | src/chargeback_eventhub_trigger_function/Service/StreamTokenInfoService.cs:58-65 | `\r\n` is one terminator, a lone `\r` or `\n` another; reading always advances |
| `StreamTokenInfoService.LineLengthIs` | src/chargeback_eventhub_trigger_function/Service/StreamTokenInfoService.cs:58-65 | a terminator-free prefix followed by a terminator or the end is the first line |
| `StreamTokenInfoService.SplitLinesEmpty` | src/chargeback_eventhub_trigger_function/Service/StreamTokenInfoService.cs:58-65 | `ReadLine` until `EndOfStream` yields no line for an empty response and at least one for any other |
| `StreamTokenInfoService.SplitLinesAt` | src/chargeback_eventhub_trigger_function/Service/StreamTokenInfoService.cs:58-65 | one `ReadLine` from a position returns the text up to the terminator and resumes after it |
| `StreamTokenInfoService.ReadLine` | src/chargeback_eventhub_trigger_function/Service/StreamTokenInfoService.cs:63 | one `ReadLineAsync` before the end of the stream returns the next line and moves past its terminator, so the lines still to come are those of the rest |
| `StreamTokenInfoService.ReadChatCompletionChunks` | src/chargeback_eventhub_trigger_function/Service/StreamTokenInfoService.cs:58-65 | the reading loop returns exactly the lines `ReadLine` gives until `EndOfStream` |
| `StreamTokenInfoService.SplitLinesHaveNoTerminators` | src/chargeback_eventhub_trigger_function/Service/StreamTokenInfoService.cs:58-65 | no line returned contains a line terminator |
| `StreamTokenInfoService.SplitLinesCons` | src/chargeback_eventhub_trigger_function/Service/StreamTokenInfoService.cs:58-65 | a line followed by `\n`, `\r\n` or a lone `\r` is returned as it is and reading goes on after the terminator |
| `StreamTokenInfoService.SplitLinesLast` | src/chargeback_eventhub_trigger_function/Service/StreamTokenInfoService.cs:58-65 | a last line without a terminator is still returned |
| `StreamTokenInfoService.SplitJoinRoundTrip` | src/chargeback_eventhub_trigger_function/Service/StreamTokenInfoService.cs:58-65 | splitting undoes joining with `\n`: a final terminator gives no extra empty line, inner empty lines are kept, an empty response has no lines |
| `StreamTokenInfoService.GetTokenizerCount` | src/chargeback_eventhub_trigger_function/Service/StreamTokenInfoService.cs:69-76 | null and the empty string count 0 without the encoder, any other string counts the encoder's result, never negative |
| `StreamTokenInfoService.MessageTokens` | src/chargeback_eventhub_trigger_function/Service/StreamTokenInfoService.cs:24 | a message counts its `content`: 0 when absent or null, the count of its text, or of an integer's or boolean's rendering; an array or object `content`, or a message that is not an object, throws |
| `StreamTokenInfoService.CheckedSum` | src/chargeback_eventhub_trigger_function/Service/StreamTokenInfoService.cs:24 | LINQ `Sum` over no messages is the starting value, and a successful sum is never below it |
| `StreamTokenInfoService.CheckedSumIsTotal` | src/chargeback_eventhub_trigger_function/Service/StreamTokenInfoService.cs:24 | the checked `Sum` succeeds exactly when every message can be counted and the exact total fits in Int32, and then equals that total |
| `StreamTokenInfoService.CalculatePromptTokens` | src/chargeback_eventhub_trigger_function/Service/StreamTokenInfoService.cs:13-28 | an unparseable or null request makes the prompt count fail with the parser's exception |
| `StreamTokenInfoService.PromptOfTextCompletion` | src/chargeback_eventhub_trigger_function/Service/StreamTokenInfoService.cs:19-20 | text completion: the count of the `prompt` string, or of an integer's or boolean's rendering; 0 when it is absent or null; a failure for an array or object |
| `StreamTokenInfoService.PromptOfChat` | src/chargeback_eventhub_trigger_function/Service/StreamTokenInfoService.cs:15-24 | chat: 0 when `messages` is absent or has no values; for an array, the prompt count succeeds exactly when every message can be counted and the exact total fits in Int32, and is then that total; a non-empty `messages` object throws, because its children are properties |
| `StreamTokenInfoService.FrameData` | src/chargeback_eventhub_trigger_function/Service/StreamTokenInfoService.cs:38 | the payload is never longer than the line and has no white space at either end |
| `StreamTokenInfoService.SkippedLine` | src/chargeback_eventhub_trigger_function/Service/StreamTokenInfoService.cs:39 | an empty raw line is skipped, and a skipped line that is not empty is at least as long as `[DONE]` |
| `StreamTokenInfoService.ChoiceText` | src/chargeback_eventhub_trigger_function/Service/StreamTokenInfoService.cs:44-48 | `choices` that is not an array, or a first choice that is not an object, throws; text completion reads `choices[0].text`; chat reads `choices[0].delta.content`, null without `delta` and a failure when `delta` is not an object |
| `StreamTokenInfoService.FrameTokens` | src/chargeback_eventhub_trigger_function/Service/StreamTokenInfoService.cs:37-51 | a skipped line counts 0, a line whose payload does not parse as an object throws JsonReader |
| `StreamTokenInfoService.EmptyPayloadFails` | src/chargeback_eventhub_trigger_function/Service/StreamTokenInfoService.cs:39-42 | a non-empty raw line whose payload is empty is not skipped and fails in the parser |
| `StreamTokenInfoService.WhiteSpaceLineFails` | src/chargeback_eventhub_trigger_function/Service/StreamTokenInfoService.cs:39-42 | a white-space-only line fails |
| `StreamTokenInfoService.BareDataLineFails` | src/chargeback_eventhub_trigger_function/Service/StreamTokenInfoService.cs:39-42 | a bare `data:` line fails |
| `StreamTokenInfoService.FrameDataOfDataLine` | src/chargeback_eventhub_trigger_function/Service/StreamTokenInfoService.cs:38 | the payload of `data: ` + p is the trimmed p, when p holds no `data:` |
| `StreamTokenInfoService.DoneHasNoDataPrefix` | src/chargeback_eventhub_trigger_function/Service/StreamTokenInfoService.cs:38-39 | `[DONE]` contains no `data:` |
| `StreamTokenInfoService.DoneTrimmed` | src/chargeback_eventhub_trigger_function/Service/StreamTokenInfoService.cs:38-39 | `[DONE]` is unchanged by trimming |
| `StreamTokenInfoService.DoneLineSkipped` | src/chargeback_eventhub_trigger_function/Service/StreamTokenInfoService.cs:37-40 | `data: [DONE]` is one line and it is skipped |
| `StreamTokenInfoService.NoChoicesZero` | src/chargeback_eventhub_trigger_function/Service/StreamTokenInfoService.cs:44 | a parsed frame without `choices`, or with an empty one, counts 0 |
| `StreamTokenInfoService.TextCompletionFrame` | src/chargeback_eventhub_trigger_function/Service/StreamTokenInfoService.cs:46-51 | text completion counts `choices[0].text`: 0 when absent, its count when a string, a failure when the first choice is not an object |
| `StreamTokenInfoService.ChatFrame` | src/chargeback_eventhub_trigger_function/Service/StreamTokenInfoService.cs:46-51 | chat counts `choices[0].delta.content`: 0 when `delta` or `content` is absent, its count when a string, a failure when `delta` is not an object |
| `StreamTokenInfoService.CompletionFailsAt` | src/chargeback_eventhub_trigger_function/Service/StreamTokenInfoService.cs:42 | a line that throws makes the whole completion count throw the same exception |
| `StreamTokenInfoService.CompletionAdditive` | src/chargeback_eventhub_trigger_function/Service/StreamTokenInfoService.cs:33-54 | the completion fold is additive over concatenation of line lists |
| `StreamTokenInfoService.ContentLine` | src/chargeback_eventhub_trigger_function/Service/StreamTokenInfoService.cs:46-51 | a `data: ` line carrying a `delta.content` frame counts that text |
| `StreamTokenInfoService.SkippedResponseZero` | src/chargeback_eventhub_trigger_function/Service/StreamTokenInfoService.cs:37-40 | any response whose every line, as `ReadLine` splits it, is skipped counts 0 and does not fail |
| `StreamTokenInfoService.SumZero` | src/chargeback_eventhub_trigger_function/Service/StreamTokenInfoService.cs:33 | a sum of zeros is 0 |
| `StreamTokenInfoService.DoneResponseZero` | src/chargeback_eventhub_trigger_function/Service/StreamTokenInfoService.cs:37-40 | the response `data: [DONE]\n\n` counts 0, whatever the collaborators |
| `StreamTokenInfoService.ChatStreamLines` | src/chargeback_eventhub_trigger_function/Service/StreamTokenInfoService.cs:37-51 | what each line of a two-frame chat stream counts |
| `StreamTokenInfoService.ChatStreamSplit` | src/chargeback_eventhub_trigger_function/Service/StreamTokenInfoService.cs:58-65 | the two-frame chat stream splits into its six lines |
| `StreamTokenInfoService.SumOfTwoFrames` | src/chargeback_eventhub_trigger_function/Service/StreamTokenInfoService.cs:51 | the six line counts add up to the two frames' counts |
| `StreamTokenInfoService.ChatStreamSum` | src/chargeback_eventhub_trigger_function/Service/StreamTokenInfoService.cs:33-54 | two content frames and a skipped line count the sum of the two texts, wrapped to Int32 |
| `StreamTokenInfoService.HelloWorldStream` | src/chargeback_eventhub_trigger_function/Service/StreamTokenInfoService.cs:33-54 | the lines `Hello`, ` world`, `[DONE]` count count("Hello") + count(" world") narrowed to Int32 as the unchecked `+=` does, so exactly that sum whenever it fits |
| `StreamTokenInfoService.CompletionTokens` | src/chargeback_eventhub_trigger_function/Service/StreamTokenInfoService.cs:30-55 | a null response throws ArgumentNull and an empty response counts 0 |
| `StreamTokenInfoService.CalculateCompletionTokens` | src/chargeback_eventhub_trigger_function/Service/StreamTokenInfoService.cs:30-55 | reading the lines and running the accumulation loop gives the wrapped fold; a null response throws ArgumentNull |
| `NonStreamTokenService.UsageField` | src/chargeback_eventhub_trigger_function/Service/NonStreamTokenService.cs:11-12 | a parse failure propagates; a missing `usage` or missing field throws ArgumentNull; a non-object `usage` throws; when `usage` is an object holding the field, the result is exactly `(int)` of its value, failure included; any success comes from that case |
| `NonStreamTokenService.CalculatePromptTokens` | src/chargeback_eventhub_trigger_function/Service/NonStreamTokenService.cs:9-13 | a null response throws ArgumentNull; when the response parses to an object whose `usage` object has `prompt_tokens`, the result is exactly `(int)` of that value, failure included; any success comes from that case |
| `NonStreamTokenService.CalculateCompletionTokens` | src/chargeback_eventhub_trigger_function/Service/NonStreamTokenService.cs:15-20 | a null response throws ArgumentNull; when the response parses to an object whose `usage` object has `completion_tokens`, the result is exactly `(int)` of that value, failure included; any success comes from that case |
| `NonStreamTokenService.UsageFieldOfInteger` | src/chargeback_eventhub_trigger_function/Service/NonStreamTokenService.cs:11-19 | an Int32 integer at `usage.<field>` is the result, a larger one overflows |
| `NonStreamTokenService.UsageExample` | src/chargeback_eventhub_trigger_function/Service/NonStreamTokenService.cs:9-20 | `{"usage":{"prompt_tokens":5,"completion_tokens":3}}` gives 5 and 3 |
| `NonStreamTokenService.OnlyResponseMatters` | src/chargeback_eventhub_trigger_function/Service/NonStreamTokenService.cs:9-20 | both counts depend only on the response and the JSON reader, not on the request or the tokenizer |
| `TokenServiceFactory.GetStreamService` | src/chargeback_eventhub_trigger_function/Service/TokenServiceFactory.cs:14-17 | true selects the streaming calculator and false the other, both directions; total with no error case |
| `TokenServiceFactory.EachServiceChosen` | src/chargeback_eventhub_trigger_function/Service/TokenServiceFactory.cs:14-17 | each calculator is chosen by exactly one flag value |
| `TokenServiceFactory.CalculatePromptTokens` | src/chargeback_eventhub_trigger_function/Service/ITokenCalculationService.cs:9 | a call through the interface is the chosen implementation's prompt count |
| `TokenServiceFactory.CompletionTokens` | src/chargeback_eventhub_trigger_function/Service/ITokenCalculationService.cs:11 | the chosen implementation's completion count, and for either one a null response throws ArgumentNull |
| `TokenServiceFactory.CalculateCompletionTokens` | src/chargeback_eventhub_trigger_function/Service/ITokenCalculationService.cs:11 | a call through the interface runs the chosen implementation's completion count |
| `TokenInfo.TokenInfo.TotalTokens` | src/chargeback_eventhub_trigger_function/Model/TokenInfo.cs:19 | the sum of the two counts when it fits in Int32, and congruent to it modulo 2^32 always |
| `TokenInfo.TokenInfo.ToDictionary` | src/chargeback_eventhub_trigger_function/Model/TokenInfo.cs:22-36 | exactly the eight keys; the id, the operation's member name, AppKey and Timestamp verbatim, the flag and the three counts in their .NET renderings |
| `TokenInfo.DictionaryKeysDistinct` | src/chargeback_eventhub_trigger_function/Model/TokenInfo.cs:24-34 | the eight keys are distinct |
| `TokenInfo.DistinctCard` | src/chargeback_eventhub_trigger_function/Model/TokenInfo.cs:24-34 | a list without repeats has as many distinct elements as entries |
| `TokenInfo.ParseInt32EntryOfDecimal` | src/chargeback_eventhub_trigger_function/Model/TokenInfo.cs:31-33 | a count entry reads back to the count |
| `TokenInfo.DictionaryRoundTrip` | src/chargeback_eventhub_trigger_function/Model/TokenInfo.cs:22-36 | reading the flattened record back gives the record: nothing is lost |
| `TokenInfo.TotalEntryIsSum` | src/chargeback_eventhub_trigger_function/Model/TokenInfo.cs:31-33 | the `TotalTokens` entry renders the (wrapped) sum of the two count entries |
| `TokenInfo.EntryNames` | src/chargeback_eventhub_trigger_function/Model/TokenInfo.cs:27-30 | `Stream` is `True` or `False`, `ApiOperation` is `ChatCompletion` or `TextCompletion` |
| `ChargebackEventHubTrigger.StreamFlag` | src/chargeback_eventhub_trigger_function/ChargebackEventHubTrigger.cs:50-54 | false without a `stream` property; otherwise exactly `(bool)` of its value: the boolean itself, an integer's non-zero-ness, a parsed `True`/`False` string, or that conversion's failure |
| `ChargebackEventHubTrigger.ProcessEvent` | src/chargeback_eventhub_trigger_function/ChargebackEventHubTrigger.cs:41-66 | a deserialization failure fails; a null event, response or operation is skipped and nothing else is; an emitted record copies the operation, AppKey, Timestamp and stream flag, and its counts come from the calculator the flag selects |
| `ChargebackEventHubTrigger.FailureSources` | src/chargeback_eventhub_trigger_function/ChargebackEventHubTrigger.cs:49-77 | after the skip, an unconvertible flag or a calculator error is exactly one failure with that exception, and only success emits |
| `ChargebackEventHubTrigger.Outcomes` | src/chargeback_eventhub_trigger_function/ChargebackEventHubTrigger.cs:37-78 | every event is processed, in order |
| `ChargebackEventHubTrigger.Partition` | src/chargeback_eventhub_trigger_function/ChargebackEventHubTrigger.cs:37-78 | emitted + failed + skipped = batch length |
| `ChargebackEventHubTrigger.SplitBatch` | src/chargeback_eventhub_trigger_function/ChargebackEventHubTrigger.cs:37-78 | records, failures and skips of a concatenated batch are those of its parts, in input order |
| `ChargebackEventHubTrigger.OutcomesAppend` | src/chargeback_eventhub_trigger_function/ChargebackEventHubTrigger.cs:37-78 | the outcomes of a split batch are the outcomes of its parts |
| `ChargebackEventHubTrigger.FailureDoesNotStopBatch` | src/chargeback_eventhub_trigger_function/ChargebackEventHubTrigger.cs:72-77 | a failing event adds its one exception and the events after it emit what they would on their own |
| `ChargebackEventHubTrigger.OutcomePolicy` | src/chargeback_eventhub_trigger_function/ChargebackEventHubTrigger.cs:82-88 | 0 exceptions complete normally, exactly 1 is rethrown as it is, 2 or more are aggregated in order (each direction) |
| `ChargebackEventHubTrigger.TrackedRecordsAt` | src/chargeback_eventhub_trigger_function/ChargebackEventHubTrigger.cs:70 | the records tracked as events named `Azure OpenAI Tokens`, one per record, in order |
| `ChargebackEventHubTrigger.OutcomesStep` | src/chargeback_eventhub_trigger_function/ChargebackEventHubTrigger.cs:37-78 | one more event appends its record or its exception to those of the events before it |
| `ChargebackEventHubTrigger.TrackedSnoc` | src/chargeback_eventhub_trigger_function/ChargebackEventHubTrigger.cs:70 | tracking one more record appends one event |
| `ChargebackEventHubTrigger.TelemetryClient.constructor` | src/chargeback_eventhub_trigger_function/ChargebackEventHubTrigger.cs:20 | a new client has tracked nothing |
| `ChargebackEventHubTrigger.TelemetryClient.TrackEvent` | src/chargeback_eventhub_trigger_function/ChargebackEventHubTrigger.cs:70 | appends one event and changes nothing else |
| `ChargebackEventHubTrigger.ChargebackEventHubTrigger.constructor` | src/chargeback_eventhub_trigger_function/ChargebackEventHubTrigger.cs:23-29 | keeps the calculators' collaborators and the client |
| `ChargebackEventHubTrigger.ChargebackEventHubTrigger.ComputeEvent` | src/chargeback_eventhub_trigger_function/ChargebackEventHubTrigger.cs:39-71 | the body of the `try` computes exactly `ProcessEvent` |
| `ChargebackEventHubTrigger.ChargebackEventHubTrigger.Run` | src/chargeback_eventhub_trigger_function/ChargebackEventHubTrigger.cs:32-91 | the client gains exactly the emitted records of the batch, in order, and the run ends as the outcome policy says for the exceptions collected |

## Left out

- `Program.cs`, the host builder and dependency-injection wiring. The factory's service provider is the two-variant `TokenCalculationService`.
- Tiktoken's `cl100k_base` encoding. It is the parameter `count`, a function into the non-negative Int32 values.
- Newtonsoft's parser, `JsonConvert.DeserializeObject` with its case-insensitive property matching, and the indented JSON writer. These are the parameters `parse`, `deserialize` and `format`; the conversions applied to parsed tokens are modelled. The `[JsonConverter(typeof(StringEnumConverter))]` on `ApiOperation` is System.Text.Json's attribute, which `JsonConvert` does not read; Newtonsoft's own enum reading accepts the member names.
- Undefined numeric values of `OpenAiOperationEnum`. Newtonsoft reads an integer `apiOperation` such as `2` as the undefined value `(OpenAiOperationEnum)2`; the source does not skip that event, counts it on the chat path and renders its `ApiOperation` as `2`. `OpenAiOperation` has only the two members, so `deserialize` cannot return such an event.
- Floating-point JSON numbers, dates and the other JSON token types Newtonsoft distinguishes. `Json` has null, booleans, integers, strings, arrays and objects.
- Text.EqualsIgnoreCase: folds the case of ASCII letters only. The ordinal case-insensitive comparison of `Boolean.Parse` upper-cases by Unicode's simple mapping, under which a non-ASCII letter such as U+017F (long s) may also match a letter of `True`/`False`.
- Text.IntToDecimal: always writes `-` for a negative value, as the invariant culture does. `Int32.ToString()` in `ToDictionary` and `JValue.ToString()` use the current culture's negative sign, which the model fixes to `-`; the `(string)` and `(int)` conversions do use the invariant culture.
- Json.TokenText: renders a negative integer with `-`, where `JValue.ToString()` uses the current culture's negative sign.
- TokenInfo.TokenInfo.ToDictionary: renders negative counts with `-`, where `ToString()` uses the current culture's negative sign. Counts from the tokenizer are never negative; only a negative `usage` value or a wrapped total shows the difference.
- Property order and duplicate keys of JSON objects. `JObject` is a map, so the `format` parameter cannot depend on property order, although `ToString()` of an array or object `text`/`content` token does.
- UTF-8 encoding of the response into the `MemoryStream` and back, including the byte-order mark `StreamReader` would drop. The response is read as the same characters.
- `async`/`await` and `IAsyncEnumerable`. The line reading and the fold are synchronous.
- `ILogger` calls and the `JsonConvert.SerializeObject` inside the log message. They add nothing to the outcome.
- The Event Hub trigger binding. `Run` takes the batch as a sequence of strings.
- `Guid.NewGuid()`. `Run` takes `newGuid`, which gives the id for the k-th record emitted. Ids are not claimed to be unique or stable.
- .NET exception objects. They are the `Error` kinds of `Results`, and `AggregateException` is `RunOutcome.Aggregate`.
- StreamTokenInfoService.CalculateCompletionTokens: the per-line body of the source's loop is the function `FrameTokens`, called as the loop's step, rather than statements written inline in the loop.
- StreamTokenInfoService.CompletionTokens: its own contract states only the null and the empty response. What each line adds is stated by `FrameTokens`, `CompletionFailsAt`, `CompletionAdditive`, `SkippedResponseZero` and `ChatStreamSum`.
