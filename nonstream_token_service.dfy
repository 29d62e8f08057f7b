/** The calculator for non-streamed calls: both counts are read from the `usage` object the
    service puts in its response; neither the request nor the tokenizer is consulted. */
module NonStreamTokenService {
  import opened Results
  import opened Json
  import opened OpenAiApiEvent
  import opened Collaborators
  import Int32

  /** `(int)JObject.Parse(response)["usage"]?[field]`: parse the response, look up `usage`,
      look up `field` in it unless `usage` is absent, and convert what is found to Int32.
      The call fails when the response is null or does not parse as an object, when it has
      no `usage` or `usage` lacks the field (the null-conditional yields null and the `(int)`
      cast of null throws), and when `usage` is not an object (a JSON `null` included, which
      has no children); when it succeeds, the field was there. */
  function UsageField(parse: string -> Option<Json>, response: Option<string>, field: string): (r: Result<Int32.int32>)
    ensures ParseObject(parse, response).Err? ==> r == Err(ParseObject(parse, response).error)
    ensures ParseObject(parse, response).Ok? && "usage" !in ParseObject(parse, response).value ==>
      r == Err(ArgumentNull)
    ensures (ParseObject(parse, response).Ok? && "usage" in ParseObject(parse, response).value
             && !ParseObject(parse, response).value["usage"].JObject?) ==>
      r == Err(ChildAccess)
    ensures (ParseObject(parse, response).Ok? && "usage" in ParseObject(parse, response).value
             && ParseObject(parse, response).value["usage"].JObject?
             && field !in ParseObject(parse, response).value["usage"].props) ==>
      r == Err(ArgumentNull)
    ensures (ParseObject(parse, response).Ok? && "usage" in ParseObject(parse, response).value
             && ParseObject(parse, response).value["usage"].JObject?
             && field in ParseObject(parse, response).value["usage"].props) ==>
      r == ToInt32(Some(ParseObject(parse, response).value["usage"].props[field]))
    ensures r.Ok? ==>
      var parsed := ParseObject(parse, response);
      parsed.Ok? && "usage" in parsed.value && parsed.value["usage"].JObject?
      && field in parsed.value["usage"].props
      && r == ToInt32(Some(parsed.value["usage"].props[field]))
  {
    var responseObject :- ParseObject(parse, response);
    var value :- IndexOpt(Lookup(responseObject, "usage"), field);
    ToInt32(value)
  }

  /** `CalculatePromptTokens`: the integer at `usage.prompt_tokens` of the response. */
  function CalculatePromptTokens(ext: Externals, event: OpenAiApiEvent): (r: Result<Int32.int32>)
    ensures event.response.None? ==> r == Err(ArgumentNull)
    ensures var parsed := ParseObject(ext.parse, event.response);
      parsed.Ok? && "usage" in parsed.value && parsed.value["usage"].JObject?
      && "prompt_tokens" in parsed.value["usage"].props ==>
      r == ToInt32(Some(parsed.value["usage"].props["prompt_tokens"]))
    ensures r.Ok? ==>
      var parsed := ParseObject(ext.parse, event.response);
      parsed.Ok? && "usage" in parsed.value && parsed.value["usage"].JObject?
      && "prompt_tokens" in parsed.value["usage"].props
      && r == ToInt32(Some(parsed.value["usage"].props["prompt_tokens"]))
  {
    UsageField(ext.parse, event.response, "prompt_tokens")
  }

  /** `CalculateCompletionTokens`: the integer at `usage.completion_tokens` of the response. */
  function CalculateCompletionTokens(ext: Externals, event: OpenAiApiEvent): (r: Result<Int32.int32>)
    ensures event.response.None? ==> r == Err(ArgumentNull)
    ensures var parsed := ParseObject(ext.parse, event.response);
      parsed.Ok? && "usage" in parsed.value && parsed.value["usage"].JObject?
      && "completion_tokens" in parsed.value["usage"].props ==>
      r == ToInt32(Some(parsed.value["usage"].props["completion_tokens"]))
    ensures r.Ok? ==>
      var parsed := ParseObject(ext.parse, event.response);
      parsed.Ok? && "usage" in parsed.value && parsed.value["usage"].JObject?
      && "completion_tokens" in parsed.value["usage"].props
      && r == ToInt32(Some(parsed.value["usage"].props["completion_tokens"]))
  {
    UsageField(ext.parse, event.response, "completion_tokens")
  }

  /** The field's value is what the call returns when the response holds a `usage` object
      with an Int32 integer under that field. */
  lemma UsageFieldOfInteger(parse: string -> Option<Json>, response: Option<string>, field: string,
                            responseObject: map<string, Json>, usage: map<string, Json>, n: int)
    requires ParseObject(parse, response) == Ok(responseObject)
    requires "usage" in responseObject && responseObject["usage"] == JObject(usage)
    requires field in usage && usage[field] == JInteger(n)
    ensures Int32.InRange(n) ==> UsageField(parse, response, field) == Ok(n)
    ensures !Int32.InRange(n) ==> UsageField(parse, response, field) == Err(Overflow)
  {
  }

  /** `{"usage":{"prompt_tokens":5,"completion_tokens":3}}` gives 5 prompt and 3 completion tokens. */
  lemma UsageExample(ext: Externals, event: OpenAiApiEvent, text: string)
    requires event.response == Some(text)
    requires ext.parse(text) ==
      Some(JObject(map["usage" := JObject(map["prompt_tokens" := JInteger(5), "completion_tokens" := JInteger(3)])]))
    ensures CalculatePromptTokens(ext, event) == Ok(5)
    ensures CalculateCompletionTokens(ext, event) == Ok(3)
  {
  }

  /** Both counts depend on the response and the JSON reader alone: the other fields of the
      event and the other collaborators (the tokenizer among them) play no part. */
  lemma OnlyResponseMatters(ext1: Externals, ext2: Externals, event1: OpenAiApiEvent, event2: OpenAiApiEvent)
    requires ext1.parse == ext2.parse && event1.response == event2.response
    ensures CalculatePromptTokens(ext1, event1) == CalculatePromptTokens(ext2, event2)
    ensures CalculateCompletionTokens(ext1, event1) == CalculateCompletionTokens(ext2, event2)
  {
  }
}
