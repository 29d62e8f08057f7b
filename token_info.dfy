/** The usage record the engine emits for one call, and its flattening into the string
    properties of a telemetry event. */
module TokenInfo {
  import opened Results
  import opened Text
  import opened Json
  import opened OpenAiApiEvent
  import Int32

  /** The eight property names of the flattened record. */
  const DictionaryKeys: set<string> :=
    {"TokenInfoId", "ApiOperation", "AppKey", "Timestamp", "Stream", "PromptTokens", "CompletionTokens", "TotalTokens"}

  /** A `TokenInfo`. `TokenInfoId` is not a field: the source draws a fresh GUID on every
      read, so the flattening takes the id it is to use. */
  datatype TokenInfo = TokenInfo(
    apiOperation: OpenAiOperation,
    appKey: Option<string>,
    timestamp: Option<string>,
    stream: bool,
    promptTokens: Int32.int32,
    completionTokens: Int32.int32)
  {
    /** `TotalTokens`: the sum of the two counts as an unchecked Int32 addition, so it is the
        exact sum whenever that fits and otherwise agrees with it modulo 2^32. */
    function TotalTokens(): (total: Int32.int32)
      ensures Int32.InRange(promptTokens + completionTokens) ==> total == promptTokens + completionTokens
      ensures (promptTokens + completionTokens - total) % Int32.MODULUS == 0
    {
      Int32.Wrap(promptTokens + completionTokens)
    }

    /** `ToDictionary`: the record under exactly the eight property names; the counts and the
        flag in their .NET renderings, the operation by its member name, and `AppKey` and
        `Timestamp` as they are (possibly null). */
    function ToDictionary(tokenInfoId: string): (d: map<string, Option<string>>)
      ensures d.Keys == DictionaryKeys
      ensures d["TokenInfoId"] == Some(tokenInfoId)
      ensures d["AppKey"] == appKey && d["Timestamp"] == timestamp
      ensures d["ApiOperation"] == Some(OperationName(apiOperation))
      ensures d["Stream"] == Some(BoolToString(stream))
      ensures d["PromptTokens"] == Some(IntToDecimal(promptTokens))
      ensures d["CompletionTokens"] == Some(IntToDecimal(completionTokens))
      ensures d["TotalTokens"] == Some(IntToDecimal(TotalTokens()))
    {
      map[
        "TokenInfoId" := Some(tokenInfoId),
        "ApiOperation" := Some(OperationName(apiOperation)),
        "AppKey" := appKey,
        "Timestamp" := timestamp,
        "Stream" := Some(BoolToString(stream)),
        "PromptTokens" := Some(IntToDecimal(promptTokens)),
        "CompletionTokens" := Some(IntToDecimal(completionTokens)),
        "TotalTokens" := Some(IntToDecimal(TotalTokens()))]
    }
  }

  /** The eight property names are distinct, so no entry of the initializer replaces another. */
  lemma DictionaryKeysDistinct()
    ensures |DictionaryKeys| == 8
  {
    var keys := ["TokenInfoId", "ApiOperation", "AppKey", "Timestamp", "Stream", "PromptTokens", "CompletionTokens", "TotalTokens"];
    assert forall i, j :: 0 <= i < j < |keys| ==> keys[i] != keys[j] by {
      forall i, j | 0 <= i < j < |keys|
        ensures keys[i] != keys[j]
      {
        assert |keys[i]| != |keys[j]| || keys[i][0] != keys[j][0] || keys[i][2] != keys[j][2];
      }
    }
    DistinctCard(keys);
    assert DictionaryKeys == set k | k in keys;
  }

  /** A sequence without repeats has as many distinct elements as it has elements. */
  lemma {:induction false} DistinctCard<T>(xs: seq<T>)
    requires forall i, j :: 0 <= i < j < |xs| ==> xs[i] != xs[j]
    ensures |set x | x in xs| == |xs|
  {
    if xs != [] {
      DistinctCard(xs[1..]);
      var rest := set x | x in xs[1..];
      assert (set x | x in xs) == rest + {xs[0]};
      assert xs[0] !in rest;
    }
  }

  /** `Boolean.ToString()` read back. */
  function ParseBoolName(s: string): Option<bool> {
    if s == "True" then Some(true) else if s == "False" then Some(false) else None
  }

  /** An Int32 entry read back. */
  function ParseInt32Entry(entry: Option<string>): Option<Int32.int32> {
    match entry
    case None => None
    case Some(s) =>
      (match ParseInteger(s)
       case Some(n) => if Int32.InRange(n) then Some(n) else None
       case None => None)
  }

  lemma ParseInt32EntryOfDecimal(n: Int32.int32)
    ensures ParseInt32Entry(Some(IntToDecimal(n))) == Some(n)
  {
    IntToDecimalRoundTrip(n);
  }

  /** Reads a flattened record back: the reference the flattening is checked against. */
  function FromDictionary(d: map<string, Option<string>>): Option<TokenInfo> {
    if !(DictionaryKeys <= d.Keys) then None
    else if d["ApiOperation"].None? || d["Stream"].None? then None
    else
      match (ParseOperationName(d["ApiOperation"].value), ParseBoolName(d["Stream"].value),
             ParseInt32Entry(d["PromptTokens"]), ParseInt32Entry(d["CompletionTokens"]))
      case (Some(op), Some(stream), Some(prompt), Some(completion)) =>
        Some(TokenInfo(op, d["AppKey"], d["Timestamp"], stream, prompt, completion))
      case _ => None
  }

  /** The flattening loses nothing of the record: reading it back gives the record. */
  lemma DictionaryRoundTrip(info: TokenInfo, tokenInfoId: string)
    ensures FromDictionary(info.ToDictionary(tokenInfoId)) == Some(info)
  {
    var d := info.ToDictionary(tokenInfoId);
    EntryReadsBack(d, "PromptTokens", info.promptTokens);
    EntryReadsBack(d, "CompletionTokens", info.completionTokens);
    OperationNameRoundTrip(info.apiOperation);
    assert ParseBoolName(BoolToString(info.stream)) == Some(info.stream);
  }

  /** The `TotalTokens` entry spells the sum of the two count entries, wrapped to Int32. */
  lemma TotalEntryIsSum(info: TokenInfo, tokenInfoId: string)
    ensures var d := info.ToDictionary(tokenInfoId);
      ParseInt32Entry(d["PromptTokens"]).Some? && ParseInt32Entry(d["CompletionTokens"]).Some?
      && ParseInt32Entry(d["TotalTokens"])
         == Some(Int32.Wrap(ParseInt32Entry(d["PromptTokens"]).value + ParseInt32Entry(d["CompletionTokens"]).value))
  {
    var d := info.ToDictionary(tokenInfoId);
    EntryReadsBack(d, "PromptTokens", info.promptTokens);
    EntryReadsBack(d, "CompletionTokens", info.completionTokens);
    EntryReadsBack(d, "TotalTokens", info.TotalTokens());
  }

  /** An entry holding the decimal text of an Int32 reads back as that Int32. */
  lemma EntryReadsBack(d: map<string, Option<string>>, key: string, n: Int32.int32)
    requires key in d && d[key] == Some(IntToDecimal(n))
    ensures ParseInt32Entry(d[key]) == Some(n)
  {
    ParseInt32EntryOfDecimal(n);
  }

  /** The `Stream` entry is "True" or "False", and the `ApiOperation` entry is a member name. */
  lemma EntryNames(info: TokenInfo, tokenInfoId: string)
    ensures var d := info.ToDictionary(tokenInfoId);
      (d["Stream"] == Some("True") || d["Stream"] == Some("False"))
      && (d["ApiOperation"] == Some("ChatCompletion") || d["ApiOperation"] == Some("TextCompletion"))
  {
  }
}
