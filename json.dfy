/** A JSON token tree in the shape Newtonsoft's `JToken` gives it, with the key lookups,
    null-conditional lookups and explicit conversions the engine applies to it. */
module Json {
  import opened Results
  import opened Text
  import Int32

  const INT64_MIN: int := -0x8000_0000_0000_0000
  const INT64_MAX: int := 0x7FFF_FFFF_FFFF_FFFF

  /** A parsed JSON value. `JNull` is the JSON literal `null`, which Newtonsoft represents by
      a token object, not by a C# null; an absent property is `None` in an `Option<Json>`. */
  datatype Json =
    | JNull
    | JBool(b: bool)
    | JInteger(n: int)
    | JString(s: string)
    | JArray(items: seq<Json>)
    | JObject(props: map<string, Json>)

  /** `JToken.HasValues`: the token is a container with at least one child. */
  predicate HasValues(j: Json)
    ensures HasValues(j) ==> j.JArray? || j.JObject?
    ensures j == JArray([]) || j == JObject(map[]) ==> !HasValues(j)
  {
    (j.JArray? && |j.items| > 0) || (j.JObject? && |j.props| > 0)
  }

  /** The `JObject` indexer `obj[key]`: the property's value, or C# null when it is absent. */
  function Lookup(props: map<string, Json>, key: string): (r: Option<Json>)
    ensures r.Some? <==> key in props
    ensures r.Some? ==> r.value == props[key]
  {
    if key in props then Some(props[key]) else None
  }

  /** `token[key]` on any token: only an object has properties; an array rejects a string key
      and a value token has no children, so both throw. */
  function Index(j: Json, key: string): (r: Result<Option<Json>>)
    ensures r.Ok? <==> j.JObject?
    ensures r.Ok? ==> r.value == Lookup(j.props, key)
    ensures r.Err? ==> r.error == ChildAccess
  {
    match j
    case JObject(props) => Ok(Lookup(props, key))
    case _ => Err(ChildAccess)
  }

  /** `token?[key]`: a C# null token yields null without a lookup. */
  function IndexOpt(t: Option<Json>, key: string): (r: Result<Option<Json>>)
    ensures t.None? ==> r == Ok(None)
    ensures t.Some? ==> r == Index(t.value, key)
  {
    match t
    case None => Ok(None)
    case Some(j) => Index(j, key)
  }

  /** `JObject.Parse(text)`: a null string throws `ArgumentNullException`; text that the
      parser rejects, or that is JSON but not an object, throws `JsonReaderException`. */
  function ParseObject(parse: string -> Option<Json>, text: Option<string>): (r: Result<map<string, Json>>)
    ensures text.None? ==> r == Err(ArgumentNull)
    ensures text.Some? ==> (r.Ok? <==> parse(text.value).Some? && parse(text.value).value.JObject?)
    ensures r.Ok? ==> text.Some? && parse(text.value) == Some(JObject(r.value))
    ensures text.Some? && r.Err? ==> r.error == JsonReader
  {
    match text
    case None => Err(ArgumentNull)
    case Some(s) =>
      match parse(s)
      case Some(JObject(props)) => Ok(props)
      case _ => Err(JsonReader)
  }

  /** `Boolean.ToString()`: `True` or `False`, one for each value. */
  function BoolToString(b: bool): (r: string)
    ensures r == "True" || r == "False"
    ensures b <==> r == "True"
  {
    if b then "True" else "False"
  }

  /** `(string)token`: a C# null or a JSON `null` gives null, a string token gives its
      text, an integer or boolean token its invariant-culture rendering, and an array or
      object throws. */
  function ToStringCast(t: Option<Json>): (r: Result<Option<string>>)
    ensures r.Ok? <==> !(t.Some? && (t.value.JArray? || t.value.JObject?))
    ensures t.None? || t.value.JNull? ==> r == Ok(None)
    ensures t.Some? && t.value.JString? ==> r == Ok(Some(t.value.s))
    ensures t.Some? && t.value.JInteger? ==> r == Ok(Some(IntToDecimal(t.value.n)))
    ensures t.Some? && t.value.JBool? ==> r == Ok(Some(BoolToString(t.value.b)))
    ensures r.Err? ==> r.error == InvalidCast
  {
    match t
    case None => Ok(None)
    case Some(JNull) => Ok(None)
    case Some(JString(s)) => Ok(Some(s))
    case Some(JInteger(n)) => Ok(Some(IntToDecimal(n)))
    case Some(JBool(b)) => Ok(Some(BoolToString(b)))
    case Some(_) => Err(InvalidCast)
  }

  /** `(int)token`: a null token throws `ArgumentNullException`; an integer must fit in Int32;
      a boolean converts to 1 or 0; a string is read by `Int32.Parse` (white space around the
      number, then any `'\0'` characters at the very end, are accepted); every other token
      type, JSON `null` included, throws `ArgumentException`. */
  function ToInt32(t: Option<Json>): (r: Result<Int32.int32>)
    ensures t.None? ==> r == Err(ArgumentNull)
    ensures t.Some? && t.value.JInteger? ==>
      r == if Int32.InRange(t.value.n) then Ok(t.value.n) else Err(Overflow)
    ensures r.Ok? ==> t.Some? && (t.value.JInteger? || t.value.JBool? || t.value.JString?)
  {
    match t
    case None => Err(ArgumentNull)
    case Some(JInteger(n)) => if Int32.InRange(n) then Ok(n) else Err(Overflow)
    case Some(JBool(b)) => Ok(if b then 1 else 0)
    case Some(JString(s)) =>
      (match ParseInteger(StripNumberWhite(DropTrailingNulls(s)))
       case None => Err(Format)
       case Some(n) => if Int32.InRange(n) then Ok(n) else Err(Overflow))
    case Some(_) => Err(InvalidCast)
  }

  /** `(bool)token` on a token that is present: a boolean is itself; an integer is true when
      non-zero (beyond Int64 it is narrowed to Int32 first, which overflows); a string is read
      by `Boolean.Parse`, which compares it, white space and `'\0'` trimmed at both ends, with
      `True` and `False` ignoring case; every other token type, JSON `null` included, throws. */
  function ToBoolean(j: Json): (r: Result<bool>)
    ensures j.JBool? ==> r == Ok(j.b)
    ensures j.JInteger? && INT64_MIN <= j.n <= INT64_MAX ==> r == Ok(j.n != 0)
    ensures r.Ok? ==> j.JBool? || j.JInteger? || j.JString?
  {
    match j
    case JBool(b) => Ok(b)
    case JInteger(n) => if INT64_MIN <= n <= INT64_MAX then Ok(n != 0) else Err(Overflow)
    case JString(s) =>
      var t := TrimWhiteSpaceAndNull(s);
      if EqualsIgnoreCase(t, "True") then Ok(true)
      else if EqualsIgnoreCase(t, "False") then Ok(false)
      else Err(Format)
    case _ => Err(InvalidCast)
  }

  /** `token.ToString()`: a string token gives its raw text, JSON `null` the empty string,
      integers and booleans their .NET rendering, and containers their indented JSON text
      (`format`, which belongs to Newtonsoft's writer). */
  function TokenText(format: Json -> string, j: Json): (r: string)
    ensures j.JString? ==> r == j.s
    ensures j.JNull? ==> r == ""
    ensures j.JInteger? ==> r == IntToDecimal(j.n)
    ensures j.JBool? ==> r == BoolToString(j.b)
    ensures (j.JArray? || j.JObject?) ==> r == format(j)
  {
    match j
    case JString(s) => s
    case JNull => ""
    case JBool(b) => BoolToString(b)
    case JInteger(n) => IntToDecimal(n)
    case _ => format(j)
  }

  /** The decimal text of any Int32 converts back to it through `(int)`. */
  lemma ToInt32OfDecimal(n: Int32.int32)
    ensures ToInt32(Some(JString(IntToDecimal(n)))) == Ok(n)
  {
    IntToDecimalRoundTrip(n);
    DecimalUntouched(n);
  }

  /** `Boolean.ToString()` reads back through `(bool)`. */
  lemma ToBooleanOfString(b: bool)
    ensures ToBoolean(JString(BoolToString(b))) == Ok(b)
  {
    var s := BoolToString(b);
    assert [] + s + [] == s;
    ToBooleanOfText([], s, []);
  }

  /** `(bool)` of a string token: `True` or `False` in any ASCII case, with white space and
      `'\0'` around it, reads as that boolean. */
  lemma ToBooleanOfText(pre: string, t: string, post: string)
    requires forall i :: 0 <= i < |pre| ==> IsWhiteSpaceOrNull(pre[i])
    requires forall i :: 0 <= i < |post| ==> IsWhiteSpaceOrNull(post[i])
    requires EqualsIgnoreCase(t, "True") || EqualsIgnoreCase(t, "False")
    ensures ToBoolean(JString(pre + t + post)) == Ok(EqualsIgnoreCase(t, "True"))
  {
    if EqualsIgnoreCase(t, "True") {
      assert ToLowerAscii(t[0]) == 't' && ToLowerAscii(t[3]) == 'e';
    } else {
      assert ToLowerAscii(t[0]) == 'f' && ToLowerAscii(t[4]) == 'e';
    }
    TrimWhiteSpaceAndNullAround(pre, t, post);
  }

  /** `(int)` of a string token: white space around an optionally signed digit string,
      leading zeros included, reads as that signed value when it fits in Int32 and
      overflows otherwise. */
  lemma ToInt32OfText(pre: string, sign: string, digits: string, post: string)
    requires forall i :: 0 <= i < |pre| ==> IsNumberWhite(pre[i])
    requires forall i :: 0 <= i < |post| ==> IsNumberWhite(post[i])
    requires sign == "" || sign == "+" || sign == "-"
    requires |digits| >= 1 && AllDigits(digits)
    ensures var v := if sign == "-" then 0 - DecimalToNat(digits) else DecimalToNat(digits);
      ToInt32(Some(JString(pre + sign + digits + post))) == if Int32.InRange(v) then Ok(v) else Err(Overflow)
  {
    ParseNumberText(pre, sign, digits, post);
    NumberTextEndsWell(pre, sign, digits, post);
  }

  /** `(int)` of a string token ignores `'\0'` characters appended to it. */
  lemma ToInt32TrailingNulls(s: string, nulls: string)
    requires s == [] || s[|s| - 1] != '\0'
    requires forall i :: 0 <= i < |nulls| ==> nulls[i] == '\0'
    ensures ToInt32(Some(JString(s + nulls))) == ToInt32(Some(JString(s)))
  {
    DropAppendedNulls(s, nulls);
    DropAppendedNulls(s, []);
    assert s + [] == s;
  }
}
