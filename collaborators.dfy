/** The libraries the engine calls into and whose internals are not modelled: Newtonsoft's
    JSON reader and writer and Tiktoken's `cl100k_base` encoder. */
module Collaborators {
  import opened Results
  import opened Json
  import opened OpenAiApiEvent
  import Int32

  datatype Externals = Externals(
    /** The JSON reader behind `JObject.Parse` / `JToken` loading: `None` when it throws. */
    parse: string -> Option<Json>,
    /** `JsonConvert.DeserializeObject<OpenAiApiEvent>`: an error when it throws, `Ok(None)`
        when it yields null. */
    deserialize: string -> Result<Option<OpenAiApiEvent>>,
    /** The number of tokens Tiktoken's encoder produces for a non-empty string. */
    count: string -> Int32.count32,
    /** The indented JSON text `ToString()` gives for an array or object token. */
    format: Json -> string)

  /** What the engine relies on of the reader: the empty string is not JSON. */
  predicate ValidExternals(ext: Externals) {
    ext.parse("") == None
  }
}
