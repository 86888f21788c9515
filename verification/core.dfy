/** The shared vocabulary of the client: the header and query mappings of `src/core/mod.rs`,
    the fixed-width integers the configuration uses, and the JSON value type that the
    responses are parsed into. */
module Core {

  /** Rust's `u64` and `u32`: the configuration fields are unsigned and bounded. */
  type U64 = n: int | 0 <= n < 0x1_0000_0000_0000_0000
  type U32 = n: int | 0 <= n < 0x1_0000_0000
  type Byte = n: int | 0 <= n < 0x100

  /** Client headers: header name to header value, keys unique, order irrelevant. */
  type Headers = map<string, string>

  /** The query section of a request: parameter name to value. */
  type Query = map<string, string>

  /** A parsed JSON document (`serde_json::Value`). Numbers are kept as integers. */
  datatype Json =
    | Null
    | Bool(b: bool)
    | Number(n: int)
    | Str(s: string)
    | Array(items: seq<Json>)
    | Object(members: map<string, Json>)
}
