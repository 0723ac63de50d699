// Value types shared by the whole backend: Rust's Option and Result, the
// fixed-width integers used by the entities and the query strings, and the
// JSON values that serde produces.

module Wrappers {
  /** Rust's `Option<T>`. */
  datatype Option<T> = None | Some(value: T)

  /** Rust's `Result<T, E>`; every handler discards the error value (`Err(_)`). */
  datatype Result<T> = Ok(value: T) | Err
}

module Ints {
  const I32_MIN: int := -0x8000_0000
  const I32_MAX: int := 0x7FFF_FFFF
  const U64_MAX: int := 0xFFFF_FFFF_FFFF_FFFF

  /** Rust `i32`: ids, prices and amounts. A JSON number outside it fails to deserialise. */
  type I32 = x: int | I32_MIN <= x <= I32_MAX

  /** Rust `u64`: `limit`, `offset` and `total` of a page. */
  type U64 = x: int | 0 <= x <= U64_MAX
}

/** The part of `serde_json::Value` the responses use. */
module Json {
  datatype Value =
    | Null
    | Bool(b: bool)
    | Number(n: int)
    | Float(r: real)
    | String(s: string)
    | Array(items: seq<Value>)
    | Object(fields: map<string, Value>)
}
