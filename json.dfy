/**
 * `JSON.stringify` and `JSON.parse`, kept abstract: a pair of functions
 * supplied by the caller, and the round-trip law the application relies on.
 */
module Json {
  import opened Wrappers

  /** `parse` yields `None` where `JSON.parse` throws or gives a value of another shape. */
  datatype JsonCodec<!D> = JsonCodec(stringify: D -> string, parse: string -> Option<D>)

  /** Parsing what was stringified gives the value back, and the text is never empty. */
  ghost predicate RoundTrips<D(!new)>(json: JsonCodec<D>) {
    forall d :: json.parse(json.stringify(d)) == Some(d) && json.stringify(d) != ""
  }
}
