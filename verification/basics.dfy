/** Values shared by every script of the model: optional JSON fields, the
    errors that abort a run, and the truncation that Python writes as `s[:n]`. */
module Basics {

  /** A field of a decoded JSON object or spreadsheet row that may be absent. */
  datatype Option<+T> = None | Some(value: T) {
    /** Python's `d.get(key, default)`. */
    function GetOr(default: T): T {
      if Some? then value else default
    }
  }

  /** The exceptions the scripts raise and report as `{"error": ...}`. */
  datatype Error =
    | LengthMismatch(queryLength: nat, genreLength: nat)  // cosine_similarity's ValueError
    | MissingKey(key: string)                             // KeyError on chunk_data['embedding']
    | MalformedJson                                       // json.loads failed, or not an object

  datatype Result<+T> = Ok(value: T) | Err(error: Error)

  function Min(a: int, b: int): int {
    if a <= b then a else b
  }

  /** Python's slice `s[:n]` for a non-negative `n`. */
  function Take<T>(s: seq<T>, n: nat): seq<T> {
    s[..Min(n, |s|)]
  }
}
