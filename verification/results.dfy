/** The failure-carrying shapes the fixtures return: Rust's `Result<T, String>`
    and `Option<T>`. */
module Results {

  /** `Result<T, String>`: every fallible operation of the fixtures reports
      its failure as a human-readable message. */
  datatype Result<+T> = Ok(value: T) | Err(error: string)

  datatype Option<+T> = None | Some(value: T)

  /** Rust's `slice::get`: the element at `i`, or `None` past the end. */
  function Get<T>(xs: seq<T>, i: nat): (r: Option<T>)
    ensures r.Some? <==> i < |xs|
    ensures r.Some? ==> r.value == xs[i]
  {
    if i < |xs| then Some(xs[i]) else None
  }
}
