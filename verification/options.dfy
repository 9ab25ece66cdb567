/** The slice of Rust's `Option<T>` that the parse-error accumulator uses. */
module Options {

  /** Rust's `Option<T>`: `None` or `Some(value)`. */
  datatype Option<+T> = None | Some(value: T)

  /** `Option::or`: keeps `o` when it holds a value, otherwise falls back to `alt`. */
  function Or<T>(o: Option<T>, alt: Option<T>): (r: Option<T>)
    ensures o.Some? ==> r == o
    ensures o.None? ==> r == alt
  {
    match o
    case Some(_) => o
    case None => alt
  }
}
