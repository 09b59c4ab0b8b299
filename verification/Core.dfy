// Vocabulary shared by the whole model: optional values, namespaced object keys and the
// clock. Time is an integer number of nanoseconds since the Unix epoch, the resolution of
// Go's time.Time; `Unix` is the truncation to whole seconds that the caches store.
module Core {
  datatype Option<+T> = None | Some(value: T)

  datatype Result<+T, +E> = Ok(value: T) | Err(error: E)

  datatype Key = Key(ns: string, name: string)

  const SECOND: int := 1_000_000_000

  function Unix(t: int): int {
    t / SECOND
  }

  /** Truncating an instant to seconds moves it back by less than one second. */
  lemma UnixTruncates(t: int)
    ensures t - SECOND < Unix(t) * SECOND <= t
  {
  }
}
