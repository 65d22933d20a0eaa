/** Small value types shared by every part of the model. */
module Common {

  /** Python's `None` or a value. */
  datatype Option<+T> = None | Some(value: T)

  /** What one outbound HTTP request (requests.post / requests.get) came back with:
      either an exception was raised, or a response with a status code arrived. */
  datatype HttpOutcome = Raised | Responded(status: int)

  /** Writing a key twice keeps only the second value. */
  lemma MapOverwrite<K, V>(m: map<K, V>, k: K, a: V, b: V)
    ensures m[k := a][k := b] == m[k := b]
  {
  }
}
