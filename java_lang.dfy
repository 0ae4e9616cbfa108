/** The few pieces of the Java runtime the model needs: a nullable value,
    the exceptions the core can raise, and the outcome of a call that may
    throw. */
module JavaLang {

  /** A Java reference that may be null: None stands for null. */
  datatype Option<+T> = None | Some(value: T)

  /** Exceptions raised by the modelled code. Reject.ifNull raises
      NullPointerException; a read-only map view raises
      UnsupportedOperationException on any update. */
  datatype Exception = NullPointerException | UnsupportedOperationException

  /** The outcome of a Java call: the value it returns, or the exception it throws. */
  datatype Result<+T> = Success(value: T) | Failure(error: Exception)

  /** The value a map holds for a key, as Map.get answers it (null when absent). */
  function Get<K, V>(m: map<K, V>, k: K): Option<V>
  {
    if k in m then Some(m[k]) else None
  }
}
