/** Shared vocabulary: optional values, results, and the exceptions the
    Python code raises, as values. */
module Base {

  datatype Option<+T> = None | Some(value: T) {
    function GetOr(default: T): T {
      match this
      case Some(v) => v
      case None => default
    }
  }

  datatype Result<+T, +E> = Ok(value: T) | Err(error: E)

  /** The Python exception classes the core raises or lets through. */
  datatype ExcKind =
    | ValueError
    | KeyError
    | RuntimeError
    | TimeoutError
    | ExceptionGroup
    | ApiError      // anything raised by an HTTP or OpenAI client call
    | IOError       // anything raised by a file operation

  /** An exception object: its class and `str(e)`. */
  datatype Exc = Exc(kind: ExcKind, message: string)

  /** Where the code and its evident intent disagree, the model keeps both
      behaviours and says which one it runs. */
  datatype Variant = AsWritten | Corrected

  /** Taking one more element of `b` after `a`. */
  lemma {:induction false} PrefixGrows<T>(a: seq<T>, b: seq<T>, j: nat)
    requires j < |b|
    ensures a + b[..j + 1] == (a + b[..j]) + [b[j]]
  {
    assert b[..j + 1] == b[..j] + [b[j]];
  }

  /** What is left of `b` completes a prefix of it. */
  lemma {:induction false} PrefixRest<T>(a: seq<T>, b: seq<T>, j: nat)
    requires j <= |b|
    ensures (a + b[..j]) + b[j..] == a + b
  {
    assert b[..j] + b[j..] == b;
  }
}
