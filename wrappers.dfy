/** Small value types shared by every module of the model. */
module Wrappers {

  /** A Java reference that may be null. */
  datatype Option<+T> = None | Some(value: T)

  /** The outcome of a Java call that either returns a value or throws. */
  datatype Result<+T, +E> = Ok(value: T) | Err(error: E)

  /** One byte of a Java byte[] buffer, as its unsigned value. */
  newtype Byte = x: int | 0 <= x < 256

  /** The exceptions the modelled code throws or lets escape. */
  datatype JavaException =
    | IllegalArgument(message: string)
    | IllegalState(message: string)
    | NumberFormat(input: string)
    | IOFailure(message: string)
    | NullPointer
    | IndexOutOfBounds
    | ArrayIndexOutOfBounds

  /** Sequence concatenation regrouped; the proofs about appended logs use it. */
  lemma AppendAssoc<T>(a: seq<T>, b: seq<T>, c: seq<T>)
    ensures a + b + c == a + (b + c)
  {
  }
}
