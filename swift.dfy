/** Swift language values that the tutorial code relies on. */
module Swift {

  /** Swift's `Int` on a 64-bit platform. */
  newtype Int64 = x: int | -0x8000_0000_0000_0000 <= x < 0x8000_0000_0000_0000

  /** Swift's `Double`. The modelled code only stores and compares such values, it does no arithmetic. */
  type Double = real

  /** Swift's `Optional<T>`: `nil` or a wrapped value. */
  datatype Option<+T> = None | Some(value: T)

  /** The outcome of a call to a `throws` initializer: the value it builds or the error it throws. */
  datatype Result<+T, +E> = Success(value: T) | Failure(error: E) {

    /** `try?`: a thrown error becomes `nil`, a built value is wrapped. */
    function ToOption(): (o: Option<T>)
      ensures o.Some? <==> Success?
      ensures o.Some? ==> o.value == value
    {
      match this
      case Success(v) => Some(v)
      case Failure(_) => None
    }
  }
}
