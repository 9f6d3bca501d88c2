/** Value types shared by every part of the model. */
module Common {

  /** Swift's `Optional`. */
  datatype Option<+T> = None | Some(value: T) {
    /** `x ?? default` */
    function GetOr(default: T): T {
      if Some? then value else default
    }
  }

  /** A value or the error a Swift `throws` function would throw. */
  datatype Result<+R, +E> = Success(value: R) | Failure(error: E)

  newtype byte = x: int | 0 <= x < 256

  /** Foundation's `Data`. */
  type Bytes = seq<byte>

  /** Foundation's `Date`: an instant, only ever compared and formatted. */
  datatype Date = Date(instant: int)

  /** Foundation's `UUID`, seen through its `uuidString`. */
  datatype Uuid = Uuid(uuidString: string)

  /** `a` is `b` with some elements left out, the rest kept in order: what `filter` returns. */
  predicate IsSubsequence<T(==)>(a: seq<T>, b: seq<T>)
    decreases |b|
  {
    a == [] || (b != [] && ((a[0] == b[0] && IsSubsequence(a[1..], b[1..])) || IsSubsequence(a, b[1..])))
  }

  /** Leaving nothing out is a subsequence too. */
  lemma {:induction false} SubsequenceOfItself<T>(a: seq<T>)
    ensures IsSubsequence(a, a)
    decreases |a|
  {
    if a != [] {
      SubsequenceOfItself(a[1..]);
    }
  }
}
