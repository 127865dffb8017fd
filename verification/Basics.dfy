/** Go's pointers, slices, sized integers and error returns, as values. */
module Basics {

  /** A pointer to a value that nothing writes through: nil or the value. */
  datatype Option<+T> = None | Some(value: T)

  /** A slice: nil, or a (possibly empty) list. Go tells the two apart with `!= nil`. */
  datatype Slice<+T> = NilSlice | Elems(elems: seq<T>) {
    /** What `range` and `len` see. */
    function Items(): seq<T> {
      if NilSlice? then [] else elems
    }
  }

  /** A value or an error, as in Go's `(v, err)`. */
  datatype Result<+T, +E> = Ok(value: T) | Err(error: E) {
    predicate IsFailure() {
      Err?
    }

    function PropagateFailure<U>(): Result<U, E>
      requires Err?
    {
      Err(error)
    }

    function Extract(): T
      requires Ok?
    {
      value
    }
  }

  const MIN_INT32: int := -0x8000_0000
  const MAX_INT32: int := 0x7fff_ffff

  type int32 = x: int | -0x8000_0000 <= x <= 0x7fff_ffff
  type int64 = x: int | -0x8000_0000_0000_0000 <= x <= 0x7fff_ffff_ffff_ffff

  /** The conversion `int32(v)`: it keeps the low 32 bits. */
  function Truncate32(v: int64): int32 {
    (v - MIN_INT32) % 0x1_0000_0000 + MIN_INT32
  }

  /** The conversion is exact on the 32-bit range and nowhere else. */
  lemma TruncateIsExact(v: int64)
    ensures Truncate32(v) == v <==> MIN_INT32 <= v <= MAX_INT32
  {
  }
}
