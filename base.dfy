/** Small shared definitions: an optional value (a C# reference that may be
    null) and the range of the C# 32-bit `int`. */
module Base {

  datatype Option<+T> = None | Some(value: T)

  const Int32Min: int := -0x8000_0000
  const Int32Max: int := 0x7fff_ffff

  predicate IsInt32(x: int) {
    Int32Min <= x <= Int32Max
  }
}
