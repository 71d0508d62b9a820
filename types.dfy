/** Machine types of the Kotlin source that the preferences facade stores. */
module Types {

  /** Kotlin `Int`: a signed 32-bit integer. */
  newtype int32 = x: int | -0x8000_0000 <= x < 0x8000_0000

  /** Kotlin `Long`: a signed 64-bit integer. */
  newtype int64 = x: int | -0x8000_0000_0000_0000 <= x < 0x8000_0000_0000_0000

  /** Kotlin `Float`, kept as its IEEE 754 bit pattern: the facade only stores
      and retrieves it, so no arithmetic is modelled. */
  datatype Float32 = Float32(bits: bv32)

  /** The literal `1f`. */
  const ONE_F: Float32 := Float32(0x3F80_0000)

  /** `java.util.Date`: milliseconds since the epoch. */
  datatype Date = Date(time: int64)
}
