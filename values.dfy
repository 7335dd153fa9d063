/** The scalar value types that constraints carry. */
module Values {

  /** Kotlin's `Int`: a signed 32-bit integer. The builders only store such
      values, so nothing here wraps around. */
  newtype Int32 = x: int | -0x8000_0000 <= x < 0x8000_0000

  /** Kotlin's `Double`. The builders store these values and never compute
      on them, so a real number stands in for the floating-point value. */
  type Double = real

  /** Which camera to use: the one facing the user or the one facing away. */
  datatype FacingMode = User | Environment

  /** Whether the capture subsystem may crop and scale frames to fit. */
  datatype ResizeMode = None | CropAndScale
}
