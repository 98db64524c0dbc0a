/** Value types shared by the pipeline registry and the render session. */
module Types {

  /** The C++ `std::optional` / nullable pointer. */
  datatype Option<+T> = None | Some(value: T)

  /** A 32-bit float, kept as its IEEE-754 bit pattern: floats are only copied,
      compared and hashed, never computed with. */
  type Float32 = bv32

  /** Four 32-bit floats, e.g. `blendConstants[4]` or a clear colour. */
  datatype Float4 = Float4(x: Float32, y: Float32, z: Float32, w: Float32)

  /** The 128 bits of a `ClearColorValue` union (`float f[4]`, `int32 i[4]`,
      `uint32 ui[4]`): which member is read depends on the call, the bits do not. */
  datatype ColorBits = ColorBits(x: bv32, y: bv32, z: bv32, w: bv32)

  /** API enumerations are kept as their underlying integer codes. */
  type Format = nat
  type PrimitiveTopology = nat
  type PolygonMode = nat
  type CullMode = nat
  type FrontFace = nat
  type LogicOp = nat
  type BlendFactor = nat
  type BlendOp = nat
  type IndexType = nat

  /** `CullMode::NONE`: the one enumerator whose value steers a branch. */
  const CULL_NONE: CullMode := 0
}
