/**
 * The opaque collaborators the facade carries but never examines: the
 * numeric value recorded, the request context and the label set.
 */
module Values {

  /** A Go `int64`. */
  newtype int64 = x: int | -0x8000_0000_0000_0000 <= x < 0x8000_0000_0000_0000

  /** A Go `float64`, kept as its IEEE-754 bit pattern; no arithmetic is modelled. */
  datatype Float64 = Float64Bits(bits: bv64)

  /**
   * A recorded value of one of the two numeric kinds. The kind is fixed by
   * the constructor used and is never converted by the facade.
   */
  datatype Number = Int64Number(asInt64: int64) | Float64Number(asFloat64: Float64)

  /** A `context.Context`, passed through to the backend unexamined. */
  datatype Context = Context(id: nat)

  /** One `kv.KeyValue` label; its typed value is reduced to a string here. */
  datatype KeyValue = KeyValue(key: string, value: string)

  /** A `[]kv.KeyValue` label list, passed through to the backend unexamined. */
  type Labels = seq<KeyValue>
}
