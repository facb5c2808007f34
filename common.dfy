/** Small value types shared by every part of the model. */
module Common {

  /** A value that may be absent: a document field that was never set. */
  datatype Option<+T> = None | Some(value: T)

  /** One octet, as produced by the random-bytes generator. */
  type Byte = b: int | 0 <= b < 256

  /**
   * A document identifier. The store hands out identifiers from a counter,
   * so an identifier is never reused.
   */
  type ObjectId = nat
}
