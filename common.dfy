/** Small shared vocabulary: optional values (Go's nil) and byte strings. */
module Common {

  /** A value that may be absent; `None` stands for Go's `nil`. */
  datatype Option<+T> = None | Some(value: T)

  /** Go's `[]byte`: a sequence of octets. */
  type Bytes = seq<bv8>
}
