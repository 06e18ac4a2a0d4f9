/** Bytes, keys, values, records and file states. */
module Types {

  datatype Option<T> = None | Some(value: T)

  newtype Byte = x: int | 0 <= x < 256

  type Bytes = seq<Byte>
  type Key = Bytes
  type Value = Bytes

  /** A blob record. */
  datatype Rec = Rec(key: Key, value: Value)

  /** States of a blob file. */
  datatype FileState = InitState | Normal | PendingLSM | BeingGC | PendingGC | Obsolete | ToMerge
}
