/** Value types shared by the partition registry, the partition worker and the
    group coordinator of the streams package. */
module Types {

  /** Go's "comma ok" lookups and nil pointers. */
  datatype Option<+T> = None | Some(value: T)

  /** Go's int32, the type of partition ids. */
  newtype int32 = x: int | -0x8000_0000 <= x < 0x8000_0000

  /** Identity of one partition of one topic, used as a map key throughout.
      The field order follows the positional literal `TopicPartition{partition, topic}`. */
  datatype TopicPartition = TopicPartition(partition: int32, topic: string)

  /** What an event handler or interjector reports about one unit of work
      (the Go constants 0, 1, 2 and 3, in that order). */
  datatype ExecutionState = Complete | Incomplete | Fatal | UnknownType

  /** A fetched record: only the offset matters to the core. */
  datatype Record = Record(offset: int, value: string)

  /** Go's integer division, which truncates toward zero (Dafny's `/` is Euclidean). */
  function GoQuotient(a: int, b: int): (q: int)
    requires b > 0
    ensures a >= 0 ==> q * b <= a < q * b + b
    ensures a < 0 ==> q * b - b < a <= q * b
  {
    if a >= 0 then a / b else -((-a) / b)
  }

  function Max(a: int, b: int): int {
    if a >= b then a else b
  }

  function Min(a: int, b: int): int {
    if a <= b then a else b
  }
}
