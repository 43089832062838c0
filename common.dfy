/** Value types shared by the page table, the caches, the memory and the MMU. */
module Common {

  datatype Option<+T> = None | Some(value: T)

  /** The Python exceptions the core can raise. */
  datatype Error = KeyError | ValueError | ZeroDivisionError

  /** A result that either carries a value or the exception that was raised. */
  datatype Result<+T> = Success(value: T) | Failure(error: Error)

  /** The outcome of an operation that returns nothing but may raise. */
  datatype Outcome = Pass | Fail(error: Error)

  type Byte = b: int | 0 <= b < 256

  /** A datum stored at one offset of a block: the memory synthesizes
      `bytes` values, the front end writes `str` values. */
  datatype Datum = Bytes(bytes: seq<Byte>) | Text(text: string)

  /** A cache block: a dictionary from block offset to datum. */
  type Block = map<nat, Datum>

  /** A cache tag. */
  type Tag = nat
}
