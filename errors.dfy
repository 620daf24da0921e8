/** The exceptions the catalog raises, and the result types that carry them. */
module Errors {

  /** UnknownField: a criterion names a field the metadata does not have
      (Python's attribute lookup in `Meta.match` fails). IndexOutOfRange: a
      position outside the corpus (Python's list indexing in
      `CorpusBase.__getitem__` fails). */
  datatype Error = UnknownField(field: string) | IndexOutOfRange(index: int)

  /** A value, or the error raised instead of returning one. */
  datatype Result<T> = Ok(value: T) | Err(error: Error)

  /** The outcome of an operation that returns nothing but may raise. */
  datatype Outcome = Pass | Fail(error: Error)
}
