/** Option and Result, with the Python exception kinds the scraper can raise. */
module Wrappers {

  datatype Option<+T> = None | Some(value: T)

  /** The exceptions that end a scrape: a selector that matches nothing
      (NoSuchElementException), an index past the end of a list (IndexError),
      and text that int() rejects (ValueError). */
  datatype Error = NoSuchElement | IndexError | ValueError

  datatype Result<+T> = Ok(value: T) | Err(error: Error) {
    predicate IsFailure() { Err? }

    function PropagateFailure<U>(): Result<U>
      requires Err?
    {
      Err(error)
    }

    function Extract(): T
      requires Ok?
    {
      value
    }
  }
}
