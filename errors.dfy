/**
 * Go errors as the core sees them: a text and a sentinel kind that survives
 * wrapping with `%w` and is lost when an error is formatted with `%v`.
 */
module Errors {

  /** The sentinels that callers test with `errors.Is`. */
  datatype Kind =
    | NotFound    // repository.ErrNotFound
    | BadMessage  // validator.ErrBadMessage
    | Other       // any other cause

  datatype Error = Error(kind: Kind, text: string)

  /** `fmt.Errorf("%s: %w", op, e)`: the text gets a prefix, the sentinel is kept. */
  function Wrap(op: string, e: Error): Error
  {
    Error(e.kind, op + ": " + e.text)
  }

  /** `fmt.Errorf("%s: %v", op, e)`: the text gets a prefix, the chain is cut. */
  function Describe(op: string, e: Error): Error
  {
    Error(Other, op + ": " + e.text)
  }
}
