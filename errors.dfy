/**
 * Go error values as the service, the handler and the tests observe them.
 *
 * A Go error is either one of the package-level variables of the service
 * package (compared by identity), a value made on the spot by `errors.New` or
 * by `fmt.Errorf` without `%w`, or a wrapper made by `fmt.Errorf("...: %w", e)`.
 */
module Errors {

  /** The three error variables the service package declares. */
  datatype Sentinel = InvalidDate | ImageNotFound | ImagesNotFound

  datatype Error =
    | Declared(sentinel: Sentinel)          // ErrInvalidDate, ErrImageNotFound, ErrImagesNotFound
    | New(text: string)                     // a fresh value: errors.New(text), fmt.Errorf(text)
    | Wrapped(prefix: string, cause: Error) // fmt.Errorf(prefix + ": %w", cause)

  /** A Go `(value, error)` pair in which exactly one half is meaningful. */
  datatype Result<+T> = Success(value: T) | Failure(error: Error)

  const ErrInvalidDate: Error := Declared(InvalidDate)
  const ErrImageNotFound: Error := Declared(ImageNotFound)
  const ErrImagesNotFound: Error := Declared(ImagesNotFound)

  function SentinelText(s: Sentinel): string {
    match s
    case InvalidDate => "invalid date format provided. use YYYY-MM-DD"
    case ImageNotFound => "image not found"
    case ImagesNotFound => "images not found"
  }

  /** What `err.Error()` returns. */
  function Message(e: Error): string {
    match e
    case Declared(s) => SentinelText(s)
    case New(text) => text
    case Wrapped(prefix, cause) => prefix + ": " + Message(cause)
  }

  /** `errors.Is(e, target)`: walk the chain of wrapped causes looking for the very same variable. */
  predicate Is(e: Error, target: Sentinel) {
    match e
    case Declared(s) => s == target
    case New(_) => false
    case Wrapped(_, cause) => Is(cause, target)
  }

  /**
   * `reflect.DeepEqual` on two errors, which is what testify's `assert.Equal`
   * uses: two plain error strings are equal when their texts are, a wrapper
   * equals only a wrapper with the same message and a deeply equal cause.
   */
  predicate DeepEqual(a: Error, b: Error) {
    match a
    case Wrapped(_, cause) => b.Wrapped? && Message(a) == Message(b) && DeepEqual(cause, b.cause)
    case _ => !b.Wrapped? && Message(a) == Message(b)
  }
}
