/** Values shared by the whole bridge: foreign handles, the error kinds of the
    crate, and the outcome of a step that may fail or unwind. */
module Values {

  /** An opaque `emacs_value`: compared only for identity, never dereferenced. */
  type Handle = nat

  /** An opaque function pointer held in a slot of the module environment. */
  type FnPtr = nat

  /** Rust's `usize` on a 64-bit target. */
  type Usize = n: nat | n < 0x1_0000_0000_0000_0000

  datatype Option<+T> = None | Some(value: T)

  /** The three completion codes of `emacs_funcall_exit`, as emacs-module.h numbers them. */
  const RETURN: int := 0
  const SIGNAL: int := 1
  const THROW: int := 2

  /** The error symbols the crate defines in the Lisp world. */
  const WRONG_TYPE_USER_PTR: string := "rust-wrong-type-user-ptr"
  const ERROR: string := "rust-error"
  const PANIC: string := "rust-panic"

  /** A `failure::Error` as the bridge sees it. The first four variants are
      `ErrorKind` (with `CoreFnMissing`, which the table accessor raises);
      `NulError` and `Other` stand for errors of other types. */
  datatype Error =
    | Signal(symbol: Handle, data: Handle)
    | Throw(tag: Handle, value: Handle)
    | WrongTypeUserPtr(expected: string)
    | CoreFnMissing(name: string)
    | NulError
    | Other(message: string)

  /** The prefix of the display text of `WrongTypeUserPtr`. */
  const EXPECTED: string := "expected: "

  /** `format!("{}", error)`. Only the `"expected: "` rendering of
      `WrongTypeUserPtr` is fixed by the crate; the other texts are placeholders. */
  function Display(e: Error): (r: string)
    ensures e.WrongTypeUserPtr? ==>
      |r| >= |EXPECTED| && r[..|EXPECTED|] == EXPECTED && r[|EXPECTED|..] == e.expected
  {
    match e
    case Signal(_, _) => "Non-local signal"
    case Throw(_, _) => "Non-local throw"
    case WrongTypeUserPtr(expected) => EXPECTED + expected
    case CoreFnMissing(name) => name
    case NulError => "nul byte found in provided data"
    case Other(message) => message
  }

  /** Why a step panicked. */
  datatype Fatal =
    | UnexpectedExitStatus(status: int)
    | RequiredFunctionMissing(name: string)
    | FailedToSignal(error: Error)
    | FailedToSignalPanic(payload: string)
    | PrefixLockHeld
    | InitializersLockHeld
    | HandlerPanicked(reason: string)

  /** A best-effort rendering of a panic payload (`{:#?}`); the text is not modelled. */
  function Describe(f: Fatal): string
  {
    match f
    case UnexpectedExitStatus(_) => "Unexpected non local exit status"
    case RequiredFunctionMissing(name) => "Required function " + name + " cannot be found"
    case FailedToSignal(e) => "Failed to signal " + Display(e)
    case FailedToSignalPanic(p) => "Fail to signal panic " + p
    case PrefixLockHeld => "Failed to acquire write lock on module prefix"
    case InitializersLockHeld => "Failed to acquire a read lock on map of initializers"
    case HandlerPanicked(reason) => reason
  }

  /** The outcome of a Rust step: a value, an `Err`, or a panic that is
      unwinding (which no `?` stops). */
  datatype Outcome<+T> = Ok(value: T) | Err(error: Error) | Panicked(cause: Fatal)

  /** Re-types a failed outcome, as `?` and unwinding do. */
  function Propagate<T, U>(o: Outcome<T>): (r: Outcome<U>)
    requires !o.Ok?
    ensures !r.Ok?
    ensures o.Err? <==> r.Err?
    ensures o.Err? ==> r.error == o.error
    ensures o.Panicked? ==> r.cause == o.cause
  {
    match o
    case Err(e) => Err(e)
    case Panicked(f) => Panicked(f)
  }
}
