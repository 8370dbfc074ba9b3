/** Go `error` values as the core creates, wraps, compares and prints them. */
module Errors {
  import opened Wrappers
  import opened Strings

  /** An error value. `Sentinel`s are package-level values compared by identity; the
      `fmt.Errorf` forms differ in whether `errors.Is` can see through them. */
  datatype Error =
    | Sentinel(name: string, goType: string, text: string)
      /** `fmt.Errorf(context + "%w", inner)` */
    | Wrapped(context: string, inner: Error)
      /** `fmt.Errorf(context + "%s", arg)`: same text, but not unwrappable */
    | Formatted(context: string, arg: Error)
      /** `fmt.Errorf(format, arg)` where `format` has no verb for `arg` */
    | ExtraArg(format: string, arg: Error)
      /** an error from code outside this model, known by its dynamic type and text */
    | Opaque(goType: string, text: string)
      /** `resources.ValidationError` (resources/resource.go) */
    | ValidationError(fieldName: string, message: string, reason: Option<Error>)
      /** `resources.ParsingError` (resources/resource.go) */
    | ParsingError(fieldName: string, reason: Option<Error>, message: string)
      /** `*echo.HTTPError` without an internal error */
    | HttpError(code: int, message: string)

  /** `Error()` returns without dereferencing a nil `Reason`. Only the two resource error
      kinds can panic: their `Error()` calls `Reason.Error()` directly, so a nil `Reason`
      anywhere along a chain of them is reached. The `fmt.Errorf` forms return text fmt
      built when they were made, and fmt recovers from a panicking `Error` method. */
  predicate Formattable(e: Error) {
    match e
    case ValidationError(_, _, reason) => reason.Some? && Formattable(reason.value)
    case ParsingError(_, reason, _) => reason.Some? && Formattable(reason.value)
    case _ => true
  }

  /** What fmt prints, under `verb`, for an error argument whose `Error()` panics on a nil
      `Reason`: it recovers and names the runtime error instead. */
  function PanicText(verb: char): string {
    "%!" + [verb] + "(PANIC=Error method: runtime error: invalid memory address or nil pointer dereference)"
  }

  /** fmt's rendering of the error argument `arg` under `verb` (`%w` prints as `%v`). */
  function ArgText(verb: char, arg: Error): string
    decreases arg, 1
  {
    if Formattable(arg) then Text(arg) else PanicText(verb)
  }

  /** The Go type name that `%v` prints for an extra argument. */
  function TypeName(e: Error): string {
    match e
    case Sentinel(_, goType, _) => goType
    case Wrapped(_, _) => "*fmt.wrapError"
    case Formatted(_, _) => "*errors.errorString"
    case ExtraArg(_, _) => "*errors.errorString"
    case Opaque(goType, _) => goType
    case ValidationError(_, _, _) => "resources.ValidationError"
    case ParsingError(_, _, _) => "resources.ParsingError"
    case HttpError(_, _) => "*echo.HTTPError"
  }

  /** `e.Error()`. Both resource error kinds print their `Reason` and never their `Message`. */
  function Text(e: Error): string
    requires Formattable(e)
    decreases e, 0
  {
    match e
    case Sentinel(_, _, text) => text
    case Wrapped(context, inner) => context + ArgText('v', inner)
    case Formatted(context, arg) => context + ArgText('s', arg)
    case ExtraArg(format, arg) => format + "%!(EXTRA " + TypeName(arg) + "=" + ArgText('v', arg) + ")"
    case Opaque(_, text) => text
    case ValidationError(field, _, reason) =>
      "Validation of field '" + field + "' failed with error: " + Text(reason.value)
    case ParsingError(field, reason, _) =>
      "Parsing of field '" + field + "' failed with error: " + Text(reason.value)
    case HttpError(code, message) => "code=" + IntToString(code) + ", message=" + message
  }

  /** `errors.Is(e, target)`: `e` is `target` or wraps it with `%w`. */
  predicate Is(e: Error, target: Error) {
    e == target || (e.Wrapped? && Is(e.inner, target))
  }

  /** `context.Canceled` */
  const Canceled: Error := Sentinel("context.Canceled", "*errors.errorString", "context canceled")
  /** `context.DeadlineExceeded` */
  const DeadlineExceeded: Error :=
    Sentinel("context.DeadlineExceeded", "context.deadlineExceededError", "context deadline exceeded")
  /** `fs.ErrNotExist` */
  const ErrNotExist: Error := Sentinel("fs.ErrNotExist", "*errors.errorString", "file does not exist")
  /** `http.ErrNoCookie` */
  const ErrNoCookie: Error := Sentinel("http.ErrNoCookie", "*errors.errorString", "http: named cookie not present")

  /** Wrapping with `%w` keeps every target visible to `errors.Is`; the other two
      `fmt.Errorf` forms hide all of them but themselves. */
  lemma WrappingAndIs(context: string, e: Error, target: Error)
    ensures Is(e, target) ==> Is(Wrapped(context, e), target)
    ensures target != Formatted(context, e) ==> !Is(Formatted(context, e), target)
    ensures target != ExtraArg(context, e) ==> !Is(ExtraArg(context, e), target)
  {
  }
}
