/** Shared vocabulary of the model: optional values, Go's fixed-width
    integers, and the error values the host layer returns. */
module Base {

  datatype Option<+T> = None | Some(value: T)

  /** Go's `byte`. */
  newtype byte = x: int | 0 <= x < 0x100

  /** Go's `int32`. */
  newtype int32 = x: int | -0x8000_0000 <= x < 0x8000_0000

  const MaxInt32: int := 0x7fff_ffff

  /** Two's-complement truncation of an integer to 32 bits, as Go's
      `int32(x)` conversion and int32 arithmetic do. */
  function Wrap32(x: int): (r: int32)
    ensures (r as int - x) % 0x1_0000_0000 == 0
    ensures -0x8000_0000 <= x <= MaxInt32 ==> r as int == x
  {
    var m := x % 0x1_0000_0000;
    if m <= MaxInt32 then m as int32 else (m - 0x1_0000_0000) as int32
  }

  /** `a + b` evaluated in int32 arithmetic (wraps on overflow). */
  function Add32(a: int32, b: int32): int32 {
    Wrap32(a as int + b as int)
  }

  /** Error values. Engine and host failures are opaque; the host layer only
      ever wraps them with context or raises its own bounds error. */
  datatype Error =
    | External(id: nat)
    | Wrapped(context: string, cause: Error)
    | MemoryTooSmall(expected: int32, available: nat)
    | ExportNotFound(name: string)

  /** `errors.Wrap(err, context)` from github.com/pkg/errors: a nil error
      stays nil, any other error gains the context. */
  function Wrap(err: Option<Error>, context: string): (r: Option<Error>)
    ensures r.None? <==> err.None?
    ensures r.Some? ==> r.value.Wrapped? && r.value.cause == err.value && r.value.context == context
  {
    match err
    case None => None
    case Some(e) => Some(Wrapped(context, e))
  }

  /** A resource name (sdk.WRN); only its Name() is read here. */
  datatype Wrn = Wrn(name: string)

  function Min(a: int, b: int): int {
    if a <= b then a else b
  }
}
