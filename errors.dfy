/**
 * The error values that cross the layers of the shortener: the sentinel
 * errors each package declares, and the `fmt.Errorf("%s: %w", op, err)`
 * wrapping the service and the generator put around them.
 */
module Errors {

  datatype Option<T> = None | Some(value: T)

  /** The package that declares a sentinel error (`ForeignPkg` stands for a driver or library). */
  datatype Origin = StoragePkg | ServicePkg | RandomPkg | ForeignPkg

  /** The kinds of error the core distinguishes. */
  datatype Kind = AliasIsEmpty | UrlIsEmpty | ExistAlias | NotFound | BadUrl | ShortLength | Other

  /** The `op` label of the call site that wrapped an error. */
  datatype Op = ServiceSaveUrl | ServiceGetUrl | ServiceDeleteUrl | RandomRandomString

  /**
   * A Go `error`: either a value created once by `errors.New` in some
   * package, or an error wrapped with `%w` by an operation.
   */
  datatype Error =
    | Base(origin: Origin, kind: Kind)
    | Wrapped(op: Op, cause: Error)

  const ErrAliasIsEmpty := Base(StoragePkg, AliasIsEmpty)
  const ErrUrlIsEmpty := Base(StoragePkg, UrlIsEmpty)
  const ErrExistAlias := Base(StoragePkg, ExistAlias)
  const ErrStorageNotFound := Base(StoragePkg, NotFound)
  const ErrServiceNotFound := Base(ServicePkg, NotFound)
  const ErrBadUrl := Base(ServicePkg, BadUrl)
  const ErrShortLength := Base(RandomPkg, ShortLength)

  /** `errors.Is(e, target)`: `target` occurs in the chain of causes of `e`. */
  function Is(e: Error, target: Error): (r: bool)
    ensures e == target ==> r
    ensures e.Base? ==> (r <==> e == target)
  {
    e == target || (e.Wrapped? && Is(e.cause, target))
  }

  /** The innermost error of a wrapping chain. */
  function Root(e: Error): (r: Error)
    ensures r.Base?
    ensures Is(e, r)
  {
    match e
    case Base(_, _) => e
    case Wrapped(_, cause) => Root(cause)
  }

  /** Wrapping never changes which sentinel an error is about. */
  lemma {:induction false} WrappedIsSameRoot(op: Op, e: Error, target: Error)
    requires target.Base?
    ensures Is(Wrapped(op, e), target) <==> Is(e, target)
    ensures Is(e, target) <==> Root(e) == target
  {
    match e
    case Base(_, _) =>
    case Wrapped(_, cause) => WrappedIsSameRoot(op, cause, target);
  }
}
