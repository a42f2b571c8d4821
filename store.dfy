/**
 * What the views use of the persisted-value hook `useLocalStorage(key,
 * default)`: a current value that starts from the stored copy (or the
 * caller's default when nothing is stored), and a setter that takes either
 * a replacement value or a function of the previous value.
 */
module Store {
  import opened Wrappers

  /** The argument of a setter call. */
  datatype SetArg<!T> = Replace(value: T) | Update(f: T -> T)

  /** The value a setter call leaves behind. */
  function Next<T>(prev: T, arg: SetArg<T>): (r: T)
    ensures arg.Replace? ==> r == arg.value
    ensures arg.Update? ==> r == arg.f(prev)
  {
    match arg
    case Replace(v) => v
    case Update(f) => f(prev)
  }

  /** The value a binding starts with: the stored copy if there is one, else the default. */
  function Initial<T>(stored: Option<T>, default: T): (r: T)
    ensures stored.None? ==> r == default
    ensures stored.Some? ==> r == stored.value
  {
    stored.GetOrDefault(default)
  }
}
