/**
 * Already-resolved futures. Scheduling, waiting and continuation threads are
 * not modelled: a future is seen only once it holds either a value or the
 * exception that was captured in place of one.
 */
module Futures {

  /** A resolved `hpx::future<T>`: a value, or the captured exception. */
  datatype Future<T, E> = Ready(value: T) | Failed(error: E)

  /**
   * `f.then(launch::sync, k)` where the continuation `k` is `g(f.get())`:
   * when `f` holds a value, the new future holds `g` of it; when `f` holds an
   * exception, `f.get()` rethrows it inside the continuation and the new
   * future captures that same exception.
   */
  function Then<T, U, E>(f: Future<T, E>, g: T -> U): (r: Future<U, E>)
  {
    match f
    case Ready(v) => Ready(g(v))
    case Failed(e) => Failed(e)
  }
}
