/**
 * The caller's side of `dispatch`: once the future of the remote call has
 * resolved, either its value is returned or the collected remote errors
 * are thrown as one `exception_list`.
 *
 * `handle` stands for `handle_remote_exceptions<ExPolicy>::call`, given as
 * the list of errors it appends to the caller's (empty) list for the
 * captured exception. `debug` says whether `HPX_ASSERT` is compiled in.
 */
module RemoteDispatch {
  import opened Futures
  import opened ResultShapes
  import opened Dispatcher

  /**
   * How a call to `dispatch` ends: it returns a value, it throws an
   * `exception_list` holding `errors`, or it stops at a failed `HPX_ASSERT`
   * while the collected list is `errors`.
   */
  datatype Outcome<T, E> =
    | Returned(value: T)
    | Threw(errors: seq<E>)
    | AssertionFailed(errors: seq<E>)

  /**
   * The decision `dispatch` makes, with the assertion stating what the
   * error handling promises: the collected list is never empty.
   */
  function Settle<T, E>(f: Future<T, E>, handle: E -> seq<E>, debug: bool): (r: Outcome<T, E>)
    ensures r.Returned? <==> f.Ready?
    ensures r.Returned? ==> r.value == f.value
    ensures !r.Returned? ==> r.errors == handle(f.error)
    ensures r.AssertionFailed? <==> f.Failed? && debug && handle(f.error) == []
    ensures r.Threw? && debug ==> r.errors != []
  {
    match f
    case Ready(v) => Returned(v)
    case Failed(e) =>
      var errors := handle(e);
      if debug && errors == [] then AssertionFailed(errors) else Threw(errors)
  }

  /** The same decision with the assertion as the source writes it: the list is empty. */
  function SettleAsWritten<T, E>(f: Future<T, E>, handle: E -> seq<E>, debug: bool): (r: Outcome<T, E>)
    ensures r.Returned? <==> f.Ready?
    ensures r.Returned? ==> r.value == f.value
    ensures !r.Returned? ==> r.errors == handle(f.error)
    ensures r.AssertionFailed? <==> f.Failed? && debug && handle(f.error) != []
    ensures r.Threw? && debug ==> r.errors == []
  {
    match f
    case Ready(v) => Returned(v)
    case Failed(e) =>
      var errors := handle(e);
      if debug && errors != [] then AssertionFailed(errors) else Threw(errors)
  }

  /**
   * `dispatch` after `f.wait()`: a local error list is filled by the
   * handler, checked, and thrown; or the future's value is returned.
   */
  method Dispatch<T, E>(f: Future<T, E>, handle: E -> seq<E>, debug: bool) returns (r: Outcome<T, E>)
    ensures r == Settle(f, handle, debug)
  {
    if f.Failed? {
      var errors: seq<E> := [];
      errors := errors + handle(f.error);
      if debug && |errors| == 0 {
        return AssertionFailed(errors);
      }
      return Threw(errors);
    }
    return Returned(f.value);
  }

  /** `dispatch` with the assertion exactly as written. */
  method DispatchAsWritten<T, E>(f: Future<T, E>, handle: E -> seq<E>, debug: bool) returns (r: Outcome<T, E>)
    ensures r == SettleAsWritten(f, handle, debug)
  {
    if f.Failed? {
      var errors: seq<E> := [];
      errors := errors + handle(f.error);
      if debug && |errors| != 0 {
        return AssertionFailed(errors);
      }
      return Threw(errors);
    }
    return Returned(f.value);
  }

  /**
   * As written, a debug build stops at the assertion whenever the handler
   * records the error, here the single captured exception itself, while the
   * corrected check throws it as a one-element `exception_list`.
   */
  lemma AsWrittenRejectsRecordedError<T, E>(e: E)
    ensures SettleAsWritten(Future<T, E>.Failed(e), (x: E) => [x], true) == AssertionFailed([e])
    ensures Settle(Future<T, E>.Failed(e), (x: E) => [x], true) == Threw([e])
  {
  }

  /** Without `HPX_ASSERT` compiled in, the written and the corrected check agree. */
  lemma ReleaseBuildsAgree<T, E>(f: Future<T, E>, handle: E -> seq<E>)
    ensures SettleAsWritten(f, handle, false) == Settle(f, handle, false)
    ensures f.Failed? ==> Settle(f, handle, false) == Threw(handle(f.error))
  {
  }

  /**
   * The future `dispatch` waits on, given the dispatcher's result on the
   * target. The action returns the dispatcher's result type, while the
   * future `dispatch_async` hands back holds `Algo::result_type`: a
   * future-valued result (what a task policy produces) is unwrapped, so its
   * value becomes the future's value and its exception the future's.
   */
  function Delivered<It, V, E>(onTarget: AlgoResult<It, V, E>): (f: Future<AlgoResult<It, V, E>, E>)
    ensures f.Ready? ==> !f.value.Async? && !f.value.FutureVoid?
    ensures f.Failed? <==>
      (onTarget.Async? && onTarget.future.Failed?) || (onTarget.FutureVoid? && onTarget.done.Failed?)
    ensures onTarget.Void? || onTarget.Sync? ==> f == Ready(onTarget)
    ensures onTarget.Async? && onTarget.future.Ready? ==> f == Ready(Sync(onTarget.future.value))
    ensures onTarget.FutureVoid? && onTarget.done.Ready? ==> f == Ready(Void)
    ensures f.Failed? ==>
      f.error == (if onTarget.Async? then onTarget.future.error else onTarget.done.error)
  {
    match onTarget
    case Async(Ready(sh)) => Ready(Sync(sh))
    case Async(Failed(e)) => Failed(e)
    case FutureVoid(Ready(_)) => Ready(Void)
    case FutureVoid(Failed(e)) => Failed(e)
    case _ => Ready(onTarget)
  }

  /**
   * End to end: the target locality ran the algorithm through
   * `dispatcher::sequential` or `dispatcher::parallel` (the flag `isSeq`
   * picks which), and `dispatch` settles the future it gets back. A
   * synchronous result comes back lifted; a future's value comes back as its
   * synchronous lift; a failed future makes `dispatch` throw (or assert on)
   * the handler's list for its exception; `void` comes back as `void`.
   */
  lemma DispatchReturnsLiftedResult<P, A(!new), It, V, E>(
    ts: ResultTraits<It>, algo: Algorithm<P, A, It, V, E>, policy: P, isSeq: bool,
    locals: seq<A -> A>, args: seq<A>, la: seq<A>,
    handle: E -> seq<E>, debug: bool)
    requires IsLocalization(locals, args, la)
    ensures
      var raw := algo(policy, isSeq, la);
      var onTarget := if isSeq then Sequential(ts, algo, policy, locals, args)
                      else Parallel(ts, algo, policy, locals, args);
      var r := Settle(Delivered(onTarget), handle, debug);
      && (raw.Void? ==> r == Returned(Void))
      && (raw.Sync? ==> r == Returned(Lift(ts, raw)))
      && (raw.Async? && raw.future.Ready? ==>
            r == Returned(Lift(ts, AlgoResult<It, V, E>.Sync(raw.future.value))))
      && (raw.Async? && raw.future.Failed? ==>
            !r.Returned? && r.errors == handle(raw.future.error))
      && (raw.FutureVoid? && raw.done.Ready? ==> r == Returned(Void))
      && (raw.FutureVoid? && raw.done.Failed? ==>
            !r.Returned? && r.errors == handle(raw.done.error))
  {
    VoidResultIsNotLifted(ts, algo, policy, locals, args, la);
    var raw := algo(policy, isSeq, la);
    if raw.Async? {
      LiftedFutureYieldsSyncLift(ts, raw.future);
    }
  }
}
