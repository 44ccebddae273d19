# Segmented algorithm dispatch: result lifting and remote-call reconciliation

This project models the core of HPX's segmented-algorithm dispatcher
(`hpx/parallel/segmented_algorithms/detail/dispatch.hpp`). The dispatcher
runs an algorithm on the locality that owns part of a partitioned data
structure. The model covers three parts:

- `ResultShapes` (`result_shapes.dfy`) models `algorithm_result_helper`.
  It lifts a result computed on local raw iterators back to segmented
  iterators. The shapes form a closed datatype: a plain value, one iterator,
  `std::pair`, `in_out_result`, a three-element `hpx::tuple`,
  `in_in_out_result`, `future<void>`, and a future of any of these.
  `LiftShape` has one match arm per synchronous specialization, with the
  primary template (the result unchanged) as the else-branch of each.
  `Lift` applies it to a synchronous result, returns `future<void>` as it
  is, and lifts every other future through one arm: a `then` continuation
  that applies `LiftShape` to the resolved value. This arm stands for the
  five `future<...>` specializations. A specialization is
  chosen when at least one slot's type is a segmented local iterator (the
  `||` in the `enable_if`). Once chosen, every slot goes through its own
  trait's `remote`, even a slot whose type is not segmented.
- `Dispatcher` (`dispatcher.dfy`) models `dispatcher_helper` and
  `dispatcher`. Each argument is converted by its own trait's `local`. The
  algorithm is then called with the sequential flag set (`sequential`) or
  clear (`parallel`). Its result is lifted, except when the result type is
  `void`.
- `RemoteDispatch` (`remote_dispatch.dfy`) models what `dispatch` does once
  the remote call's future has resolved. It returns the future's value, or
  it throws an `exception_list` built from the errors that
  `handle_remote_exceptions` collected. A failed `HPX_ASSERT` is a third
  way for it to end.
- `Futures` (`futures.dfy`) holds a resolved future, `Ready(v) | Failed(e)`,
  and the `then` continuation used by the future-wrapped lifts.

Several collaborators are parameters and stay uninterpreted:

- each slot trait's `remote` (`SlotTraits.remote`) and whether it is
  segmented (`SlotTraits.segmented`);
- each argument's `local` (the `locals` sequence);
- the algorithm's `call` (`Dispatcher.Algorithm`);
- `handle_remote_exceptions`, given as the list of errors it appends for a
  captured exception (`handle`);
- whether `HPX_ASSERT` is compiled in (`debug`).

Facts about the code that shape the model:

- The result is lifted on the target locality, inside `dispatcher_helper`
  (dispatch.hpp:326, :337). `dispatch` returns `f.get()` (:461) without
  lifting anything further.
- `remote` takes only the raw iterator (:61, :79); no partition identity
  is passed to it.
- Nothing in this file promises that `remote` undoes `local`, so the model
  does not assume it.
- The future `dispatch` waits on holds `Algo::result_type` (:421, :444),
  while the action returns the dispatcher's result type (:426-430). A
  future-valued result on the target is therefore unwrapped
  (`RemoteDispatch.Delivered`).

## Model

| member | source | states |
|---|---|---|
| `ResultShapes.Lift` | libs/full/segmented_algorithms/include/hpx/parallel/segmented_algorithms/detail/dispatch.hpp:32-315 | lifting never produces `void`. A synchronous result becomes the synchronous lift of its shape (`LiftShape`), and `future<void>` is returned unchanged. A future stays a future that fails exactly when the original fails, with the same exception |
| `ResultShapes.UnselectedResultPassesThrough` | libs/full/segmented_algorithms/include/hpx/parallel/segmented_algorithms/detail/dispatch.hpp:32-49 | a result whose slots no specialization converts comes back unchanged: a plain value, `future<void>`, a shape with no segmented slot, a future of one, or a failed future (its `future<...>` specialization is chosen by type, but the continuation only rethrows the exception) |
| `ResultShapes.SingleIteratorLiftsToRemote` | libs/full/segmented_algorithms/include/hpx/parallel/segmented_algorithms/detail/dispatch.hpp:51-63 | a single segmented iterator lifts to exactly `traits::remote(it)` and nothing else |
| `ResultShapes.SelectedIffSomeSlotSegmented` | libs/full/segmented_algorithms/include/hpx/parallel/segmented_algorithms/detail/dispatch.hpp:65-69 | a lifting specialization applies if and only if the type of at least one slot of the shape is a segmented local iterator |
| `ResultShapes.LiftShape` | libs/full/segmented_algorithms/include/hpx/parallel/segmented_algorithms/detail/dispatch.hpp:65-154 | the shape and its non-iterator content are kept, and so is the slot count. Slot `i` stays in place: when a specialization applies it becomes trait `i`'s `remote` of the old slot `i` (first/second, in/out, 0/1/2, in1/in2/out), and otherwise it is unchanged |
| `ResultShapes.LiftedFutureYieldsSyncLift` | libs/full/segmented_algorithms/include/hpx/parallel/segmented_algorithms/detail/dispatch.hpp:156-315 | the lifted future of a shape holds exactly the synchronous lift of the original's value. If the original holds an exception, the lifted future fails with that same exception |
| `Dispatcher.Localize` | libs/full/segmented_algorithms/include/hpx/parallel/segmented_algorithms/detail/dispatch.hpp:328-329 | every argument is converted by its own trait's `local`, with order and count kept |
| `Dispatcher.LocalizationIsUnique` | libs/full/segmented_algorithms/include/hpx/parallel/segmented_algorithms/detail/dispatch.hpp:339-340 | any argument list that is argument-by-argument the `local` conversion equals the one `Localize` computes |
| `Dispatcher.Sequential` | libs/full/segmented_algorithms/include/hpx/parallel/segmented_algorithms/detail/dispatch.hpp:322-330 | for a non-`void` result, the value is the lift of the algorithm called with the sequential flag `true` on the localized arguments |
| `Dispatcher.Parallel` | libs/full/segmented_algorithms/include/hpx/parallel/segmented_algorithms/detail/dispatch.hpp:333-341 | for a non-`void` result, the value is the lift of the algorithm called with the sequential flag `false` on the localized arguments |
| `Dispatcher.VoidResultIsNotLifted` | libs/full/segmented_algorithms/include/hpx/parallel/segmented_algorithms/detail/dispatch.hpp:344-368 | when the algorithm's result is `void`, both entry points return it as it is, without a lift |
| `RemoteDispatch.Settle` | libs/full/segmented_algorithms/include/hpx/parallel/segmented_algorithms/detail/dispatch.hpp:449-461 | `dispatch` returns a value exactly when the future holds one, and then it is the future's value. On failure it never returns: it throws or asserts on exactly the handler's list. The assertion fails exactly when the list is empty in a debug build, so a thrown list is never empty there (the corrected assertion; line 458 as written asserts the opposite, see ## Findings) |
| `RemoteDispatch.Dispatch` | libs/full/segmented_algorithms/include/hpx/parallel/segmented_algorithms/detail/dispatch.hpp:437-462 | the imperative `dispatch` fills a local error list through the handler, checks it and throws it, or returns `f.get()`. Its outcome is `Settle`'s |
| `RemoteDispatch.SettleAsWritten` | libs/full/segmented_algorithms/include/hpx/parallel/segmented_algorithms/detail/dispatch.hpp:457-459 | with the assertion as written, a debug build stops exactly when the handler recorded an error. Any list it throws is therefore empty |
| `RemoteDispatch.DispatchAsWritten` | libs/full/segmented_algorithms/include/hpx/parallel/segmented_algorithms/detail/dispatch.hpp:447-461 | the imperative `dispatch` with `HPX_ASSERT(errors.empty())` literally. Its outcome is `SettleAsWritten`'s |
| `RemoteDispatch.AsWrittenRejectsRecordedError` | libs/full/segmented_algorithms/include/hpx/parallel/segmented_algorithms/detail/dispatch.hpp:458 | take a handler that records the captured exception as one entry. As written, a debug build stops at the assertion. The corrected check throws the one-element list instead |
| `RemoteDispatch.ReleaseBuildsAgree` | libs/full/segmented_algorithms/include/hpx/parallel/segmented_algorithms/detail/dispatch.hpp:458-459 | without `HPX_ASSERT`, the written and the corrected decisions agree, and a failure always throws the handler's list |
| `RemoteDispatch.DispatchReturnsLiftedResult` | libs/full/segmented_algorithms/include/hpx/parallel/segmented_algorithms/detail/dispatch.hpp:443-461 | the target ran `dispatcher::sequential` or `parallel` on the localized arguments, with the matching flag. Then `dispatch` returns the lifted result of a synchronous call, the synchronous lift of a future's value, and `void` for `void` or a ready `future<void>`. A failed future makes it throw, or assert on, the handler's list for that future's exception |
| `RemoteDispatch.Delivered` | libs/full/segmented_algorithms/include/hpx/parallel/segmented_algorithms/detail/dispatch.hpp:419-446 | the future `dispatch` waits on never holds a future. It fails exactly when the target's result is a failed future, and then with that future's exception. A ready future of a shape delivers that shape as a synchronous result, and a ready `future<void>` delivers `void`. A synchronous or `void` result arrives as it is |

## Findings

| source | as written | input that shows it | evidently intended | confidence | as-written member | corrected member |
|---|---|---|---|---|---|---|
| libs/full/segmented_algorithms/include/hpx/parallel/segmented_algorithms/detail/dispatch.hpp:458 | `HPX_ASSERT(errors.empty())` runs right after `handle_remote_exceptions` filled `errors` and right before the list is thrown | a remote call fails and the handler records its exception as one entry, in a build with `HPX_ASSERT` enabled: the assertion fails instead of the `exception_list` being thrown | `HPX_ASSERT(!errors.empty())`: an `exception_list` raised by `dispatch` is never empty | medium (the handler's body is not part of this model), not executed | `RemoteDispatch.DispatchAsWritten` (specified by `RemoteDispatch.SettleAsWritten`; exhibited by `RemoteDispatch.AsWrittenRejectsRecordedError`) | `RemoteDispatch.Dispatch` (specified by `RemoteDispatch.Settle`) |

## Left out

- Action registration through `hpx::actions::make_action` (dispatch.hpp:395-416) is left out. It binds a call signature to a remotely callable function at compile time and has no runtime behaviour to state. The model assumes `IsSeq` selects `dispatcher::sequential` (true) or `dispatcher::parallel` (false), as those lines do.
- The routing in `dispatch_async` (dispatch.hpp:429-434) is left out. It uses `hpx::async` and `hpx::colocated(id)`, which is network transport. The model keeps only the future the call delivers (`RemoteDispatch.Delivered`).
- `RemoteDispatch.Delivered` unwraps a future-valued action result as the declared types at dispatch.hpp:421, :426-430 and :444 require. How `hpx::async` performs the unwrapping is not modelled. An exception thrown by the algorithm itself on the target is not modelled either, because `Algorithm` is a total function.
- `f.wait()` and the `launch::sync` scheduling of continuations are left out because they are concurrency. A future is seen only once it is resolved.
- The traits header `segmented_iterator_traits.hpp` is not part of this model, so the bodies of `segmented_local_iterator_traits::local` and `remote` are not modelled. They are uninterpreted function parameters. No relation between them is assumed; in particular, `remote(local(x)) == x` is not assumed.
- `handle_remote_exceptions.hpp` is not part of this model. It flattens nested `exception_list`s, rethrows `std::bad_alloc`, and terminates for some policies. It is an uninterpreted function from the captured exception to the list it appends. `Outcome` cannot express the handler rethrowing `std::bad_alloc` or terminating the process. `RemoteDispatch.Settle`'s "throws or asserts on exactly the handler's list" holds only for a handler that returns normally.
- `algorithm_result<ExPolicy, T>` is not part of this model. It computes the dispatcher's declared result type. The model picks `dispatcher_helper<void>` from the value: `AlgoResult.Void` is what a `void`-typed algorithm returns.
- `dispatcher` (dispatch.hpp:371-392) only forwards, by value, to `dispatcher_helper`. This forwarding is folded into `Dispatcher.Sequential` and `Dispatcher.Parallel`.
- C++ slot and argument types are heterogeneous. The model uses one iterator type `It` for all result slots and one type `A` for all arguments. A slot's or argument's own type shows only through its own trait function.
- The execution policy is an opaque value passed through to the algorithm. Executor hints are not modelled.
