/**
 * What runs on the target locality for one segmented algorithm call:
 * `dispatcher<Algo, ExPolicy, Args...>::sequential` / `parallel`, which
 * forward to `dispatcher_helper<R, Algo>`. Every argument is converted by
 * its own `segmented_local_iterator_traits<Arg>::local`, the algorithm is
 * called with a fixed sequential flag, and its result is lifted unless the
 * result type is `void`.
 */
module Dispatcher {
  import opened ResultShapes

  /**
   * `algo.call(policy, is_sequential, args...)`; `P` is the execution policy,
   * which is handed through untouched.
   */
  type Algorithm<!P, !A, It, V, E> = (P, bool, seq<A>) -> AlgoResult<It, V, E>

  /**
   * `la` is the argument list the algorithm receives: argument `i` after its
   * own trait's `local` conversion, order and count kept.
   */
  ghost predicate IsLocalization<A>(locals: seq<A -> A>, args: seq<A>, la: seq<A>)
  {
    |locals| == |args| == |la| &&
    forall i | 0 <= i < |args| :: la[i] == locals[i](args[i])
  }

  /**
   * The pack expansion `local(std::forward<Args>(args))...`; `locals[i]` is
   * the `local` of argument `i`'s decayed type, left uninterpreted.
   */
  function Localize<A>(locals: seq<A -> A>, args: seq<A>): (la: seq<A>)
    requires |locals| == |args|
    ensures IsLocalization(locals, args, la)
    decreases |args|
  {
    if |args| == 0 then []
    else [locals[0](args[0])] + Localize(locals[1..], args[1..])
  }

  /** The localization of an argument list is unique. */
  lemma LocalizationIsUnique<A>(locals: seq<A -> A>, args: seq<A>)
    requires |locals| == |args|
    ensures forall la | IsLocalization(locals, args, la) :: la == Localize(locals, args)
  {
  }

  /**
   * Choice between `dispatcher_helper<R, Algo>`, which lifts the result, and
   * `dispatcher_helper<void, Algo>`, which returns it as it is.
   */
  function Complete<It, V, E>(ts: ResultTraits<It>, raw: AlgoResult<It, V, E>): (r: AlgoResult<It, V, E>)
  {
    if raw.Void? then raw else Lift(ts, raw)
  }

  /** `dispatcher::sequential`: the algorithm runs with the sequential flag set. */
  function Sequential<P, A(!new), It, V, E>(
    ts: ResultTraits<It>, algo: Algorithm<P, A, It, V, E>, policy: P,
    locals: seq<A -> A>, args: seq<A>): (r: AlgoResult<It, V, E>)
    requires |locals| == |args|
    ensures forall la | IsLocalization(locals, args, la) && !algo(policy, true, la).Void? ::
      r == Lift(ts, algo(policy, true, la))
  {
    LocalizationIsUnique(locals, args);
    Complete(ts, algo(policy, true, Localize(locals, args)))
  }

  /** `dispatcher::parallel`: the algorithm runs with the sequential flag clear. */
  function Parallel<P, A(!new), It, V, E>(
    ts: ResultTraits<It>, algo: Algorithm<P, A, It, V, E>, policy: P,
    locals: seq<A -> A>, args: seq<A>): (r: AlgoResult<It, V, E>)
    requires |locals| == |args|
    ensures forall la | IsLocalization(locals, args, la) && !algo(policy, false, la).Void? ::
      r == Lift(ts, algo(policy, false, la))
  {
    LocalizationIsUnique(locals, args);
    Complete(ts, algo(policy, false, Localize(locals, args)))
  }

  /**
   * When the result type is `void`, both entry points hand back the
   * algorithm's result without lifting it.
   */
  lemma VoidResultIsNotLifted<P, A(!new), It, V, E>(
    ts: ResultTraits<It>, algo: Algorithm<P, A, It, V, E>, policy: P,
    locals: seq<A -> A>, args: seq<A>, la: seq<A>)
    requires IsLocalization(locals, args, la)
    ensures algo(policy, true, la).Void? ==> Sequential(ts, algo, policy, locals, args).Void?
    ensures algo(policy, false, la).Void? ==> Parallel(ts, algo, policy, locals, args).Void?
  {
    LocalizationIsUnique(locals, args);
  }
}
