/**
 * Lifting an algorithm's locally produced result back to segmented form:
 * the specializations of `algorithm_result_helper`. Each C++ specialization
 * becomes one arm of a match over a closed set of result shapes.
 *
 * Iterators of every kind (local raw iterators and the segmented local
 * iterators they are lifted to) are values of one type `It`, so that the
 * primary template, which hands its argument back unchanged, has a type.
 */
module ResultShapes {
  import opened Futures

  /**
   * What `segmented_local_iterator_traits<I>` supplies for the iterator
   * type I of one result slot: whether `is_segmented_local_iterator<I>`
   * holds, and the trait's `remote` conversion. `remote` is left
   * uninterpreted; nothing here assumes it is the identity, even for a type
   * that is not segmented.
   */
  datatype SlotTraits<!It> = SlotTraits(segmented: bool, remote: It -> It)

  /**
   * The traits of the slot types of one result type, in slot order
   * (`traits1`, `traits2`, `traits3`; a single iterator uses `t1`).
   */
  datatype ResultTraits<!It> = ResultTraits(t1: SlotTraits<It>, t2: SlotTraits<It>, t3: SlotTraits<It>)
  {
    /** The traits of slot `i`, counting from 0. */
    function At(i: nat): (st: SlotTraits<It>)
      requires i < 3
    {
      if i == 0 then t1 else if i == 1 then t2 else t3
    }
  }

  /** The synchronous shapes an algorithm body returns. */
  datatype Shape<It, V> =
    | Value(v: V)                                  // a type with no iterator slot
    | Iter(it: It)                                 // one iterator
    | Pair(first: It, second: It)                  // std::pair
    | InOut(input: It, output: It)                 // util::in_out_result
    | Tuple3(get0: It, get1: It, get2: It)         // hpx::tuple of three
    | InInOut(input1: It, input2: It, output: It)  // util::in_in_out_result

  /**
   * The result of one algorithm call: nothing (`void`), a synchronous
   * shape, `future<void>`, or a future of a shape.
   */
  datatype AlgoResult<It, V, E> =
    | Void
    | Sync(shape: Shape<It, V>)
    | FutureVoid(done: Future<(), E>)
    | Async(future: Future<Shape<It, V>, E>)

  /** The iterator slots of a shape, in declaration order. */
  function Slots<It, V>(s: Shape<It, V>): (xs: seq<It>)
    ensures |xs| <= 3
    ensures s.Value? <==> xs == []
  {
    match s
    case Value(_) => []
    case Iter(it) => [it]
    case Pair(a, b) => [a, b]
    case InOut(i, o) => [i, o]
    case Tuple3(a, b, c) => [a, b, c]
    case InInOut(i1, i2, o) => [i1, i2, o]
  }

  /** The shape `s` with its iterator slots replaced, in order, by `xs`. */
  function WithSlots<It, V>(s: Shape<It, V>, xs: seq<It>): (r: Shape<It, V>)
    requires |xs| == |Slots(s)|
    ensures Slots(r) == xs
    ensures s.Value? ==> r == s
  {
    match s
    case Value(_) => s
    case Iter(_) => Iter(xs[0])
    case Pair(_, _) => Pair(xs[0], xs[1])
    case InOut(_, _) => InOut(xs[0], xs[1])
    case Tuple3(_, _, _) => Tuple3(xs[0], xs[1], xs[2])
    case InInOut(_, _, _) => InInOut(xs[0], xs[1], xs[2])
  }

  /**
   * The `enable_if` condition of the lifting specializations for a shape:
   * the type of at least one of its slots is a segmented local iterator.
   */
  predicate Selected<It, V>(ts: ResultTraits<It>, s: Shape<It, V>)
  {
    match s
    case Value(_) => false
    case Iter(_) => ts.t1.segmented
    case Pair(_, _) => ts.t1.segmented || ts.t2.segmented
    case InOut(_, _) => ts.t1.segmented || ts.t2.segmented
    case Tuple3(_, _, _) => ts.t1.segmented || ts.t2.segmented || ts.t3.segmented
    case InInOut(_, _, _) => ts.t1.segmented || ts.t2.segmented || ts.t3.segmented
  }

  /** A lifting specialization applies exactly when some slot of the shape is segmented. */
  lemma SelectedIffSomeSlotSegmented<It, V>(ts: ResultTraits<It>, s: Shape<It, V>)
    ensures Selected(ts, s) <==> exists i :: 0 <= i < |Slots(s)| && ts.At(i).segmented
  {
    if Selected(ts, s) {
      if ts.t1.segmented {
        assert ts.At(0).segmented;
      } else if ts.t2.segmented {
        assert ts.At(1).segmented;
      } else {
        assert ts.At(2).segmented;
      }
    }
  }

  /**
   * The synchronous lift: the primary template for a shape no specialization
   * selects, else the specialization for the shape, which sends every slot
   * through its own trait's `remote`.
   */
  function LiftShape<It, V>(ts: ResultTraits<It>, s: Shape<It, V>): (r: Shape<It, V>)
    ensures |Slots(r)| == |Slots(s)|
    ensures r == WithSlots(s, Slots(r))
    ensures forall i | 0 <= i < |Slots(s)| ::
      Slots(r)[i] == if Selected(ts, s) then ts.At(i).remote(Slots(s)[i]) else Slots(s)[i]
  {
    match s
    case Value(_) => s
    case Iter(it) =>
      if ts.t1.segmented then Iter(ts.t1.remote(it)) else s
    case Pair(a, b) =>
      if ts.t1.segmented || ts.t2.segmented then Pair(ts.t1.remote(a), ts.t2.remote(b)) else s
    case InOut(i, o) =>
      if ts.t1.segmented || ts.t2.segmented then InOut(ts.t1.remote(i), ts.t2.remote(o)) else s
    case Tuple3(a, b, c) =>
      if ts.t1.segmented || ts.t2.segmented || ts.t3.segmented
      then Tuple3(ts.t1.remote(a), ts.t2.remote(b), ts.t3.remote(c))
      else s
    case InInOut(i1, i2, o) =>
      if ts.t1.segmented || ts.t2.segmented || ts.t3.segmented
      then InInOut(ts.t1.remote(i1), ts.t2.remote(i2), ts.t3.remote(o))
      else s
  }

  /**
   * `algorithm_result_helper<R>::call`. A future-wrapped shape is lifted by
   * a continuation that lifts the value the future resolves to. `R` is never
   * `void` here: the primary template cannot take a `void` argument, and
   * `dispatcher_helper<void>` does not call it.
   */
  function Lift<It, V, E>(ts: ResultTraits<It>, s: AlgoResult<It, V, E>): (r: AlgoResult<It, V, E>)
    requires !s.Void?
    ensures !r.Void?
    ensures r.Sync? <==> s.Sync?
    ensures s.Sync? ==> r == Sync(LiftShape(ts, s.shape))
    ensures s.FutureVoid? ==> r == s
    ensures s.Async? ==> r.Async? && (r.future.Failed? <==> s.future.Failed?)
    ensures s.Async? && s.future.Failed? ==> r.future.error == s.future.error
  {
    match s
    case Sync(sh) => Sync(LiftShape(ts, sh))
    case FutureVoid(_) => s
    case Async(f) => Async(Then(f, (sh: Shape<It, V>) => LiftShape(ts, sh)))
  }

  /**
   * Whether lifting `s` converts any slot. A failed future of a shape goes
   * through its `future<...>` specialization, which is chosen by type, but
   * the continuation only rethrows, so no slot is converted.
   */
  predicate LiftApplies<It, V, E>(ts: ResultTraits<It>, s: AlgoResult<It, V, E>)
  {
    match s
    case Sync(sh) => Selected(ts, sh)
    case Async(Ready(sh)) => Selected(ts, sh)
    case _ => false
  }

  /**
   * A result whose slots no specialization converts (a plain value,
   * `future<void>`, a shape none of whose slots is segmented, a future of
   * one, or a failed future) comes back unchanged.
   */
  lemma UnselectedResultPassesThrough<It, V, E>(ts: ResultTraits<It>, s: AlgoResult<It, V, E>)
    requires !s.Void?
    requires !LiftApplies(ts, s)
    ensures Lift(ts, s) == s
  {
  }

  /** A single segmented iterator is lifted to exactly its trait's `remote`. */
  lemma SingleIteratorLiftsToRemote<It, V, E>(ts: ResultTraits<It>, it: It)
    requires ts.t1.segmented
    ensures Lift(ts, AlgoResult<It, V, E>.Sync(Iter(it))) == Sync(Iter(ts.t1.remote(it)))
  {
  }

  /**
   * Lifting a future of a shape yields the future of the synchronous lift of
   * its value, and keeps a captured exception as it is.
   */
  lemma LiftedFutureYieldsSyncLift<It, V, E>(ts: ResultTraits<It>, f: Future<Shape<It, V>, E>)
    ensures f.Ready? ==> Lift(ts, Async(f)) == Async(Ready(Lift(ts, AlgoResult<It, V, E>.Sync(f.value)).shape))
    ensures f.Failed? ==> Lift(ts, Async(f)) == Async(Failed(f.error))
  {
  }
}
