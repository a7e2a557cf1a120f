/** Optional values and results, as the controllers and mappers use them. */
module Wrappers {

  /** A value that may be absent: PHP's nullable types (`?string`, `?int`, `?DateTime`). */
  datatype Option<+T> = None | Some(value: T)

  /** Either a value or an error; used where the source returns `DateTime|DataResponse`. */
  datatype Result<+T, +E> = Success(value: T) | Failure(error: E)
}

/** Facts about sequences that the validation loops rely on. */
module Seqs {

  /** No element occurs twice: what a unique index demands of the ids inserted in one batch. */
  ghost predicate NoDuplicates<T>(xs: seq<T>) {
    forall i, j :: 0 <= i < j < |xs| ==> xs[i] != xs[j]
  }

  /**
   * The position of the first element that fails `ok`, or `|xs|` when every
   * element passes: how a `foreach` that returns on its first offender decides.
   */
  function FirstFailing<T>(xs: seq<T>, ok: T -> bool): (k: nat)
    ensures k <= |xs|
    ensures forall j :: 0 <= j < k ==> ok(xs[j])
    ensures k < |xs| ==> !ok(xs[k])
  {
    if xs == [] || !ok(xs[0]) then 0 else 1 + FirstFailing(xs[1..], ok)
  }

  /** The position where every element before passes and the element at it (if any) fails is `FirstFailing`. */
  lemma {:induction false} FirstFailingIs<T>(xs: seq<T>, ok: T -> bool, k: nat)
    requires k <= |xs|
    requires forall j :: 0 <= j < k ==> ok(xs[j])
    requires k < |xs| ==> !ok(xs[k])
    ensures FirstFailing(xs, ok) == k
    decreases k
  {
    if k > 0 {
      FirstFailingIs(xs[1..], ok, k - 1);
    }
  }
}
