/** Queues of bounded length. */
module Queues {
  /** What a queue of at most `max` elements keeps of `xs`. */
  function KeepLast<T>(xs: seq<T>, max: nat): (kept: seq<T>)
    ensures |kept| <= max && |kept| <= |xs|
  {
    if |xs| <= max then xs else xs[|xs| - max..]
  }

  /** Dropping early or late keeps the same elements. */
  lemma KeepLastTwice<T>(xs: seq<T>, more: seq<T>, max: nat)
    ensures KeepLast(KeepLast(xs, max) + more, max) == KeepLast(xs + more, max)
  {
  }
}
