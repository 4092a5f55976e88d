/**
  The pluggable random source: a queue of predetermined draws consumed one
  per call, the way the tests feed the middleware.
*/
module Randomness {
  import opened Maybe

  /** The value one call returns from a queue: its first draw, or None once
      the queue is exhausted (`shift()` then yields `undefined`, and every
      comparison with it is false). */
  function Head(queue: seq<real>): Option<real>
  {
    if queue == [] then None else Some(queue[0])
  }

  /** What is left of the queue after one call. */
  function Tail(queue: seq<real>): seq<real>
  {
    if queue == [] then [] else queue[1..]
  }

  /** A random source backed by a queue of draws. */
  class RandomQueue {
    var pending: seq<real>

    constructor (draws: seq<real>)
      ensures pending == draws
    {
      pending := draws;
    }

    /** `random()`: takes the first pending draw. */
    method Draw() returns (d: Option<real>)
      modifies this
      ensures old(pending) == [] ==> d == None && pending == []
      ensures old(pending) != [] ==> d == Some(old(pending)[0]) && pending == old(pending)[1..]
      ensures d == Head(old(pending)) && pending == Tail(old(pending))
    {
      if pending == [] {
        d := None;
      } else {
        d := Some(pending[0]);
        pending := pending[1..];
      }
    }
  }
}
