/**
 * The cleanup registry (src/managers/LifeCycleManager.ts): an ordered list of
 * callbacks that `cleanupAll` runs once, in registration order, and then
 * forgets. A callback is a value of `F`; running it is recorded in `invoked`.
 */
module LifeCycle {

  class LifecycleManager<F> {
    var cleanupFns: seq<F>
    /** Every callback invoked so far, in invocation order. */
    var invoked: seq<F>

    constructor ()
      ensures cleanupFns == [] && invoked == []
    {
      cleanupFns := [];
      invoked := [];
    }

    method Register(fn: F)
      modifies this`cleanupFns
      ensures cleanupFns == old(cleanupFns) + [fn]
    {
      cleanupFns := cleanupFns + [fn];
    }

    /** Invokes every registered callback once, in registration order, then empties the list. */
    method CleanupAll()
      modifies this
      ensures invoked == old(invoked) + old(cleanupFns)
      ensures cleanupFns == []
    {
      for i := 0 to |cleanupFns|
        invariant cleanupFns == old(cleanupFns)
        invariant invoked == old(invoked) + cleanupFns[..i]
      {
        invoked := invoked + [cleanupFns[i]];
      }
      cleanupFns := [];
    }
  }

  /** Two consecutive `cleanupAll` calls invoke each callback once in total. */
  method CleanupAllTwice<F>(m: LifecycleManager<F>)
    modifies m
    ensures m.invoked == old(m.invoked) + old(m.cleanupFns)
    ensures m.cleanupFns == []
  {
    m.CleanupAll();
    m.CleanupAll();
  }
}
