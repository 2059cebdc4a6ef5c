/**
 * The browser state the components touch: the `window` globals (the shared
 * auto-scroll suppression flag, timers, `localStorage`, `location.href`), the
 * scrollable conversation container, page elements and click events. Timers do
 * not run by themselves: a scheduled `setTimeout` callback waits in `timeouts`
 * until it is fired, and an interval callback is a method the caller invokes
 * while the interval is live.
 */
module Browser {
  import opened Wrappers

  /** Identity of a DOM element seen by the mutation observer. */
  type ElemId = nat

  /** A `setTimeout` callback that has been scheduled and not yet run. */
  datatype Timeout =
    | ResetAutoScroll(delayMs: nat)        // `window.disableAutoScroll = false`
    | RetryScrollButtonInit(delayMs: nat)  // `this.init()` of the scroll button
    | RetryAttach(delayMs: nat)            // `tryBind()` of the scroll manager

  /** The `window` object. */
  class Page {
    var disableAutoScroll: bool
    var timeouts: seq<Timeout>
    /** Ids of the intervals that are live (set and not cleared). */
    var intervals: set<nat>
    var nextTimerId: nat
    var localStorage: map<string, string>
    var href: string

    /** Timer ids are positive and never reused. */
    ghost predicate Valid()
      reads this
    {
      forall id :: id in intervals ==> 0 < id <= nextTimerId
    }

    constructor (href: string, localStorage: map<string, string>)
      ensures Valid()
      ensures this.href == href && this.localStorage == localStorage
      ensures !disableAutoScroll && timeouts == [] && intervals == {}
    {
      this.href := href;
      this.localStorage := localStorage;
      disableAutoScroll := false;
      timeouts := [];
      intervals := {};
      nextTimerId := 0;
    }

    /** `setTimeout(callback, delay)`: the callback waits until fired. */
    method SetTimeout(t: Timeout)
      modifies this`timeouts
      ensures timeouts == old(timeouts) + [t]
    {
      timeouts := timeouts + [t];
    }

    /** Runs the pending callback at position `i` and removes it. */
    method FireTimeout(i: nat)
      requires i < |timeouts|
      modifies this`timeouts, this`disableAutoScroll
      ensures timeouts == old(timeouts[..i] + timeouts[i + 1..])
      ensures old(timeouts[i]).ResetAutoScroll? ==> !disableAutoScroll
      ensures !old(timeouts[i]).ResetAutoScroll? ==> disableAutoScroll == old(disableAutoScroll)
    {
      var t := timeouts[i];
      timeouts := timeouts[..i] + timeouts[i + 1..];
      if t.ResetAutoScroll? {
        disableAutoScroll := false;
      }
    }

    /** `setInterval(callback, delay)`: returns a fresh, positive id. */
    method SetInterval() returns (id: nat)
      requires Valid()
      modifies this`intervals, this`nextTimerId
      ensures Valid()
      ensures 0 < id && id !in old(intervals)
      ensures id == nextTimerId == old(nextTimerId) + 1
      ensures intervals == old(intervals) + {id}
    {
      nextTimerId := nextTimerId + 1;
      id := nextTimerId;
      intervals := intervals + {id};
    }

    /** `clearInterval(id)`: an id that is not live is ignored. */
    method ClearInterval(id: nat)
      requires Valid()
      modifies this`intervals
      ensures Valid()
      ensures intervals == old(intervals) - {id}
    {
      intervals := intervals - {id};
    }
  }

  /** The scrollable conversation container and its scroll metrics. */
  class Container {
    var scrollTop: real
    var clientHeight: real
    var scrollHeight: real

    constructor (scrollTop: real, clientHeight: real, scrollHeight: real)
      ensures this.scrollTop == scrollTop && this.clientHeight == clientHeight
      ensures this.scrollHeight == scrollHeight
    {
      this.scrollTop := scrollTop;
      this.clientHeight := clientHeight;
      this.scrollHeight := scrollHeight;
    }
  }

  /** A page element: its `data-testid` attribute and its `style.display`. */
  class Element {
    var testid: Option<string>
    var display: string

    constructor (testid: Option<string>)
      ensures this.testid == testid && display == ""
    {
      this.testid := testid;
      display := "";
    }
  }

  /** A click event: whether `preventDefault` and `stopPropagation` were called. */
  class ClickEvent {
    var defaultPrevented: bool
    var propagationStopped: bool

    constructor ()
      ensures !defaultPrevented && !propagationStopped
    {
      defaultPrevented := false;
      propagationStopped := false;
    }
  }
}
