/**
 * The pure decisions of the scroll layer: the adaptive thresholds and the two
 * triggers of `ScrollManager.updateIfNeeded`, the tick rule of the
 * `forceScrollToBottom` interval, and the near-bottom rule of the scroll button.
 */
module ScrollTriggers {
  import opened Config
  import opened ChatEngine

  /** The scroll metrics of the container. */
  datatype Metrics = Metrics(scrollTop: real, clientHeight: real, scrollHeight: real)

  /** `Math.min(configured, clientHeight / 2)`. */
  function AdjustedThreshold(configured: real, clientHeight: real): (t: real)
    ensures t <= configured && t <= clientHeight / 2.0
    ensures t == configured || t == clientHeight / 2.0
  {
    if configured <= clientHeight / 2.0 then configured else clientHeight / 2.0
  }

  /** The view is near the top: older messages should be revealed. */
  predicate TopTrigger(cfg: Config, m: Metrics) {
    m.scrollTop < AdjustedThreshold(cfg.topThreshold, m.clientHeight)
  }

  /** The view is near the bottom: newer messages should be revealed. */
  predicate BottomTrigger(cfg: Config, m: Metrics) {
    m.scrollTop + m.clientHeight > m.scrollHeight - AdjustedThreshold(cfg.bottomThreshold, m.clientHeight)
  }

  /** What `updateIfNeeded` does once it has the two triggers. */
  datatype Decision =
    | Ambiguous            // both triggers hold: return at once
    | CallWindow(call: Call)
    | NoCall

  function Decide(cfg: Config, m: Metrics): (d: Decision)
    ensures d == Ambiguous <==> TopTrigger(cfg, m) && BottomTrigger(cfg, m)
    ensures d == CallWindow(ScrollWindowUp) <==> TopTrigger(cfg, m) && !BottomTrigger(cfg, m)
    ensures d == CallWindow(ScrollWindowDown) <==> BottomTrigger(cfg, m) && !TopTrigger(cfg, m)
    ensures d.CallWindow? ==> d.call == ScrollWindowUp || d.call == ScrollWindowDown
  {
    var top := TopTrigger(cfg, m);
    var bottom := BottomTrigger(cfg, m);
    if top && bottom then Ambiguous
    else if top then CallWindow(ScrollWindowUp)
    else if bottom then CallWindow(ScrollWindowDown)
    else NoCall
  }

  /**
   * Both triggers can hold only when the content is shorter than the viewport
   * plus both adjusted thresholds, hence shorter than two viewports.
   */
  lemma AmbiguousOnlyOnShortContent(cfg: Config, m: Metrics)
    requires Decide(cfg, m) == Ambiguous
    ensures m.scrollHeight < m.clientHeight + AdjustedThreshold(cfg.topThreshold, m.clientHeight)
                                            + AdjustedThreshold(cfg.bottomThreshold, m.clientHeight)
    ensures m.scrollHeight < 2.0 * m.clientHeight
  {
  }

  /** The top trigger only fires within half a viewport of the top. */
  lemma TopTriggerWithinHalfViewport(cfg: Config, m: Metrics)
    requires TopTrigger(cfg, m)
    ensures m.scrollTop < m.clientHeight / 2.0 && m.scrollTop < cfg.topThreshold
  {
  }

  /** The scroll button's rule: hidden when the view is within `ratio` viewports of the bottom. */
  predicate NearBottom(m: Metrics, ratio: real) {
    m.scrollTop + m.clientHeight >= m.scrollHeight - m.clientHeight * ratio
  }

  /** Scrolling further down never makes a hidden button reappear. */
  lemma NearBottomIsUpwardClosed(m: Metrics, ratio: real, scrollTop: real)
    requires NearBottom(m, ratio) && m.scrollTop <= scrollTop
    ensures NearBottom(m.(scrollTop := scrollTop), ratio)
  {
  }

  /**
   * With a bottom band of the button at least as wide as the adjusted bottom
   * threshold, the bottom trigger implies the button is hidden.
   */
  lemma BottomTriggerHidesButton(cfg: Config, m: Metrics)
    requires m.clientHeight * cfg.dynamicBottomRatio >= AdjustedThreshold(cfg.bottomThreshold, m.clientHeight)
    requires BottomTrigger(cfg, m)
    ensures NearBottom(m, cfg.dynamicBottomRatio)
  {
  }

  /** `maxAttempts` of `forceScrollToBottom`. */
  const MaxAttempts: nat := 10

  /** The offset, in pixels, at or below which the last child counts as in view. */
  const SettledOffset: real := 5.0

  /** What one interval tick observes: whether the container has a last child, and its offset below the container. */
  datatype Tick = Tick(hasLastChild: bool, offset: real)

  datatype TickAction = Adjust(amount: real) | Stop

  /** The tick that brings the attempt count to `attempts`. */
  function OnTick(attempts: nat, t: Tick): TickAction {
    if !t.hasLastChild || attempts >= MaxAttempts then Stop
    else if t.offset > SettledOffset then Adjust(t.offset)
    else Stop
  }

  /** The outcome of a run of ticks: how many ran, the scroll adjustments made, whether the interval stopped. */
  datatype Run = Run(ticks: nat, adjustments: seq<real>, stopped: bool)

  /** The interval's ticks after `done` earlier ones, until it stops or the observations run out. */
  function RunTicks(done: nat, ticks: seq<Tick>): Run
    decreases |ticks|
  {
    if ticks == [] then Run(0, [], false)
    else
      match OnTick(done + 1, ticks[0])
      case Stop => Run(1, [], true)
      case Adjust(d) =>
        var r := RunTicks(done + 1, ticks[1..]);
        Run(r.ticks + 1, [d] + r.adjustments, r.stopped)
  }

  /**
   * A run that starts after `done` ticks stops within `MaxAttempts - done`
   * ticks whatever it observes; every tick but the stopping one adjusts the
   * scroll position, by more than the settled offset.
   */
  lemma {:induction false} RunIsBounded(done: nat, ticks: seq<Tick>)
    requires done < MaxAttempts
    decreases |ticks|
    ensures RunTicks(done, ticks).ticks <= MaxAttempts - done
    ensures RunTicks(done, ticks).ticks <= |ticks|
    ensures |RunTicks(done, ticks).adjustments| < MaxAttempts - done
    ensures RunTicks(done, ticks).ticks
            == |RunTicks(done, ticks).adjustments| + (if RunTicks(done, ticks).stopped then 1 else 0)
    ensures |ticks| >= MaxAttempts - done ==> RunTicks(done, ticks).stopped
    ensures forall i :: 0 <= i < |RunTicks(done, ticks).adjustments| ==>
              RunTicks(done, ticks).adjustments[i] > SettledOffset
  {
    if ticks != [] && OnTick(done + 1, ticks[0]).Adjust? {
      RunIsBounded(done + 1, ticks[1..]);
    }
  }

  /** From a fresh start: at most 10 ticks, at most 9 adjustments, and 10 ticks always stop it. */
  lemma ForceScrollStops(ticks: seq<Tick>)
    ensures RunTicks(0, ticks).ticks <= MaxAttempts
    ensures |RunTicks(0, ticks).adjustments| <= MaxAttempts - 1
    ensures |ticks| >= MaxAttempts ==> RunTicks(0, ticks).stopped
  {
    RunIsBounded(0, ticks);
  }
}
