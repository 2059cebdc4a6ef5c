/**
 * The scroll layer: `ScrollManager` (src/managers/ScrollManager.ts), which
 * watches the conversation container's scroll position and moves the
 * engine's window, and `ScrollButton` (src/components/ScrollButton.ts), the
 * custom scroll-to-bottom button. Each holds the other, so both live in this
 * module.
 */
module Scroll {
  import opened Wrappers
  import opened Browser
  import opened Config
  import opened ChatEngine
  import opened ScrollTriggers
  import Overlay
  import LifeCycle
  import Stats = Statistics

  /** The scroll metrics of a container. */
  function MetricsOf(c: Container): Metrics
    reads c
  {
    Metrics(c.scrollTop, c.clientHeight, c.scrollHeight)
  }

  /** `ScrollManager.getStats`: the container's scroll metrics, all zero without a container. */
  function ScrollStats(c: Container?): map<string, Stats.Value>
    reads c
  {
    if c == null then
      map["scrollTop" := Stats.Num(0.0), "clientHeight" := Stats.Num(0.0), "scrollHeight" := Stats.Num(0.0)]
    else
      map["scrollTop" := Stats.Num(c.scrollTop), "clientHeight" := Stats.Num(c.clientHeight),
          "scrollHeight" := Stats.Num(c.scrollHeight)]
  }

  /**
   * Merging the scroll statistics into the overlay's fields leaves the two
   * message counts alone and sets the three scroll fields to the container's
   * metrics (zero without a container).
   */
  lemma ScrollStatsFillScrollFields(f: Stats.FieldValues, c: Container?)
    ensures Stats.Merge(f, ScrollStats(c))[0] == f[0] && Stats.Merge(f, ScrollStats(c))[1] == f[1]
    ensures Stats.Merge(f, ScrollStats(c))[2] == Stats.Num(if c == null then 0.0 else c.scrollTop)
    ensures Stats.Merge(f, ScrollStats(c))[3] == Stats.Num(if c == null then 0.0 else c.clientHeight)
    ensures Stats.Merge(f, ScrollStats(c))[4] == Stats.Num(if c == null then 0.0 else c.scrollHeight)
  {
    Stats.MergeField(f, ScrollStats(c), 0);
    Stats.MergeField(f, ScrollStats(c), 1);
    Stats.MergeField(f, ScrollStats(c), 2);
    Stats.MergeField(f, ScrollStats(c), 3);
    Stats.MergeField(f, ScrollStats(c), 4);
  }

  /** The display style `updateVisibility` gives the button. */
  function ButtonDisplay(m: Metrics, ratio: real): (d: string)
    ensures d == "none" <==> NearBottom(m, ratio)
  {
    if NearBottom(m, ratio) then "none" else ""
  }

  /** A function object made by `bind`; every call of `bind` makes a new one. */
  type HandlerId = nat

  /** The injected button: its id, `style.display`, its click listeners, and whether it is in the page. */
  datatype Button = Button(id: string, display: string, listeners: set<HandlerId>, attached: bool)

  /** A cleanup callback that `init` registers. */
  datatype ButtonCleanup =
    | RemoveClickListener(handler: HandlerId)  // `removeEventListener("click", handler)`
    | RemoveCustomButton                       // `removeChild(this.button)`

  /** What one cleanup callback does to the button. */
  function ApplyCleanup(b: Option<Button>, c: ButtonCleanup): Option<Button> {
    if b.None? then b
    else match c
      case RemoveClickListener(h) => Some(b.value.(listeners := b.value.listeners - {h}))
      case RemoveCustomButton => Some(b.value.(attached := false))
  }

  /** The button after the callbacks run in order. */
  function ApplyCleanups(b: Option<Button>, cs: seq<ButtonCleanup>): Option<Button>
    decreases |cs|
  {
    if cs == [] then b else ApplyCleanups(ApplyCleanup(b, cs[0]), cs[1..])
  }

  /** Running callbacks one more at a time: the step a loop over them takes. */
  lemma {:induction false} ApplyCleanupsSnoc(b: Option<Button>, cs: seq<ButtonCleanup>, c: ButtonCleanup)
    decreases |cs|
    ensures ApplyCleanups(b, cs + [c]) == ApplyCleanup(ApplyCleanups(b, cs), c)
  {
    if cs == [] {
      assert [c][1..] == [];
    } else {
      assert (cs + [c])[1..] == cs[1..] + [c];
      ApplyCleanupsSnoc(ApplyCleanup(b, cs[0]), cs[1..], c);
    }
  }

  /** Cleanups never create a button, never add a listener and never re-attach one. */
  lemma {:induction false} ApplyCleanupsOnlyRemoves(b: Option<Button>, cs: seq<ButtonCleanup>)
    decreases |cs|
    ensures ApplyCleanups(b, cs).Some? == b.Some?
    ensures b.Some? ==> ApplyCleanups(b, cs).value.listeners <= b.value.listeners
    ensures b.Some? && ApplyCleanups(b, cs).value.attached ==> b.value.attached
    ensures b.Some? ==> ApplyCleanups(b, cs).value.id == b.value.id
                        && ApplyCleanups(b, cs).value.display == b.value.display
  {
    if cs != [] {
      ApplyCleanupsOnlyRemoves(ApplyCleanup(b, cs[0]), cs[1..]);
    }
  }

  /** The button `init` injects when its click handler is bind number `binds`. */
  function InjectedButton(binds: HandlerId): Button {
    Button(CustomScrollButtonId, "", {binds}, true)
  }

  /**
   * The cleanups `init` registers as written: the listener cleanup calls
   * `bind` again, so it names bind number `binds + 1`, not the handler added.
   */
  function InitCleanupsAsWritten(binds: HandlerId): seq<ButtonCleanup> {
    [RemoveClickListener(binds + 1), RemoveCustomButton]
  }

  /** The cleanups `init` registers when the bound handler is kept and removed. */
  function InitCleanups(binds: HandlerId): seq<ButtonCleanup> {
    [RemoveClickListener(binds), RemoveCustomButton]
  }

  /** As written, `destroy` after `init` leaves the click listener on the removed button. */
  lemma AsWrittenDestroyKeepsListener(binds: HandlerId)
    ensures ApplyCleanups(Some(InjectedButton(binds)), InitCleanupsAsWritten(binds))
            == Some(InjectedButton(binds).(attached := false))
    ensures binds in ApplyCleanups(Some(InjectedButton(binds)), InitCleanupsAsWritten(binds)).value.listeners
  {
    var cs := InitCleanupsAsWritten(binds);
    var b0 := Some(InjectedButton(binds));
    var b1 := ApplyCleanup(b0, cs[0]);
    var b2 := ApplyCleanup(b1, cs[1]);
    assert {binds} - {binds + 1} == {binds};
    assert b2 == Some(InjectedButton(binds).(attached := false));
    assert cs[1..][1..] == [];
    assert ApplyCleanups(b1, cs[1..]) == ApplyCleanups(b2, []) == b2;
  }

  /**
   * With the bound handler kept, the cleanups `init` registers undo it
   * whatever was registered before: the button ends up detached with no listener.
   */
  lemma DestroyUndoesInit(b: Option<Button>, earlier: seq<ButtonCleanup>, binds: HandlerId)
    ensures ApplyCleanups(b, earlier + InitCleanups(binds)).Some? == b.Some?
    ensures b == Some(InjectedButton(binds)) && earlier == [] ==>
              ApplyCleanups(b, earlier + InitCleanups(binds))
              == Some(InjectedButton(binds).(listeners := {}, attached := false))
    ensures b.Some? ==> binds !in ApplyCleanups(b, earlier + InitCleanups(binds)).value.listeners
                        && !ApplyCleanups(b, earlier + InitCleanups(binds)).value.attached
  {
    var a := ApplyCleanups(b, earlier);
    ApplyCleanupsOnlyRemoves(b, earlier);
    ApplyCleanupsSnoc(b, earlier, RemoveClickListener(binds));
    assert earlier + InitCleanups(binds) == (earlier + [RemoveClickListener(binds)]) + [RemoveCustomButton];
    ApplyCleanupsSnoc(b, earlier + [RemoveClickListener(binds)], RemoveCustomButton);
    if b == Some(InjectedButton(binds)) && earlier == [] {
      assert a == b;
      assert {binds} - {binds} == {};
    }
  }

  class ScrollManager {
    const chatManager: VirtualChatManager
    const scrollButton: ScrollButton
    const cfg: Config
    /** The conversation container, once found. */
    var container: Container?
    /** The containers on which this manager's scroll listener is registered. */
    var listeningOn: set<Container>
    /** The id of the `forceScrollToBottom` interval (`null` is `None`). */
    var scrollIntervalId: Option<nat>
    /** The interval's `attempts` counter and the container it scrolls. */
    var tickAttempts: nat
    var tickContainer: Container?

    /** An interval that was set has a container, and has made fewer than `MaxAttempts` ticks. */
    ghost predicate Valid()
      reads this
    {
      scrollIntervalId.Some? ==> tickContainer != null && tickAttempts < MaxAttempts
    }

    /**
     * Stores its collaborators and makes one attempt to attach; `found` is
     * what the engine's conversation-container lookup returns at that moment.
     */
    constructor (chatManager: VirtualChatManager, scrollButton: ScrollButton, cfg: Config, page: Page,
                 found: Container?)
      modifies page`timeouts
      ensures Valid()
      ensures this.chatManager == chatManager && this.scrollButton == scrollButton && this.cfg == cfg
      ensures scrollIntervalId == None
      ensures container == found
      ensures listeningOn == if container == null then {} else {container}
      ensures page.timeouts == old(page.timeouts) + if container == null then [RetryAttach(500)] else []
    {
      this.chatManager := chatManager;
      this.scrollButton := scrollButton;
      this.cfg := cfg;
      container := null;
      listeningOn := {};
      scrollIntervalId := None;
      tickAttempts := 0;
      tickContainer := null;
      new;
      TryBind(page, found);
    }

    /**
     * `tryBind`: takes the container the engine's lookup just returned
     * (`found`); registers the scroll listener on it, or schedules another
     * attempt in 500 ms when there is none. Each attempt looks again, so a
     * later one may find a container the page has added meanwhile.
     */
    method TryBind(page: Page, found: Container?)
      modifies this`container, this`listeningOn, page`timeouts
      ensures container == found
      ensures container == null ==> listeningOn == old(listeningOn)
                                    && page.timeouts == old(page.timeouts) + [RetryAttach(500)]
      ensures container != null ==> listeningOn == old(listeningOn) + {container}
                                    && page.timeouts == old(page.timeouts)
    {
      container := found;
      if container == null {
        page.SetTimeout(RetryAttach(500));
        return;
      }
      listeningOn := listeningOn + {container};
    }

    /** `getStats`. */
    function GetStats(): map<string, Stats.Value>
      reads this, container
    {
      ScrollStats(container)
    }

    /**
     * The scroll handler. Without a container, while auto-scroll is
     * suppressed, or when both triggers hold, nothing happens. Otherwise the
     * one triggered window move is made; if it changed the window,
     * auto-scroll is suppressed and a reset is scheduled in 50 ms; then the
     * button's visibility and the overlay's statistics are refreshed.
     */
    method UpdateIfNeeded(page: Page, overlay: Overlay.OverlayUI)
      modifies page`disableAutoScroll, page`timeouts, chatManager, scrollButton`button
      modifies overlay`element, overlay.stats
      ensures container == null || old(page.disableAutoScroll)
              || Decide(cfg, MetricsOf(container)) == Ambiguous ==>
                unchanged(page, chatManager, scrollButton, overlay, overlay.stats)
      ensures container != null && !old(page.disableAutoScroll)
              && Decide(cfg, MetricsOf(container)) != Ambiguous ==>
                var d := Decide(cfg, MetricsOf(container));
                var changed := d.CallWindow? && chatManager.reply(chatManager.trace);
                && chatManager.trace == old(chatManager.trace) + (if d.CallWindow? then [d.call] else [])
                && page.disableAutoScroll == changed
                && page.timeouts == old(page.timeouts) + (if changed then [ResetAutoScroll(50)] else [])
                && scrollButton.button == scrollButton.WithVisibility(old(scrollButton.button))
                && overlay.stats.Fields()
                   == Stats.Merge(old(overlay.stats.Fields()), chatManager.GetStats() + GetStats())
                && overlay.element
                   == old(overlay.element).(text := Overlay.StatsText(overlay.stats.Fields()),
                                            display := Overlay.VisibilityDisplay(page.localStorage, overlay.cacheKey))
    {
      if container == null || page.disableAutoScroll {
        return;
      }
      var d := Decide(cfg, MetricsOf(container));
      if d == Ambiguous {
        return;
      }
      MoveWindow(d, page);
      scrollButton.UpdateVisibility();
      overlay.UpdateStats(chatManager.GetStats() + GetStats(), page);
    }

    /**
     * Makes the window call `d` asks for; if it changed the window,
     * suppresses auto-scroll and schedules lifting it in 50 ms.
     */
    method MoveWindow(d: Decision, page: Page)
      requires d.CallWindow? ==> d.call == ScrollWindowUp || d.call == ScrollWindowDown
      requires !page.disableAutoScroll
      modifies page`disableAutoScroll, page`timeouts, chatManager
      ensures chatManager.trace == old(chatManager.trace) + (if d.CallWindow? then [d.call] else [])
      ensures page.disableAutoScroll == (d.CallWindow? && chatManager.reply(chatManager.trace))
      ensures page.timeouts == old(page.timeouts) + (if page.disableAutoScroll then [ResetAutoScroll(50)] else [])
    {
      var changed := false;
      if d == CallWindow(ScrollWindowUp) {
        changed := chatManager.ScrollWindowUp();
      } else if d == CallWindow(ScrollWindowDown) {
        changed := chatManager.ScrollWindowDown();
      }
      if changed {
        page.disableAutoScroll := true;
        page.SetTimeout(ResetAutoScroll(50));
      }
    }

    /**
     * Tells the engine to show the newest messages, suppresses auto-scroll,
     * replaces any running interval by a new one with its attempt count at
     * zero. A null container does nothing. Called without an argument, the
     * source uses the engine's conversation container at that moment; the
     * caller passes that lookup's result as `c`.
     */
    method ForceScrollToBottom(c: Container?, page: Page)
      requires Valid() && page.Valid()
      modifies chatManager, page`disableAutoScroll, page`intervals, page`nextTimerId
      modifies this`scrollIntervalId, this`tickAttempts, this`tickContainer
      ensures Valid() && page.Valid()
      ensures c == null ==> unchanged(chatManager, page, this)
      ensures c != null ==>
                && chatManager.trace == old(chatManager.trace) + [ScrollWindowToBottom]
                && page.disableAutoScroll
                && scrollIntervalId.Some? && scrollIntervalId.value !in old(page.intervals)
                && page.intervals == (old(page.intervals) - (if old(scrollIntervalId).Some? then {old(scrollIntervalId).value} else {}))
                                     + {scrollIntervalId.value}
                && tickAttempts == 0 && tickContainer == c
    {
      if c == null {
        return;
      }
      var _ := chatManager.ScrollWindowToBottom();
      page.disableAutoScroll := true;
      if scrollIntervalId.Some? {
        page.ClearInterval(scrollIntervalId.value);
      }
      var id := page.SetInterval();
      scrollIntervalId := Some(id);
      tickAttempts := 0;
      tickContainer := c;
    }

    /**
     * One tick of the live interval, observing `t`. It counts the attempt and
     * then does what `OnTick` says: stop (clear the interval, forget its id,
     * lift the suppression) or scroll the container down by the offset.
     */
    method Tick(page: Page, t: Tick) returns (action: TickAction)
      requires Valid() && page.Valid()
      requires scrollIntervalId.Some? && scrollIntervalId.value in page.intervals
      modifies this`scrollIntervalId, this`tickAttempts, page`intervals, page`disableAutoScroll
      modifies tickContainer`scrollTop
      ensures Valid() && page.Valid()
      ensures tickAttempts == old(tickAttempts) + 1
      ensures action == OnTick(tickAttempts, t)
      ensures action.Stop? ==>
                && scrollIntervalId == None
                && page.intervals == old(page.intervals) - {old(scrollIntervalId).value}
                && !page.disableAutoScroll
                && tickContainer.scrollTop == old(tickContainer.scrollTop)
      ensures action.Adjust? ==>
                && scrollIntervalId == old(scrollIntervalId)
                && page.intervals == old(page.intervals)
                && page.disableAutoScroll == old(page.disableAutoScroll)
                && tickContainer.scrollTop == old(tickContainer.scrollTop) + action.amount
    {
      tickAttempts := tickAttempts + 1;
      action := OnTick(tickAttempts, t);
      match action
      case Stop =>
        page.ClearInterval(scrollIntervalId.value);
        scrollIntervalId := None;
        page.disableAutoScroll := false;
      case Adjust(amount) =>
        tickContainer.scrollTop := tickContainer.scrollTop + amount;
    }

    /** Clears the interval and removes the scroll listener. */
    method Destroy(page: Page)
      requires page.Valid()
      modifies page`intervals, this`listeningOn
      ensures page.Valid()
      ensures page.intervals == old(page.intervals) - (if scrollIntervalId.Some? then {scrollIntervalId.value} else {})
      ensures listeningOn == old(listeningOn) - (if container == null then {} else {container})
    {
      if scrollIntervalId.Some? {
        page.ClearInterval(scrollIntervalId.value);
      }
      if container != null {
        listeningOn := listeningOn - {container};
      }
    }
  }

  /** What `init` did. */
  datatype InitOutcome =
    | ContainerMissing                      // retry scheduled
    | NativeButtonMissing(warned: bool)     // retry scheduled; `warned` for the first three misses only
    | Injected

  class ScrollButton {
    const chatManager: VirtualChatManager
    const cfg: Config
    const lifeCycleManager: LifeCycle.LifecycleManager<ButtonCleanup>
    var scrollManager: ScrollManager?
    var button: Option<Button>
    var container: Container?
    var nativeButtonRetryCount: nat
    /** How many `bind` calls have been made: the next bound handler's id. */
    var binds: HandlerId

    constructor (chatManager: VirtualChatManager, cfg: Config)
      ensures this.chatManager == chatManager && this.cfg == cfg
      ensures fresh(lifeCycleManager) && lifeCycleManager.cleanupFns == [] && lifeCycleManager.invoked == []
      ensures scrollManager == null && button == None && container == null
      ensures nativeButtonRetryCount == 0 && binds == 0
    {
      this.chatManager := chatManager;
      this.cfg := cfg;
      lifeCycleManager := new LifeCycle.LifecycleManager();
      scrollManager := null;
      button := None;
      container := null;
      nativeButtonRetryCount := 0;
      binds := 0;
    }

    /**
     * Takes the container the engine's lookup just returned (`found`) and the
     * page's own scroll button `nativeBtn`, as each retry looks them up again;
     * if either is missing, schedules another `init` in 1000 ms. Otherwise
     * hides the native button, injects the custom one with a fresh click
     * handler, and registers the cleanups that undo both.
     */
    method Init(page: Page, found: Container?, nativeBtn: Element?) returns (outcome: InitOutcome)
      modifies this`container, this`nativeButtonRetryCount, this`button, this`binds
      modifies lifeCycleManager`cleanupFns, page`timeouts
      modifies if nativeBtn == null then {} else {nativeBtn}
      ensures nativeBtn != null ==> nativeBtn.testid == old(nativeBtn.testid)
      ensures container == found
      ensures outcome == ContainerMissing <==> container == null
      ensures outcome.NativeButtonMissing? <==> container != null && nativeBtn == null
      ensures outcome.NativeButtonMissing? ==>
                outcome.warned == (old(nativeButtonRetryCount) < 3)
                && nativeButtonRetryCount == old(nativeButtonRetryCount) + 1
      ensures !outcome.NativeButtonMissing? ==> nativeButtonRetryCount == old(nativeButtonRetryCount)
      ensures !outcome.Injected? ==>
                && page.timeouts == old(page.timeouts) + [RetryScrollButtonInit(1000)]
                && button == old(button) && binds == old(binds)
                && lifeCycleManager.cleanupFns == old(lifeCycleManager.cleanupFns)
                && (nativeBtn != null ==> nativeBtn.display == old(nativeBtn.display))
      ensures outcome.Injected? ==>
                && nativeBtn != null && nativeBtn.display == "none"
                && button == Some(InjectedButton(old(binds))) && binds == old(binds) + 1
                && lifeCycleManager.cleanupFns == old(lifeCycleManager.cleanupFns) + InitCleanups(old(binds))
                && page.timeouts == old(page.timeouts)
    {
      container := found;
      if container == null {
        page.SetTimeout(RetryScrollButtonInit(1000));
        return ContainerMissing;
      }
      if nativeBtn == null {
        var warned := nativeButtonRetryCount < 3;
        nativeButtonRetryCount := nativeButtonRetryCount + 1;
        page.SetTimeout(RetryScrollButtonInit(1000));
        return NativeButtonMissing(warned);
      }
      nativeBtn.display := "none";
      var handler := binds;
      binds := binds + 1;
      button := Some(Button(CustomScrollButtonId, "", {handler}, true));
      lifeCycleManager.Register(RemoveClickListener(handler));
      lifeCycleManager.Register(RemoveCustomButton);
      outcome := Injected;
    }

    /**
     * The click handler: always stops the event. With a container it
     * suppresses auto-scroll, rebuilds the engine's cache and window and
     * resynchronises the container, forces the scroll to the bottom through
     * the scroll manager if there is one, and schedules lifting the
     * suppression in 1500 ms.
     */
    method HandleClick(e: ClickEvent, page: Page)
      requires page.Valid()
      requires scrollManager != null ==> scrollManager.Valid()
      modifies e`defaultPrevented, e`propagationStopped
      modifies page`disableAutoScroll, page`timeouts, page`intervals, page`nextTimerId, chatManager
      modifies if scrollManager == null then {} else {scrollManager, scrollManager.chatManager}
      ensures e.defaultPrevented && e.propagationStopped
      ensures page.Valid()
      ensures container == null ==> unchanged(page, chatManager) && (scrollManager != null ==> unchanged(scrollManager))
      ensures container != null ==>
                && page.disableAutoScroll
                && page.timeouts == old(page.timeouts) + [ResetAutoScroll(1500)]
      ensures container != null && scrollManager == null ==>
                && chatManager.trace == old(chatManager.trace) + [RebuildMessageCache, UpdateWindowIndices, ResyncDOM(container)]
                && page.intervals == old(page.intervals) && page.nextTimerId == old(page.nextTimerId)
      ensures scrollManager != null ==>
                && scrollManager.container == old(scrollManager.container)
                && scrollManager.listeningOn == old(scrollManager.listeningOn)
      ensures container != null && scrollManager != null ==>
                && scrollManager.Valid()
                && scrollManager.tickContainer == container && scrollManager.tickAttempts == 0
                && scrollManager.scrollIntervalId.Some?
                && scrollManager.scrollIntervalId.value !in old(page.intervals)
                && page.intervals
                   == (old(page.intervals)
                       - (if old(scrollManager.scrollIntervalId).Some? then {old(scrollManager.scrollIntervalId).value} else {}))
                      + {scrollManager.scrollIntervalId.value}
      ensures container != null && scrollManager != null && scrollManager.chatManager == chatManager ==>
                chatManager.trace == old(chatManager.trace)
                                     + [RebuildMessageCache, UpdateWindowIndices, ResyncDOM(container), ScrollWindowToBottom]
      ensures container != null && scrollManager != null && scrollManager.chatManager != chatManager ==>
                && chatManager.trace == old(chatManager.trace) + [RebuildMessageCache, UpdateWindowIndices, ResyncDOM(container)]
                && scrollManager.chatManager.trace == old(scrollManager.chatManager.trace) + [ScrollWindowToBottom]
    {
      e.defaultPrevented := true;
      e.propagationStopped := true;
      if container == null {
        return;
      }
      page.disableAutoScroll := true;
      chatManager.RebuildMessageCache();
      chatManager.UpdateWindowIndices();
      chatManager.ResyncDOM(container);
      if scrollManager != null {
        scrollManager.ForceScrollToBottom(container, page);
      }
      page.SetTimeout(ResetAutoScroll(1500));
    }

    /** The button after `updateVisibility`, from the container's current metrics. */
    function WithVisibility(b: Option<Button>): Option<Button>
      reads this, container
    {
      if b.None? || container == null then b
      else Some(b.value.(display := ButtonDisplay(MetricsOf(container), cfg.dynamicBottomRatio)))
    }

    /** Hides the button near the bottom and shows it elsewhere; without a button or container, does nothing. */
    method UpdateVisibility()
      modifies this`button
      ensures button == WithVisibility(old(button))
      ensures old(button).None? || container == null ==> button == old(button)
      ensures old(button).Some? && container != null ==>
                && button.Some?
                && (button.value.display == "none" <==> NearBottom(MetricsOf(container), cfg.dynamicBottomRatio))
                && button.value.(display := old(button).value.display) == old(button).value
    {
      if button.None? || container == null {
        return;
      }
      button := Some(button.value.(display := ButtonDisplay(MetricsOf(container), cfg.dynamicBottomRatio)));
    }

    method SetScrollManager(sm: ScrollManager)
      modifies this`scrollManager
      ensures scrollManager == sm
    {
      scrollManager := sm;
    }

    /** Runs every registered cleanup once, in order, and applies each to the button. */
    method Destroy()
      modifies lifeCycleManager, this`button
      ensures lifeCycleManager.invoked == old(lifeCycleManager.invoked) + old(lifeCycleManager.cleanupFns)
      ensures lifeCycleManager.cleanupFns == []
      ensures button == ApplyCleanups(old(button), old(lifeCycleManager.cleanupFns))
    {
      var fns := lifeCycleManager.cleanupFns;
      lifeCycleManager.CleanupAll();
      for i := 0 to |fns|
        invariant lifeCycleManager.invoked == old(lifeCycleManager.invoked) + fns
        invariant lifeCycleManager.cleanupFns == []
        invariant button == ApplyCleanups(old(button), fns[..i])
      {
        ApplyCleanupsSnoc(old(button), fns[..i], fns[i]);
        assert fns[..i + 1] == fns[..i] + [fns[i]];
        button := ApplyCleanup(button, fns[i]);
      }
      assert fns[..|fns|] == fns;
    }
  }
}
