# ChatGPT Long Chat Optimiser — the decision and bookkeeping layer, in Dafny

The extension keeps very long ChatGPT conversations responsive by showing only
a window of the conversation turns. A windowing engine (`VirtualChatManager`)
owns that window. This project models the layer around the engine, which decides
when to call it and keeps its own state:

- **Scroll manager.** It watches the conversation container's scroll position.
  It computes adaptive top and bottom thresholds and asks the engine to move the
  window up or down. While a move settles, it suppresses auto-scroll through the
  page-wide `disableAutoScroll` flag. It can also force the view to the bottom
  with a bounded sequence of interval ticks.
- **Scroll button.** It replaces the page's own scroll-to-bottom button. The
  button is hidden near the bottom, and a click runs the rebuild-and-scroll
  pipeline. It retries `init` until the container and the native button exist,
  and registers the cleanups that undo the injection.
- **Mutation watcher.** It scans each batch of DOM mutations for conversation
  turns and offers them to the engine. Once the engine reports that its cache
  grew, it stops offering (`||=`). It then runs rebuild → update window →
  resync once and refreshes the overlay.
- **Debug overlay.** Its visibility is persisted in `localStorage` under
  `overlayVisible`. It renders the statistics record.
- **Statistics record.** Five fields in a fixed order, a selective merge
  (`update`) and a line-by-line rendering (`toString`).
- **Cleanup registry** (`LifecycleManager`).
- **Stable node ids** (`getNodeId`).
- **Content script.** Its URL-change detector and its message dispatch.

How the model is built:

- **The engine is an abstract collaborator.** Every call made on it is appended
  to a call trace. Every answer it gives is a fixed function of the trace so
  far; these answers are the booleans of `addNewNode` and the window moves,
  and the statistics. Nothing about its cache or window is assumed. Its
  container lookups read the page, where the container appears on its own
  schedule, so each lookup's result is a parameter of the member that makes
  it (`TryBind`, `Init`, `ForceScrollToBottom`). The trace is an ordinary (non-ghost) field, because the answers are
  computed from it at run time.
- **Browser state.** The `window` globals are a `Page` object passed to the
  methods: the suppression flag, pending `setTimeout` callbacks, live
  intervals, `localStorage` as a string map, and `location.href`.
- **Timers.** Time does not pass by itself. A pending callback runs when
  `Page.FireTimeout` is called. An interval's callback is the method for one
  tick (`ScrollManager.Tick`), called while the interval is live.
- **Numbers.** Scroll metrics and statistics are exact reals. Decimal text is
  written out digit by digit, and `toFixed(0)` rounds half up, including the
  "-0" it gives for small negative values.

## Model

| member | source | states |
|---|---|---|
| Decimal.NatText | src/utils/utils.ts:14 | the decimal text of a natural number is non-empty, all digits, and has no leading zero |
| Decimal.NatTextRoundTrip | src/utils/utils.ts:14 | reading the digits of `NatText(n)` back gives `n` |
| Decimal.RoundHalfUp | src/utils/Statistics.ts:35 | the integer `toFixed(0)` shows for a non-negative number is within half a unit of it, and ties go up |
| Decimal.ToFixedOfWhole | src/utils/Statistics.ts:35 | `toFixed(0)` of a whole number is its plain decimal text |
| Decimal.ToFixedOfSmallNegative | src/utils/Statistics.ts:35 | `toFixed(0)` of a number strictly between -0.5 and 0 is "-0" |
| Statistics.MergeIgnoresForeignKeys | src/utils/Statistics.ts:22-24 | `update` only looks at the five own keys; any other key of the object has no effect |
| Statistics.MergeField | src/utils/Statistics.ts:23-28 | after `update`, a field whose key is in the object holds the object's value, and every other field is unchanged |
| Statistics.MergeIdempotent | src/utils/Statistics.ts:18-32 | applying the same object twice equals applying it once |
| Statistics.MergeSequential | src/utils/Statistics.ts:18-32 | two updates in a row equal one update with the spread `{...a, ...b}` of both objects |
| Statistics.FormatOfWholeNumber | src/utils/Statistics.ts:34-38 | for a whole number, `#format` and the first line's template rendering agree |
| Statistics.SplitJoin | src/utils/Statistics.ts:51 | joining lines without newlines by "\n" and splitting again gives back the same lines |
| Statistics.RenderedLines | src/utils/Statistics.ts:41-51 | when no field value contains a newline, the rendering splits into exactly six lines: "Messages: visible / total", then one "key: formatted value" line per field in declaration order |
| Statistics.Statistics.constructor | src/utils/Statistics.ts:10-16 | a new record holds 0, 0, null, null, null |
| Statistics.Statistics.Update | src/utils/Statistics.ts:18-32 | the loop leaves the fields equal to the merge of the old fields with the object |
| Statistics.Statistics.ToString | src/utils/Statistics.ts:41-52 | the loop's output is the join of the first line and the five field lines |
| LifeCycle.LifecycleManager.constructor | src/managers/LifeCycleManager.ts:4-6 | a new registry has no callbacks and has invoked none |
| LifeCycle.LifecycleManager.Register | src/managers/LifeCycleManager.ts:8-10 | the callback is appended last and earlier entries are unchanged |
| LifeCycle.LifecycleManager.CleanupAll | src/managers/LifeCycleManager.ts:12-15 | every registered callback is invoked once, in registration order, and the list is then empty |
| LifeCycle.CleanupAllTwice | src/managers/LifeCycleManager.ts:12-15 | two consecutive `cleanupAll` calls invoke each callback once in total |
| ChatEngine.VirtualChatManager.AddNewNode | src/content/MutationWatcher.ts:58 | the call is appended to the engine's trace, and the result is the engine's reply to that trace |
| ChatEngine.VirtualChatManager.ScrollWindowUp | src/managers/ScrollManager.ts:113 | the call is appended to the trace, and the result is the engine's reply |
| ChatEngine.VirtualChatManager.ScrollWindowDown | src/managers/ScrollManager.ts:122 | the call is appended to the trace, and the result is the engine's reply |
| ChatEngine.VirtualChatManager.ScrollWindowToBottom | src/managers/ScrollManager.ts:151 | the call is appended to the trace, and the result is the engine's reply |
| ChatEngine.VirtualChatManager.RebuildMessageCache | src/content/MutationWatcher.ts:35 | the call is appended to the trace |
| ChatEngine.VirtualChatManager.UpdateWindowIndices | src/content/MutationWatcher.ts:36 | the call is appended to the trace |
| ChatEngine.VirtualChatManager.ResyncDOM | src/components/ScrollButton.ts:96 | the call, with its container argument or null, is appended to the trace |
| Browser.Page.FireTimeout | src/managers/ScrollManager.ts:127-129 | a pending callback runs once and is removed; the auto-scroll reset clears the flag, and other callbacks leave it alone |
| Browser.Page.SetInterval | src/managers/ScrollManager.ts:158 | a new interval gets a positive id that no live interval has |
| ScrollTriggers.AdjustedThreshold | src/managers/ScrollManager.ts:90-91 | the adjusted threshold is the minimum of the configured threshold and half the viewport, so it is never more than half the viewport |
| ScrollTriggers.Decide | src/managers/ScrollManager.ts:93-123 | ambiguous iff both triggers hold; `scrollWindowUp` iff only the top trigger holds; `scrollWindowDown` iff only the bottom trigger holds; never both |
| ScrollTriggers.AmbiguousOnlyOnShortContent | src/managers/ScrollManager.ts:93-103 | both triggers can hold only when the content is shorter than the viewport plus both adjusted thresholds, so shorter than two viewports |
| ScrollTriggers.TopTriggerWithinHalfViewport | src/managers/ScrollManager.ts:90-93 | the top trigger fires only within half a viewport of the top and below the configured threshold |
| ScrollTriggers.NearBottomIsUpwardClosed | src/components/ScrollButton.ts:114-118 | scrolling further down never makes a hidden button reappear |
| ScrollTriggers.BottomTriggerHidesButton | src/components/ScrollButton.ts:114-116 | if the button's bottom band is at least the adjusted bottom threshold, the manager's bottom trigger implies the button is hidden |
| ScrollTriggers.RunIsBounded | src/managers/ScrollManager.ts:158-184 | after `done` ticks, the interval stops within `10 - done` more ticks whatever it observes; every tick except the stopping one moves scrollTop down by more than 5 |
| ScrollTriggers.ForceScrollStops | src/managers/ScrollManager.ts:154-184 | from a fresh start the interval runs at most 10 ticks with at most 9 scrollTop adjustments, and 10 ticks always stop it |
| Overlay.SetThenRead | src/components/OverlayUI.ts:55-65 | after writing a visibility, the key is set and reads back as that visibility; other keys are untouched |
| Overlay.ToggleFlips | src/components/OverlayUI.ts:98-100 | `toggle` flips the visibility and stores "true" or "false" |
| Overlay.ToggleTwice | src/components/OverlayUI.ts:98-100 | toggling twice restores the visibility; it restores the store exactly when the stored value was "true" or "false" |
| Overlay.WaitingIffNoTurns | src/components/OverlayUI.ts:80-83 | the text is "Waiting for messages..." iff turnsTotal is the number 0, and the rendered statistics otherwise |
| Overlay.OverlayUI.constructor | src/components/OverlayUI.ts:14-53 | the overlay adopts the existing element or creates one in the body; afterwards the key is set, holding `OVERLAY_ENABLED` if it was unset and untouched otherwise; the stored visibility is applied |
| Overlay.OverlayUI.EnforceVisibility | src/components/OverlayUI.ts:88-93 | display is "block" iff the stored value is exactly "true", else "none" |
| Overlay.OverlayUI.UpdateStats | src/components/OverlayUI.ts:75-86 | the statistics become the merge with the object; then the text is chosen from the merged record and the visibility is re-applied |
| Overlay.OverlayUI.Toggle | src/components/OverlayUI.ts:98-102 | the store becomes the toggled store and the new visibility is applied |
| Overlay.OverlayUI.Destroy | src/components/OverlayUI.ts:104-108 | an overlay in the body is removed and the key deleted; otherwise `removeChild` fails with NotFoundError and the key stays |
| Scroll.ScrollStatsFillScrollFields | src/managers/ScrollManager.ts:44-54 | merging the scroll statistics sets the three scroll fields to the container's metrics, or to zero without a container, and keeps the message counts |
| Scroll.ButtonDisplay | src/components/ScrollButton.ts:114-118 | the button gets display "none" iff scrollTop + clientHeight ≥ scrollHeight − clientHeight·ratio |
| Scroll.ApplyCleanupsOnlyRemoves | src/components/ScrollButton.ts:67-73 | the cleanups only remove listeners and detach the button; they never add one or change its id or display |
| Scroll.AsWrittenDestroyKeepsListener | src/components/ScrollButton.ts:66-69 | with the cleanup as written, `destroy` after `init` detaches the button but leaves its click listener |
| Scroll.DestroyUndoesInit | src/components/ScrollButton.ts:66-73 | with the bound handler kept, the two cleanups `init` registers detach the button and remove its listener, whatever was registered before them |
| Scroll.ScrollManager.constructor | src/managers/ScrollManager.ts:25-37 | the manager stores its collaborators, has no interval, and makes one attach attempt with the container the lookup returned |
| Scroll.ScrollManager.TryBind | src/managers/ScrollManager.ts:63-76 | the container is the one the lookup just returned; with one, the scroll listener is registered on it; without one, a retry is scheduled in 500 ms, and the retry looks again |
| Scroll.ScrollManager.UpdateIfNeeded | src/managers/ScrollManager.ts:83-140 | with no container, with the flag set, or with both triggers, nothing changes. Otherwise exactly the triggered window call is made. The flag is set and a 50 ms reset is scheduled iff that call returned true. Then the button visibility and the overlay statistics (engine stats spread with scroll stats) are refreshed |
| Scroll.ScrollManager.MoveWindow | src/managers/ScrollManager.ts:105-130 | the one decided window call is made; the flag is set, and a 50 ms reset scheduled, exactly when that call returned true |
| Scroll.ScrollManager.ForceScrollToBottom | src/managers/ScrollManager.ts:148-158 | a null container changes nothing. Otherwise `scrollWindowToBottom` is called once and the flag is set. The old interval is cleared and a fresh one started with zero attempts on that container; the live intervals are the old ones less the old id plus the new id. Without an argument the container is the engine's conversation container, which the caller passes |
| Scroll.ScrollManager.Tick | src/managers/ScrollManager.ts:158-184 | the attempt is counted. A stop clears the interval, forgets its id and lifts the suppression. An adjustment moves scrollTop down by the offset. The manager keeps fewer than 10 attempts while its interval is set |
| Scroll.ScrollManager.Destroy | src/managers/ScrollManager.ts:190-196 | the force-scroll interval is cleared and the scroll listener removed from the container |
| Scroll.ScrollButton.constructor | src/components/ScrollButton.ts:23-30 | no manager, button or container; zero retries; a fresh empty registry |
| Scroll.ScrollButton.Init | src/components/ScrollButton.ts:36-76 | a missing container or native button schedules a retry in 1000 ms. A missing native button increments the retry count and warns only while the count was below 3. Success hides the native button, injects the custom one with a fresh handler, and registers exactly two cleanups, the corrected `InitCleanups` (see Findings and Left out) |
| Scroll.ScrollButton.HandleClick | src/components/ScrollButton.ts:83-103 | default is prevented and propagation stopped. Without a container nothing else happens. Otherwise the flag is set; rebuild, update window and resync(container) run, then the forced scroll on that container, which replaces its old interval by a fresh one; a 1500 ms reset is scheduled. Storage, the URL and the manager's container and listeners stay as they were |
| Scroll.ScrollButton.UpdateVisibility | src/components/ScrollButton.ts:108-124 | nothing changes without a button or container; otherwise only the display changes, to "none" iff near the bottom |
| Scroll.ScrollButton.SetScrollManager | src/components/ScrollButton.ts:130-132 | the manager is stored |
| Scroll.ScrollButton.Destroy | src/components/ScrollButton.ts:134-136 | every registered cleanup runs once in order, and the button is what those cleanups leave of it |
| Ingest.TurnsInSubtreeComplete | src/content/MutationWatcher.ts:56 | the subtree query finds exactly the turns that occur in the subtree |
| Ingest.TurnsInComplete | src/content/MutationWatcher.ts:61-62 | `querySelectorAll` below an element finds exactly the turns that occur below it |
| Ingest.NodeCandidatesExact | src/content/MutationWatcher.ts:53-66 | a non-element adds nothing; a turn is offered itself and nothing below it; any other element offers exactly the turns below it |
| Ingest.OfferAllAppend | src/content/MutationWatcher.ts:51-69 | offering a concatenation means offering its parts one after the other |
| Ingest.OfferAllAfterFound | src/content/MutationWatcher.ts:58-65 | once an offer grew the cache, the remaining candidates are not offered |
| Ingest.OfferAllShape | src/content/MutationWatcher.ts:50-69 | the engine receives `addNewNode` for a prefix of the candidates, in order. Every reply but the last is false. Something was found iff the last reply is true, and with nothing found every candidate was offered |
| Ingest.MutationWatcher.constructor | src/content/MutationWatcher.ts:14-18 | the engine and overlay are stored, and there is no observer |
| Ingest.MutationWatcher.Start | src/content/MutationWatcher.ts:24-32 | without an engine it fails with "MutationWatcher: chatManager is required."; otherwise a new observer is created and connected |
| Ingest.MutationWatcher.Stop | src/content/MutationWatcher.ts:84-87 | the last observer created is disconnected |
| Ingest.MutationWatcher.OfferEach | src/content/MutationWatcher.ts:63-66 | the loop over a query result offers its nodes in order with the short-circuit |
| Ingest.MutationWatcher.OfferRecord | src/content/MutationWatcher.ts:52-68 | the loop over one record's added nodes offers that record's candidates in order |
| Ingest.MutationWatcher.OfferBatch | src/content/MutationWatcher.ts:50-69 | the loop over the records offers the batch's candidates in document order, with the short-circuit |
| Ingest.MutationWatcher.HandleMutations | src/content/MutationWatcher.ts:49-79 | the engine's trace is the batch's offers, followed by rebuild, update window and resync(null) exactly when one offer grew the cache. In that case alone, the overlay (if any) merges the engine's loaded statistics |
| NodeIds.FallbackId | src/utils/utils.ts:14 | a generated id starts with "fallback-" and is longer than it |
| NodeIds.NodeId | src/utils/utils.ts:12-18 | the id is never empty; a non-empty testid is returned as is; a missing or empty one yields the fallback id |
| NodeIds.LeadingDigits | src/utils/utils.ts:14 | the longest all-digit prefix of a string |
| NodeIds.FallbackRoundTrip | src/utils/utils.ts:14 | a fallback id can be read back into the clock reading and random part it was made from |
| NodeIds.FallbackIdsDistinct | src/utils/utils.ts:14 | fallback ids made at different times or with different random parts differ |
| NodeIds.NodeIdIdempotent | src/utils/utils.ts:12-18 | a second call on the node returns the first call's id, whatever the clock and random parts |
| NodeIds.GetNodeId | src/utils/utils.ts:11-19 | the returned id is `NodeId` of the node's old testid; afterwards the node's testid is that id, unchanged if it was non-empty |
| ContentScript.CheckOnce | src/content/content-script.ts:21-25 | after a check the remembered URL is the href, and a reset happens iff the href differed |
| ContentScript.StableHrefResetsAtMostOnce | src/content/content-script.ts:20-26 | repeated checks seeing one href reset once if it differs from the remembered URL, and never otherwise |
| ContentScript.ResetsBounds | src/content/content-script.ts:20-26 | a series of checks resets at most once per check, and not at all iff every href seen is the remembered URL |
| ContentScript.ContentScript.constructor | src/content/content-script.ts:9-60 | the script creates the virtualiser, remembers the href, starts the URL interval, listens to popstate and messages, and registers the four cleanups in that order |
| ContentScript.ContentScript.CheckURL | src/content/content-script.ts:20-26 | `resetVirtualiser` is called iff the href differs from the remembered URL, which then equals the href |
| ContentScript.ContentScript.HandleMessages | src/content/content-script.ts:40-54 | the overlay is toggled iff the action is the toggle action. Exactly one response is sent, with `ok` telling whether it toggled. The result is always true |

## Findings

| source | as written | input that shows it | evidently intended | confidence | as-written member | corrected member |
|---|---|---|---|---|---|---|
| src/components/ScrollButton.ts:66-69 | The cleanup removes `this.handleClick.bind(this)`, a new function object different from the one added at line 66, so `removeEventListener` removes nothing | `init` succeeds, then `destroy` | keep the bound handler from line 66 and remove that same one, so `destroy` leaves no click listener | high; not executed | Scroll.AsWrittenDestroyKeepsListener | Scroll.DestroyUndoesInit |

`ScrollButton.Init` in the model registers the corrected cleanup (`InitCleanups`).
`Scroll.InitCleanupsAsWritten` records what the source registers.

## Left out

- The windowing engine `VirtualChatManager`: its source is not part of this model. Its answers are functions of its call trace, and no cache or window behaviour is assumed. Its container lookups are parameters of their callers, so the model does not relate one lookup's result to the next.
- Scroll.ScrollButton.Init: registers the corrected cleanups (`InitCleanups`), so the model's `Destroy` removes the click listener, which the source as written leaves on the button. The source's own cleanups are `InitCleanupsAsWritten`, and `AsWrittenDestroyKeepsListener` states what they leave.
- src/managers/Virtualiser.ts: its container discovery and component wiring are not part of this model. The content script's virtualiser only records the calls it receives.
- src/background/background.ts: the `chrome.tabs` and `chrome.commands` messaging is not part of this model.
- The configuration values (`CONFIG.*`) and `ACTIONS.TOGGLE_DEBUG_OVERLAY` come from a module that is not part of this model. They are a `Config` record given to the components.
- Logging through `Logger`: console output only. The scroll button's warning decision is kept as the `warned` flag of `InitOutcome`.
- Timer durations are kept as numbers on the scheduled callbacks, but time does not advance. Retries of `tryBind` and `init` are recorded as pending callbacks, and their caller runs them again.
- src/managers/ScrollManager.ts:73: the timeout returns the handler without calling it, so it has no effect. It is not modelled, and `destroy` clears only the force-scroll interval.
- `OverlayUI.getInstance()` (src/managers/ScrollManager.ts:136) is not defined in src/components/OverlayUI.ts. The overlay is passed to `UpdateIfNeeded` as a parameter.
- `getBoundingClientRect` geometry: each tick observes whether the container has a last child and that child's offset below the container.
- The browser clamps an assigned `scrollTop` to the scrollable range. The model adds the offset exactly.
- `cloneNode`: the injected button carries only its id, display, click listeners and whether it is in the page. A native button without a parent element is not modelled.
- A second successful `init` would make `removeChild` throw on the second removal. The model's removal is idempotent.
- Scroll button cleanups take effect when `destroy` runs them. The registry records each callback as a value, and the button applies each one's effect in the same order. The content script's cleanups are only recorded, since nothing in the script runs them.
- `LifeCycle.LifecycleManager.CleanupAll`: a callback that registers another callback while `cleanupAll` runs is not modelled.
- Statistics.NumberText: `String(n)` of a fractional number in the "Messages:" line is JavaScript's shortest decimal. The model rounds it as `toFixed(0)` does; whole numbers are exact.
- `toFixed(0)` for magnitudes of 1e21 or more (exponent form), and NaN, Infinity and -0 as inputs, are not modelled, since the numbers are exact reals.
- Values reaching a statistics field are undefined, null, booleans, numbers, strings or objects carrying their JSON text. Arrays, functions and symbols are not modelled, and neither are inherited properties seen by `key in obj`.
- The selector match of an added element is a boolean per element. An element without `matches` or `querySelectorAll` is not modelled.
- `Date.now()` and `Math.random().toString(36).slice(2)` are parameters. That the random part holds base-36 digits is not checked.
- The `chrome.runtime` listener and the `popstate` listener are flags. The message's sender is ignored, and a non-string `action` counts as no action.
- Concurrency: everything runs on one event loop. An interleaving of events is a sequence of method calls.
