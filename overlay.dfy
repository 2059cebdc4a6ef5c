/**
 * The debug overlay (src/components/OverlayUI.ts): a panel showing the
 * statistics, whose visibility is persisted in `localStorage` under a fixed key.
 */
module Overlay {
  import opened Wrappers
  import opened Browser
  import opened Config
  import Stats = Statistics

  /** `cacheKey`. */
  const CacheKey: string := "overlayVisible"

  /** The text shown while no message has been counted. */
  const WaitingText: string := "Waiting for messages..."

  /** The overlay element: its id, `innerText`, `style.display`, and whether it is a child of `document.body`. */
  datatype Panel = Panel(id: string, text: string, display: string, inBody: bool)

  /** `#isCacheSet`: the key holds some value. */
  predicate IsCacheSet(store: map<string, string>, key: string) {
    key in store
  }

  /** `#isCachedVisible`: the key holds exactly "true". */
  predicate IsCachedVisible(store: map<string, string>, key: string) {
    key in store && store[key] == "true"
  }

  /** `#setCachedVisibility`. */
  function SetCachedVisibility(store: map<string, string>, key: string, isVisible: bool): map<string, string> {
    store[key := if isVisible then "true" else "false"]
  }

  /** The store after `toggle`. */
  function Toggled(store: map<string, string>, key: string): map<string, string> {
    SetCachedVisibility(store, key, !IsCachedVisible(store, key))
  }

  /** `#enforceVisibility`: the display style the stored flag calls for. */
  function VisibilityDisplay(store: map<string, string>, key: string): string {
    if IsCachedVisible(store, key) then "block" else "none"
  }

  /** The text `updateStats` shows for the given statistics fields. */
  function StatsText(f: Stats.FieldValues): string {
    if f[1] == Stats.Num(0.0) then WaitingText else Stats.Join(Stats.Lines(f))
  }

  /** Writing a visibility and reading it back gives that visibility, and the key is then set. */
  lemma SetThenRead(store: map<string, string>, key: string, isVisible: bool)
    ensures IsCacheSet(SetCachedVisibility(store, key, isVisible), key)
    ensures IsCachedVisible(SetCachedVisibility(store, key, isVisible), key) == isVisible
    ensures forall k :: k in store && k != key ==> SetCachedVisibility(store, key, isVisible)[k] == store[k]
  {
  }

  /** `toggle` flips the visibility and leaves the stored value canonical. */
  lemma ToggleFlips(store: map<string, string>, key: string)
    ensures IsCachedVisible(Toggled(store, key), key) == !IsCachedVisible(store, key)
    ensures Toggled(store, key)[key] == "true" || Toggled(store, key)[key] == "false"
  {
  }

  /**
   * Toggling twice restores the visibility; it restores the store itself when
   * the stored value was "true" or "false" (any other value becomes "false").
   */
  lemma ToggleTwice(store: map<string, string>, key: string)
    ensures IsCachedVisible(Toggled(Toggled(store, key), key), key) == IsCachedVisible(store, key)
    ensures key in store && (store[key] == "true" || store[key] == "false") ==>
              Toggled(Toggled(store, key), key) == store
  {
  }

  /** The waiting text is shown exactly when the total count is the number 0. */
  lemma WaitingIffNoTurns(f: Stats.FieldValues)
    ensures StatsText(f) == WaitingText <==> f[1] == Stats.Num(0.0)
  {
    if f[1] != Stats.Num(0.0) {
      var ls := Stats.Lines(f);
      var first := Stats.FirstLine(f);
      assert ls[0] == first && |ls| == 6;
      assert first[0] == 'M';
      assert Stats.Join(ls) == first + "\n" + Stats.Join(ls[1..]);
      assert Stats.Join(ls)[0] == 'M';
      assert WaitingText[0] == 'W';
    }
  }

  class OverlayUI {
    /** `overlayHTMLElement`: never null once constructed. */
    var element: Panel
    const cacheKey: string
    const stats: Stats.Statistics

    /**
     * Adopts the existing overlay element or creates and appends a new one,
     * stores `overlayEnabled` under the key if the key is unset, and applies
     * the stored visibility.
     */
    constructor (page: Page, overlayEnabled: bool, existing: Option<Panel>)
      modifies page`localStorage
      ensures cacheKey == CacheKey && fresh(stats) && stats.Fields() == Stats.Defaults
      ensures IsCacheSet(page.localStorage, CacheKey)
      ensures old(IsCacheSet(page.localStorage, CacheKey)) ==> page.localStorage == old(page.localStorage)
      ensures !old(IsCacheSet(page.localStorage, CacheKey)) ==>
                page.localStorage == SetCachedVisibility(old(page.localStorage), CacheKey, overlayEnabled)
      ensures element == (if existing.Some? then existing.value else Panel(DebugOverlayId, "", "", true))
                           .(display := VisibilityDisplay(page.localStorage, CacheKey))
    {
      cacheKey := CacheKey;
      stats := new Stats.Statistics();
      var panel := if existing.Some? then existing.value else Panel(DebugOverlayId, "", "", true);
      if !IsCacheSet(page.localStorage, CacheKey) {
        page.localStorage := SetCachedVisibility(page.localStorage, CacheKey, overlayEnabled);
      }
      element := panel.(display := VisibilityDisplay(page.localStorage, CacheKey));
    }

    /** `#enforceVisibility`. */
    method EnforceVisibility(page: Page)
      modifies this`element
      ensures element == old(element).(display := VisibilityDisplay(page.localStorage, cacheKey))
    {
      element := element.(display := VisibilityDisplay(page.localStorage, cacheKey));
    }

    /** Merges `obj` into the statistics, renders them, and re-applies the stored visibility. */
    method UpdateStats(obj: map<string, Stats.Value>, page: Page)
      modifies this`element, stats
      ensures stats.Fields() == Stats.Merge(old(stats.Fields()), obj)
      ensures element == old(element).(text := StatsText(stats.Fields()),
                                       display := VisibilityDisplay(page.localStorage, cacheKey))
    {
      stats.Update(obj);
      var text;
      if stats.turnsTotal == Stats.Num(0.0) {
        text := WaitingText;
      } else {
        text := stats.ToString();
      }
      element := element.(text := text);
      EnforceVisibility(page);
    }

    /** Flips the stored visibility and applies it. */
    method Toggle(page: Page)
      modifies page`localStorage, this`element
      ensures page.localStorage == Toggled(old(page.localStorage), cacheKey)
      ensures element == old(element).(display := VisibilityDisplay(page.localStorage, cacheKey))
    {
      page.localStorage := SetCachedVisibility(page.localStorage, cacheKey, !IsCachedVisible(page.localStorage, cacheKey));
      EnforceVisibility(page);
    }

    /**
     * Removes the element from the body and the key from the store. Removing
     * an element that is not a child of the body throws before the key is removed.
     */
    method Destroy(page: Page) returns (r: Outcome<string>)
      modifies page`localStorage, this`element
      ensures old(element.inBody) ==> r == Pass && element == old(element).(inBody := false)
                                      && page.localStorage == old(page.localStorage) - {cacheKey}
      ensures !old(element.inBody) ==> r == Fail("NotFoundError") && element == old(element)
                                       && page.localStorage == old(page.localStorage)
    {
      if !element.inBody {
        return Fail("NotFoundError");
      }
      element := element.(inBody := false);
      page.localStorage := page.localStorage - {cacheKey};
      r := Pass;
    }
  }
}
