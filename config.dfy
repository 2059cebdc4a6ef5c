/**
 * Configuration read by the components. The numeric and boolean settings come
 * from a configuration module that is not part of this model, so they are a
 * record given to each component; the element ids are the fixed constants of
 * src/config/constants.ts.
 */
module Config {

  /** The `CONFIG` settings and the toggle action name the components consult. */
  datatype Config = Config(
    topThreshold: real,         // CONFIG.TOP_THRESHOLD
    bottomThreshold: real,      // CONFIG.BOTTOM_THRESHOLD
    dynamicBottomRatio: real,   // CONFIG.DYNAMIC_BOTTOM_RATIO
    overlayEnabled: bool,       // CONFIG.OVERLAY_ENABLED
    toggleDebugOverlay: string  // ACTIONS.TOGGLE_DEBUG_OVERLAY
  )

  /** IDS.DEBUG_OVERLAY */
  const DebugOverlayId: string := "tm-debug-overlay"

  /** IDS.CUSTOM_SCROLL_BUTTON */
  const CustomScrollButtonId: string := "custom-scroll-button"
}
