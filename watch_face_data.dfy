/**
 * `WatchFaceData`: the immutable style snapshot the renderer draws from. As a
 * Kotlin data class it compares field by field, which is exactly Dafny's
 * equality on a datatype, and `copy(field = v)` is the update `d.(field := v)`.
 */
module WatchFaceData {

  /**
   * `ColorStyleIdAndResourceIds`. The enum's own file is not part of this
   * model; its constants are the ones the core files name.
   */
  datatype ColorStyleIdAndResourceIds = Ambient | Red | Green | Blue | White

  const SHOW_TIME_DEFAULT: bool := true

  /**
   * Default of the hour-pips flag. The declared record has no such field (the
   * renderer's merge nevertheless copies one); `true` is this model's choice.
   */
  const DRAW_HOUR_PIPS_DEFAULT: bool := true

  datatype WatchFaceData = WatchFaceData(
    highlightColorStyle: ColorStyleIdAndResourceIds,
    ambientColorStyle: ColorStyleIdAndResourceIds,
    showTime: bool,
    drawHourPips: bool)

  /** `WatchFaceData()` with every parameter left at its default. */
  function DefaultWatchFaceData(): (d: WatchFaceData)
    ensures d.highlightColorStyle == Red
    ensures d.ambientColorStyle == Ambient
    ensures d.showTime == SHOW_TIME_DEFAULT == true
    ensures d.drawHourPips == DRAW_HOUR_PIPS_DEFAULT
  {
    WatchFaceData(Red, Ambient, SHOW_TIME_DEFAULT, DRAW_HOUR_PIPS_DEFAULT)
  }
}
