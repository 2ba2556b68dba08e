/**
 * `WatchFaceConfigActivity`: the settings screen. Its widgets' `isEnabled`
 * and `isChecked` flags are fields here; the state holder, whose file is not
 * part of this model, is reduced to the colour-style id and show-time flag it
 * stores. Each value the UI-state flow emits is one call of OnUiState.
 */
module WatchFaceConfigActivity {

  /** Colour-style ids; their file is not part of this model, and only their being different matters. */
  const WHITE_COLOR_STYLE_ID: string := "white_style_id"
  const BLUE_COLOR_STYLE_ID: string := "blue_style_id"
  const GREEN_COLOR_STYLE_ID: string := "green_style_id"
  const RED_COLOR_STYLE_ID: string := "red_style_id"

  /** The cycle the colour button walks through. */
  const ColorIds: seq<string> :=
    [WHITE_COLOR_STYLE_ID, BLUE_COLOR_STYLE_ID, GREEN_COLOR_STYLE_ID, RED_COLOR_STYLE_ID]

  /** Kotlin's `Array.indexOf`: the first position holding `x`, or -1 when there is none. */
  function IndexOf(s: seq<string>, x: string): (r: int)
    ensures -1 <= r < |s|
    ensures r >= 0 ==> s[r] == x && forall j :: 0 <= j < r ==> s[j] != x
    ensures r == -1 <==> x !in s
  {
    if s == [] then -1
    else if s[0] == x then 0
    else
      var k := IndexOf(s[1..], x);
      if k == -1 then -1 else k + 1
  }

  /**
   * The id `onClickColorStylePickerButton` stores: the one after `current`
   * in the cycle, wrapping from the last to the first; an id outside the
   * cycle (index -1) gives the first, WHITE. Kotlin's `%` truncates, Dafny's
   * is Euclidean; they agree here because `currentIndex + 1` is never negative.
   */
  function NextColorStyleId(current: string): (next: string)
    ensures next in ColorIds
    ensures current !in ColorIds ==> next == WHITE_COLOR_STYLE_ID
    ensures forall k {:trigger ColorIds[k]} :: 0 <= k < |ColorIds| && ColorIds[k] == current ==> next == ColorIds[(k + 1) % 4]
  {
    var currentIndex := IndexOf(ColorIds, current);
    var newIndex := (currentIndex + 1) % |ColorIds|;
    ColorIds[newIndex]
  }

  /** The button walks WHITE, BLUE, GREEN, RED and back to WHITE. */
  lemma ColorCycle()
    ensures NextColorStyleId(WHITE_COLOR_STYLE_ID) == BLUE_COLOR_STYLE_ID
    ensures NextColorStyleId(BLUE_COLOR_STYLE_ID) == GREEN_COLOR_STYLE_ID
    ensures NextColorStyleId(GREEN_COLOR_STYLE_ID) == RED_COLOR_STYLE_ID
    ensures NextColorStyleId(RED_COLOR_STYLE_ID) == WHITE_COLOR_STYLE_ID
  {
    assert ColorIds[0] == WHITE_COLOR_STYLE_ID;
    assert ColorIds[1] == BLUE_COLOR_STYLE_ID;
    assert ColorIds[2] == GREEN_COLOR_STYLE_ID;
    assert ColorIds[3] == RED_COLOR_STYLE_ID;
  }

  /** Four clicks from an id in the cycle come back to it. */
  lemma FourClicksReturn(current: string)
    requires current in ColorIds
    ensures NextColorStyleId(NextColorStyleId(NextColorStyleId(NextColorStyleId(current)))) == current
  {
    ColorCycle();
    var w, b, g, r := WHITE_COLOR_STYLE_ID, BLUE_COLOR_STYLE_ID, GREEN_COLOR_STYLE_ID, RED_COLOR_STYLE_ID;
    assert current == w || current == b || current == g || current == r;
  }

  /** `UserStylesAndPreview`, without the preview bitmap. */
  datatype UserStylesAndPreview = UserStylesAndPreview(colorStyleId: string, showTime: bool)

  /** `EditWatchFaceUiState`; the log text of Loading and Error is kept as a string. */
  datatype EditWatchFaceUiState =
    | Loading(message: string)
    | Success(userStylesAndPreview: UserStylesAndPreview)
    | Error(exception: string)

  class WatchFaceConfigActivity {
    var colorStylePickerButtonEnabled: bool
    var showTimeSwitchEnabled: bool
    var showTimeSwitchChecked: bool
    /** What the state holder stores. */
    var storedColorStyleId: string
    var storedShowTime: bool

    /**
     * `onCreate`: both widgets start disabled until data arrives. The
     * switch's checked state comes from the layout and the stored values from
     * the settings repository, so they are inputs.
     */
    constructor OnCreate(layoutChecked: bool, colorStyleId: string, showTime: bool)
      ensures !colorStylePickerButtonEnabled && !showTimeSwitchEnabled
      ensures showTimeSwitchChecked == layoutChecked
      ensures storedColorStyleId == colorStyleId && storedShowTime == showTime
    {
      colorStylePickerButtonEnabled := false;
      showTimeSwitchEnabled := false;
      showTimeSwitchChecked := layoutChecked;
      storedColorStyleId := colorStyleId;
      storedShowTime := showTime;
    }

    /** `enabledWidgets`. */
    method EnabledWidgets()
      modifies this
      ensures colorStylePickerButtonEnabled && showTimeSwitchEnabled
      ensures showTimeSwitchChecked == old(showTimeSwitchChecked)
      ensures storedColorStyleId == old(storedColorStyleId) && storedShowTime == old(storedShowTime)
    {
      colorStylePickerButtonEnabled := true;
      showTimeSwitchEnabled := true;
    }

    /** `updateWatchFacePreview`: the switch shows the loaded flag and both widgets are enabled. */
    method UpdateWatchFacePreview(userStylesAndPreview: UserStylesAndPreview)
      modifies this
      ensures showTimeSwitchChecked == userStylesAndPreview.showTime
      ensures colorStylePickerButtonEnabled && showTimeSwitchEnabled
      ensures storedColorStyleId == old(storedColorStyleId) && storedShowTime == old(storedShowTime)
    {
      showTimeSwitchChecked := userStylesAndPreview.showTime;
      EnabledWidgets();
    }

    /** The collector of the UI-state flow: only Success touches the widgets, and nothing is ever disabled. */
    method OnUiState(uiState: EditWatchFaceUiState)
      modifies this
      ensures !uiState.Success? ==>
                && colorStylePickerButtonEnabled == old(colorStylePickerButtonEnabled)
                && showTimeSwitchEnabled == old(showTimeSwitchEnabled)
                && showTimeSwitchChecked == old(showTimeSwitchChecked)
      ensures uiState.Success? ==>
                && showTimeSwitchChecked == uiState.userStylesAndPreview.showTime
                && colorStylePickerButtonEnabled && showTimeSwitchEnabled
      ensures old(colorStylePickerButtonEnabled) ==> colorStylePickerButtonEnabled
      ensures old(showTimeSwitchEnabled) ==> showTimeSwitchEnabled
      ensures storedColorStyleId == old(storedColorStyleId) && storedShowTime == old(storedShowTime)
    {
      match uiState
      case Loading(_) =>
      case Success(userStylesAndPreview) =>
        UpdateWatchFacePreview(userStylesAndPreview);
      case Error(_) =>
    }

    /** `onClickColorStylePickerButton`: stores the next id of the cycle; the widgets are untouched. */
    method OnClickColorStylePickerButton()
      modifies this
      ensures storedColorStyleId == NextColorStyleId(old(storedColorStyleId))
      ensures storedShowTime == old(storedShowTime)
      ensures colorStylePickerButtonEnabled == old(colorStylePickerButtonEnabled)
      ensures showTimeSwitchEnabled == old(showTimeSwitchEnabled)
      ensures showTimeSwitchChecked == old(showTimeSwitchChecked)
    {
      storedColorStyleId := NextColorStyleId(storedColorStyleId);
    }

    /** `onClickShowTimeSwitch`: stores exactly the switch's checked state; the widgets are untouched. */
    method OnClickShowTimeSwitch()
      modifies this
      ensures storedShowTime == showTimeSwitchChecked
      ensures storedColorStyleId == old(storedColorStyleId)
      ensures colorStylePickerButtonEnabled == old(colorStylePickerButtonEnabled)
      ensures showTimeSwitchEnabled == old(showTimeSwitchEnabled)
      ensures showTimeSwitchChecked == old(showTimeSwitchChecked)
    {
      storedShowTime := showTimeSwitchChecked;
    }
  }
}
