/**
 * `AnalogWatchCanvasRenderer`: folds user-style changes into the style
 * snapshot, recomputes the colour palette and restyles the complications only
 * when the snapshot changed, and picks what each frame paints.
 *
 * Helpers defined in files that are not part of this model are parameters:
 * `colorStyleConfig` is `ColorStyleIdAndResourceIds.getColorStyleConfig`,
 * `palette` is `convertToWatchFaceColorPalette` for the renderer's context,
 * and `getDrawable` is `ComplicationDrawable.getDrawable` for that context.
 */
module EventfulCanvasRenderer {
  import opened Wrappers
  import opened WatchFaceData

  /** Setting keys; their file is not part of this model, and only their being different matters. */
  const COLOR_STYLE_SETTING: string := "color_style_setting"
  const DRAW_HOUR_PIPS_STYLE_SETTING: string := "draw_hour_pips_style_setting"

  /** The selected option of one setting. */
  datatype StyleOptionValue =
    | ListOption(id: string)
    | BooleanOption(value: bool)
    | OtherOption

  /** One `(setting, option)` pair of a `UserStyle`, the setting given by its id. */
  datatype StyleEntry = StyleEntry(key: string, value: StyleOptionValue)

  /**
   * The style schema pairs the colour setting with list options and the
   * hour-pips setting with boolean options, which the merge's casts rely on.
   */
  predicate EntryWellTyped(entry: StyleEntry)
  {
    && (entry.key == COLOR_STYLE_SETTING ==> entry.value.ListOption?)
    && (entry.key == DRAW_HOUR_PIPS_STYLE_SETTING ==> entry.value.BooleanOption?)
  }

  predicate WellTyped(userStyle: seq<StyleEntry>)
  {
    forall i :: 0 <= i < |userStyle| ==> EntryWellTyped(userStyle[i])
  }

  /** `WatchFaceColorPalette`, reduced to the members the renderer reads. */
  datatype WatchFaceColorPalette = WatchFaceColorPalette(
    activeBackgroundColor: int,
    ambientBackgroundColor: int,
    activeForegroundColor: int,
    activeHighlightColor: int,
    complicationStyleDrawableId: int)

  /** A complication's `ComplicationDrawable`, named by the style resource it was inflated from. */
  datatype ComplicationDrawable = ComplicationDrawable(styleResourceId: int)

  /** The host's draw modes. */
  datatype DrawMode = Interactive | LowBatteryInteractive | Mute | AmbientMode

  /** One iteration of the merge loop: a recognised option copies the snapshot with its one field replaced. */
  function ApplyOption(d: WatchFaceData, entry: StyleEntry, colorStyleConfig: string -> ColorStyleIdAndResourceIds): (r: WatchFaceData)
    requires EntryWellTyped(entry)
    ensures r.ambientColorStyle == d.ambientColorStyle && r.showTime == d.showTime
    ensures entry.key == COLOR_STYLE_SETTING ==>
              r.highlightColorStyle == colorStyleConfig(entry.value.id) && r.drawHourPips == d.drawHourPips
    ensures entry.key == DRAW_HOUR_PIPS_STYLE_SETTING ==>
              r.drawHourPips == entry.value.value && r.highlightColorStyle == d.highlightColorStyle
    ensures entry.key != COLOR_STYLE_SETTING && entry.key != DRAW_HOUR_PIPS_STYLE_SETTING ==> r == d
  {
    if entry.key == COLOR_STYLE_SETTING then
      d.(highlightColorStyle := colorStyleConfig(entry.value.id))
    else if entry.key == DRAW_HOUR_PIPS_STYLE_SETTING then
      d.(drawHourPips := entry.value.value)
    else
      d
  }

  /** The snapshot after the merge loop has applied `userStyle` in order, starting from `d`. */
  function Merge(d: WatchFaceData, userStyle: seq<StyleEntry>, colorStyleConfig: string -> ColorStyleIdAndResourceIds): WatchFaceData
    requires WellTyped(userStyle)
  {
    if userStyle == [] then d
    else
      var n := |userStyle| - 1;
      ApplyOption(Merge(d, userStyle[..n], colorStyleConfig), userStyle[n], colorStyleConfig)
  }

  /** The id of the last colour option in `userStyle`, if any. */
  function LastColorStyleId(userStyle: seq<StyleEntry>): Option<string>
    requires WellTyped(userStyle)
  {
    if userStyle == [] then None
    else
      var n := |userStyle| - 1;
      if userStyle[n].key == COLOR_STYLE_SETTING then Some(userStyle[n].value.id)
      else LastColorStyleId(userStyle[..n])
  }

  /** The value of the last hour-pips option in `userStyle`, if any. */
  function LastHourPips(userStyle: seq<StyleEntry>): Option<bool>
    requires WellTyped(userStyle)
  {
    if userStyle == [] then None
    else
      var n := |userStyle| - 1;
      if userStyle[n].key == DRAW_HOUR_PIPS_STYLE_SETTING then Some(userStyle[n].value.value)
      else LastHourPips(userStyle[..n])
  }

  /**
   * The merge, field by field: the highlight style is the config of the last
   * colour option and the pips flag the value of the last hour-pips option;
   * a field with no option keeps its value, and the ambient style and
   * show-time flag are never touched.
   */
  lemma {:induction false} MergeFields(d: WatchFaceData, userStyle: seq<StyleEntry>, colorStyleConfig: string -> ColorStyleIdAndResourceIds)
    requires WellTyped(userStyle)
    ensures Merge(d, userStyle, colorStyleConfig) == d.(
      highlightColorStyle := match LastColorStyleId(userStyle)
                             case None => d.highlightColorStyle
                             case Some(id) => colorStyleConfig(id),
      drawHourPips := match LastHourPips(userStyle)
                      case None => d.drawHourPips
                      case Some(b) => b)
  {
    if userStyle != [] {
      MergeFields(d, userStyle[..|userStyle| - 1], colorStyleConfig);
    }
  }

  /** Entries whose setting is neither the colour nor the hour-pips setting leave the snapshot as it is. */
  lemma {:induction false} MergeIgnoresOtherSettings(d: WatchFaceData, userStyle: seq<StyleEntry>, colorStyleConfig: string -> ColorStyleIdAndResourceIds)
    requires forall i :: 0 <= i < |userStyle| ==>
               userStyle[i].key != COLOR_STYLE_SETTING && userStyle[i].key != DRAW_HOUR_PIPS_STYLE_SETTING
    ensures Merge(d, userStyle, colorStyleConfig) == d
  {
    if userStyle != [] {
      MergeIgnoresOtherSettings(d, userStyle[..|userStyle| - 1], colorStyleConfig);
    }
  }

  /** The merge never changes the ambient style or the show-time flag. */
  lemma {:induction false} MergeKeepsAmbientAndShowTime(d: WatchFaceData, userStyle: seq<StyleEntry>, colorStyleConfig: string -> ColorStyleIdAndResourceIds)
    requires WellTyped(userStyle)
    ensures Merge(d, userStyle, colorStyleConfig).ambientColorStyle == d.ambientColorStyle
    ensures Merge(d, userStyle, colorStyleConfig).showTime == d.showTime
  {
    MergeFields(d, userStyle, colorStyleConfig);
  }

  /** Merging the same user style a second time changes nothing. */
  lemma {:induction false} MergeIdempotent(d: WatchFaceData, userStyle: seq<StyleEntry>, colorStyleConfig: string -> ColorStyleIdAndResourceIds)
    requires WellTyped(userStyle)
    ensures Merge(Merge(d, userStyle, colorStyleConfig), userStyle, colorStyleConfig) == Merge(d, userStyle, colorStyleConfig)
  {
    MergeFields(d, userStyle, colorStyleConfig);
    MergeFields(Merge(d, userStyle, colorStyleConfig), userStyle, colorStyleConfig);
  }

  /** The colour `render` paints first: the ambient background in ambient mode, the active one otherwise. */
  function BackgroundColor(drawMode: DrawMode, colors: WatchFaceColorPalette): (c: int)
    ensures drawMode == AmbientMode ==> c == colors.ambientBackgroundColor
    ensures drawMode != AmbientMode ==> c == colors.activeBackgroundColor
  {
    if drawMode == AmbientMode then colors.ambientBackgroundColor else colors.activeBackgroundColor
  }

  class AnalogWatchCanvasRenderer {
    var watchFaceData: WatchFaceData
    var watchFaceColors: WatchFaceColorPalette
    /** The drawable of each complication slot's `CanvasComplicationDrawable` renderer. */
    const slotDrawables: array<ComplicationDrawable>
    const palette: (ColorStyleIdAndResourceIds, ColorStyleIdAndResourceIds) -> WatchFaceColorPalette

    /** The palette always matches the snapshot's highlight and ambient styles. */
    ghost predicate Valid()
      reads this
    {
      watchFaceColors == palette(watchFaceData.highlightColorStyle, watchFaceData.ambientColorStyle)
    }

    constructor (
      slotDrawables: array<ComplicationDrawable>,
      palette: (ColorStyleIdAndResourceIds, ColorStyleIdAndResourceIds) -> WatchFaceColorPalette)
      ensures Valid()
      ensures watchFaceData == DefaultWatchFaceData()
      ensures this.slotDrawables == slotDrawables && this.palette == palette
    {
      this.slotDrawables := slotDrawables;
      this.palette := palette;
      watchFaceData := DefaultWatchFaceData();
      watchFaceColors := palette(Red, Ambient);
    }

    /**
     * `updateWatchFaceData`: the snapshot becomes the merge of the user style
     * into the old one. If that equals the old snapshot, nothing changes at
     * all; otherwise the palette is recomputed from the new snapshot and every
     * slot gets the drawable of the new complication style, unless the host
     * returns none for it.
     */
    method UpdateWatchFaceData(
      userStyle: seq<StyleEntry>,
      colorStyleConfig: string -> ColorStyleIdAndResourceIds,
      getDrawable: int -> Option<ComplicationDrawable>)
      requires Valid() && WellTyped(userStyle)
      modifies this, slotDrawables
      ensures Valid()
      ensures watchFaceData == Merge(old(watchFaceData), userStyle, colorStyleConfig)
      ensures watchFaceData == old(watchFaceData) ==>
                watchFaceColors == old(watchFaceColors) && slotDrawables[..] == old(slotDrawables[..])
      ensures watchFaceData != old(watchFaceData) ==>
                slotDrawables[..] == match getDrawable(watchFaceColors.complicationStyleDrawableId)
                                     case None => old(slotDrawables[..])
                                     case Some(drawable) => seq(slotDrawables.Length, _ => drawable)
    {
      var newWatchFaceData := watchFaceData;
      for i := 0 to |userStyle|
        invariant newWatchFaceData == Merge(watchFaceData, userStyle[..i], colorStyleConfig)
      {
        assert userStyle[..i + 1][..i] == userStyle[..i];
        var entry := userStyle[i];
        if entry.key == COLOR_STYLE_SETTING {
          newWatchFaceData := newWatchFaceData.(highlightColorStyle := colorStyleConfig(entry.value.id));
        } else if entry.key == DRAW_HOUR_PIPS_STYLE_SETTING {
          newWatchFaceData := newWatchFaceData.(drawHourPips := entry.value.value);
        }
      }
      assert userStyle[..|userStyle|] == userStyle;

      if watchFaceData != newWatchFaceData {
        watchFaceData := newWatchFaceData;
        watchFaceColors := palette(watchFaceData.highlightColorStyle, watchFaceData.ambientColorStyle);
        for i := 0 to slotDrawables.Length
          modifies slotDrawables
          invariant forall k :: 0 <= k < i ==>
                      slotDrawables[k] == match getDrawable(watchFaceColors.complicationStyleDrawableId)
                                          case None => old(slotDrawables[k])
                                          case Some(drawable) => drawable
          invariant forall k :: i <= k < slotDrawables.Length ==> slotDrawables[k] == old(slotDrawables[k])
        {
          var drawable := getDrawable(watchFaceColors.complicationStyleDrawableId);
          if drawable.Some? {
            slotDrawables[i] := drawable.value;
          }
        }
      }
    }

    /**
     * The complication passes: the slots drawn, in slot order, are exactly the
     * enabled ones. `slotEnabled` holds each slot's host-owned `enabled` flag as
     * it is at this frame.
     */
    method DrawComplications(slotEnabled: seq<bool>) returns (drawn: seq<nat>)
      requires |slotEnabled| == slotDrawables.Length
      ensures forall k :: 0 <= k < |drawn| ==> drawn[k] < |slotEnabled| && slotEnabled[drawn[k]]
      ensures forall a, b :: 0 <= a < b < |drawn| ==> drawn[a] < drawn[b]
      ensures forall i :: 0 <= i < |slotEnabled| && slotEnabled[i] ==> i in drawn
    {
      drawn := [];
      for i := 0 to |slotEnabled|
        invariant forall k :: 0 <= k < |drawn| ==> drawn[k] < i && slotEnabled[drawn[k]]
        invariant forall a, b :: 0 <= a < b < |drawn| ==> drawn[a] < drawn[b]
        invariant forall j :: 0 <= j < i && slotEnabled[j] ==> j in drawn
      {
        if slotEnabled[i] {
          drawn := drawn + [i];
        }
      }
    }

    /** `render`: the background chosen by draw mode, then the enabled complications. */
    method Render(drawMode: DrawMode, slotEnabled: seq<bool>) returns (backgroundColor: int, drawn: seq<nat>)
      requires |slotEnabled| == slotDrawables.Length
      ensures backgroundColor == BackgroundColor(drawMode, watchFaceColors)
      ensures forall k :: 0 <= k < |drawn| ==> drawn[k] < |slotEnabled| && slotEnabled[drawn[k]]
      ensures forall i :: 0 <= i < |slotEnabled| && slotEnabled[i] ==> i in drawn
    {
      backgroundColor := BackgroundColor(drawMode, watchFaceColors);
      drawn := DrawComplications(slotEnabled);
    }

    /** `renderHighlightLayer`: the host's background tint, then the enabled complications' highlight layers. */
    method RenderHighlightLayer(backgroundTint: int, slotEnabled: seq<bool>) returns (backgroundColor: int, drawn: seq<nat>)
      requires |slotEnabled| == slotDrawables.Length
      ensures backgroundColor == backgroundTint
      ensures forall k :: 0 <= k < |drawn| ==> drawn[k] < |slotEnabled| && slotEnabled[drawn[k]]
      ensures forall i :: 0 <= i < |slotEnabled| && slotEnabled[i] ==> i in drawn
    {
      backgroundColor := backgroundTint;
      drawn := DrawComplications(slotEnabled);
    }
  }
}
