# CalendarFaces watch face: a Dafny model of its decision logic

CalendarFaces is a Wear OS watch face that shows the user's next calendar
event over an analog face, with complications and a few style settings. Most
of the app is glue over host APIs. This project models the four parts that
make decisions of their own, and proves what they promise:

- **Next-event selection** (`CalendarUtils.getFirstEvent`). The query helper
  walks the provider's rows. It skips every row whose begin is before the
  clock reading taken for that row, stable-sorts the rest by start time, and
  returns the head, or null. Module `CalendarUtils` holds the loop as the
  method `GetFirstEvent`, proved equal to the specification function
  `FirstEvent`. Lemmas then show what `FirstEvent` means:
  - the result is null exactly when the cursor is null or no row qualifies;
  - otherwise it is the qualifying row with the smallest begin, and the
    earliest such row in cursor order when several tie;
  - at most one row fits that description.
  Module `Sorting` models Kotlin's `sortBy`. It is proved sorted, a
  permutation and stable, and its head is proved to be the first minimum.
- **The service's permission and fetch state** (`EventfulService`). A class
  holds the fields `calendarEntry` and `hasPermission`. Each timer tick is one
  call of `UpdateCalendarEntry`. A tick either fetches, or only re-reads the
  grant, so a grant first seen on one tick is fetched on the next. Once
  remembered, the grant is never dropped.
- **Style merge with an equality gate** (`AnalogWatchCanvasRenderer`). The
  recognised options of a user style are folded into a copy of the
  `WatchFaceData` snapshot. Only a merged snapshot that differs replaces the
  old one, recomputes the palette and restyles the complications. The class
  invariant `Valid()` says the palette always matches the snapshot. The lemma
  `MergeFields` describes the fold field by field: the last option for each
  setting wins, and the ambient style and show-time flag never change. From
  it follow idempotence and "other settings change nothing". The frame's
  background colour and the enabled-only complication passes are modelled too.
- **Config-screen rules** (`WatchFaceConfigActivity`). The colour button's
  cycle WHITE, BLUE, GREEN, RED maps an unknown id to WHITE. The widgets
  start disabled, only a Success UI state enables them, and no handler
  disables them again.

Host answers are inputs: the permission check's result, the provider cursor
(`None` for a null cursor), the per-row clock readings in epoch milliseconds,
the user style, and the draw mode. Helpers defined in files that are not part
of this model are function-valued parameters: `getColorStyleConfig`,
`convertToWatchFaceColorPalette` and `ComplicationDrawable.getDrawable`.

A row whose begin equals its clock reading is kept: the skip test is
`beginVal < now` (CalendarUtils.kt:46), so only rows that begin strictly
before the reading are dropped.

Two places in the source do not compile as written, and the model picks one
reading for each:
- The renderer's merge copies `drawHourPips` (EventfulCanvasRenderer.kt:161).
  `WatchFaceData` declares only `highlightColorStyle`, `ambientColorStyle` and
  `showTime` (WatchFaceData.kt:25-29). The model's record has a fourth field,
  `drawHourPips`, defaulting to `true`, so that the branch has a target.
- `EventfulService.createWatchFace` passes `this` as a first positional
  argument and then `context` by name (EventfulService.kt:63-64). The
  renderer's constructor has no parameter for the service
  (EventfulCanvasRenderer.kt:55-61). The model's `CreateWatchFace` leaves
  renderer construction out.

## Model

| member | source | states |
|---|---|---|
| CalendarUtils.QueryWindow | calendarfaces-wearos/app/src/main/java/com/yoonicode/calendarfaces/utils/CalendarUtils.kt:31-32 | the query window starts at the clock reading and ends exactly 86,400,000 ms later |
| CalendarUtils.KeptIndices | calendarfaces-wearos/app/src/main/java/com/yoonicode/calendarfaces/utils/CalendarUtils.kt:43-49 | the rows the cursor loop keeps are exactly those whose begin is not before their clock reading, in cursor order, none missing |
| CalendarUtils.KeptAreQualifyingRows | calendarfaces-wearos/app/src/main/java/com/yoonicode/calendarfaces/utils/CalendarUtils.kt:43-49 | the k-th appended entry is the k-th qualifying row, with its begin and title unchanged |
| CalendarUtils.GetFirstEvent | calendarfaces-wearos/app/src/main/java/com/yoonicode/calendarfaces/utils/CalendarUtils.kt:19-55 | the loop, sort and head selection return what FirstEvent specifies: null for a null cursor, else the head of the stable-sorted kept entries or null |
| CalendarUtils.FirstEventNoneIff | calendarfaces-wearos/app/src/main/java/com/yoonicode/calendarfaces/utils/CalendarUtils.kt:41-54 | the result is null exactly when the cursor is null or every row begins before its clock reading (zero rows included) |
| CalendarUtils.FirstEventIsEarliest | calendarfaces-wearos/app/src/main/java/com/yoonicode/calendarfaces/utils/CalendarUtils.kt:44-54 | a non-null result is the begin and title of one qualifying row, whose begin is at most that of every qualifying row, and which is the earliest in cursor order among ties |
| CalendarUtils.IsFirstEventUnique | calendarfaces-wearos/app/src/main/java/com/yoonicode/calendarfaces/utils/CalendarUtils.kt:52-54 | at most one row is the smallest-begin, earliest-among-ties qualifying row, so that description determines the result |
| CalendarUtils.PastEventSkipped | calendarfaces-wearos/app/src/main/java/com/yoonicode/calendarfaces/utils/CalendarUtils.kt:46-54 | with an event ten minutes ahead and one five minutes past, the result is the future one |
| Sorting.Insert | calendarfaces-wearos/app/src/main/java/com/yoonicode/calendarfaces/utils/CalendarUtils.kt:52 | inserting into a sorted list keeps it sorted and adds exactly the one element |
| Sorting.SortBy | calendarfaces-wearos/app/src/main/java/com/yoonicode/calendarfaces/utils/CalendarUtils.kt:52 | `sortBy` yields a list ordered by start time that is a permutation of the input |
| Sorting.SortByStable | calendarfaces-wearos/app/src/main/java/com/yoonicode/calendarfaces/utils/CalendarUtils.kt:52 | entries with equal start time keep their relative order through the sort |
| Sorting.FirstMinIndex | calendarfaces-wearos/app/src/main/java/com/yoonicode/calendarfaces/utils/CalendarUtils.kt:52-54 | the position of the first element with the smallest key: no key is smaller, and every earlier key is larger |
| Sorting.SortByHead | calendarfaces-wearos/app/src/main/java/com/yoonicode/calendarfaces/utils/CalendarUtils.kt:52-54 | the head of the sorted list is the first element with the smallest start time |
| EventfulService.EventfulService.constructor | calendarfaces-wearos/app/src/main/java/com/yoonicode/calendarfaces/EventfulService.kt:41-42 | a new service has no calendar entry and no remembered permission |
| EventfulService.EventfulService.CheckForPermission | calendarfaces-wearos/app/src/main/java/com/yoonicode/calendarfaces/EventfulService.kt:85-87 | the remembered permission becomes the current grant status; the entry is untouched |
| EventfulService.EventfulService.UpdateCalendarEntry | calendarfaces-wearos/app/src/main/java/com/yoonicode/calendarfaces/EventfulService.kt:103-109 | with permission, the entry becomes the query's result (null included) and the permission stays true; without it, the entry is kept and the permission becomes the current grant status |
| EventfulService.EventfulService.CreateWatchFace | calendarfaces-wearos/app/src/main/java/com/yoonicode/calendarfaces/EventfulService.kt:57-83 | the grant is checked before the first update, so a grant present at creation fetches at once; otherwise the entry is kept and the grant is re-read |
| WatchFaceData.DefaultWatchFaceData | calendarfaces-wearos/app/src/main/java/com/yoonicode/calendarfaces/data/watchface/WatchFaceData.kt:20-29 | the default snapshot has highlight RED, ambient AMBIENT and show-time SHOW_TIME_DEFAULT, which is true |
| EventfulCanvasRenderer.ApplyOption | calendarfaces-wearos/app/src/main/java/com/yoonicode/calendarfaces/EventfulCanvasRenderer.kt:144-165 | a colour option changes only the highlight style, to the config looked up from its id; an hour-pips option changes only the pips flag, to its value; any other setting changes nothing |
| EventfulCanvasRenderer.MergeFields | calendarfaces-wearos/app/src/main/java/com/yoonicode/calendarfaces/EventfulCanvasRenderer.kt:141-165 | the merged snapshot takes the highlight from the last colour option and the pips flag from the last hour-pips option, keeping the old value where there is none, and keeps every other field |
| EventfulCanvasRenderer.MergeIgnoresOtherSettings | calendarfaces-wearos/app/src/main/java/com/yoonicode/calendarfaces/EventfulCanvasRenderer.kt:144-165 | a user style with neither recognised setting leaves the snapshot unchanged |
| EventfulCanvasRenderer.MergeKeepsAmbientAndShowTime | calendarfaces-wearos/app/src/main/java/com/yoonicode/calendarfaces/EventfulCanvasRenderer.kt:141-165 | the merge never changes the ambient style or the show-time flag |
| EventfulCanvasRenderer.MergeIdempotent | calendarfaces-wearos/app/src/main/java/com/yoonicode/calendarfaces/EventfulCanvasRenderer.kt:141-168 | merging the same user style again yields the same snapshot, so a repeated style passes the equality gate with no effect |
| EventfulCanvasRenderer.BackgroundColor | calendarfaces-wearos/app/src/main/java/com/yoonicode/calendarfaces/EventfulCanvasRenderer.kt:216-221 | AMBIENT draw mode selects the ambient background colour, every other mode the active one |
| EventfulCanvasRenderer.AnalogWatchCanvasRenderer.constructor | calendarfaces-wearos/app/src/main/java/com/yoonicode/calendarfaces/EventfulCanvasRenderer.kt:82-89 | the renderer starts from the default snapshot with the palette computed from it |
| EventfulCanvasRenderer.AnalogWatchCanvasRenderer.UpdateWatchFaceData | calendarfaces-wearos/app/src/main/java/com/yoonicode/calendarfaces/EventfulCanvasRenderer.kt:138-187 | the snapshot becomes the merge; if that equals the old snapshot, palette and drawables are untouched; otherwise the palette is recomputed from the new highlight and ambient styles and every slot gets the new complication drawable unless the host returns none |
| EventfulCanvasRenderer.AnalogWatchCanvasRenderer.DrawComplications | calendarfaces-wearos/app/src/main/java/com/yoonicode/calendarfaces/EventfulCanvasRenderer.kt:230-236 | the slots drawn are exactly the enabled ones, each once, in slot order |
| EventfulCanvasRenderer.AnalogWatchCanvasRenderer.Render | calendarfaces-wearos/app/src/main/java/com/yoonicode/calendarfaces/EventfulCanvasRenderer.kt:210-228 | a frame paints the background its draw mode selects and draws every enabled complication and no disabled one |
| EventfulCanvasRenderer.AnalogWatchCanvasRenderer.RenderHighlightLayer | calendarfaces-wearos/app/src/main/java/com/yoonicode/calendarfaces/EventfulCanvasRenderer.kt:195-208 | the highlight layer paints the host's tint and the highlight of every enabled complication and no disabled one |
| WatchFaceConfigActivity.IndexOf | calendarfaces-wearos/app/src/main/java/com/yoonicode/calendarfaces/editor/WatchFaceConfigActivity.kt:90 | `indexOf` is the first position holding the id, or -1 exactly when the id is absent |
| WatchFaceConfigActivity.NextColorStyleId | calendarfaces-wearos/app/src/main/java/com/yoonicode/calendarfaces/editor/WatchFaceConfigActivity.kt:88-93 | the stored id is always one of the four; an id outside the cycle gives WHITE; a listed id gives its successor, wrapping around |
| WatchFaceConfigActivity.ColorCycle | calendarfaces-wearos/app/src/main/java/com/yoonicode/calendarfaces/editor/WatchFaceConfigActivity.kt:89-92 | the button advances WHITE to BLUE to GREEN to RED to WHITE |
| WatchFaceConfigActivity.FourClicksReturn | calendarfaces-wearos/app/src/main/java/com/yoonicode/calendarfaces/editor/WatchFaceConfigActivity.kt:89-92 | four clicks from a listed colour return to it |
| WatchFaceConfigActivity.WatchFaceConfigActivity.OnCreate | calendarfaces-wearos/app/src/main/java/com/yoonicode/calendarfaces/editor/WatchFaceConfigActivity.kt:39-48 | the colour button and the show-time switch start disabled |
| WatchFaceConfigActivity.WatchFaceConfigActivity.OnUiState | calendarfaces-wearos/app/src/main/java/com/yoonicode/calendarfaces/editor/WatchFaceConfigActivity.kt:50-66 | Loading and Error change neither widget; Success sets the switch to the loaded show-time flag and enables both; no state disables a widget |
| WatchFaceConfigActivity.WatchFaceConfigActivity.UpdateWatchFacePreview | calendarfaces-wearos/app/src/main/java/com/yoonicode/calendarfaces/editor/WatchFaceConfigActivity.kt:69-81 | the switch shows the loaded show-time flag and both widgets end enabled |
| WatchFaceConfigActivity.WatchFaceConfigActivity.EnabledWidgets | calendarfaces-wearos/app/src/main/java/com/yoonicode/calendarfaces/editor/WatchFaceConfigActivity.kt:83-86 | both widgets end enabled; nothing else changes |
| WatchFaceConfigActivity.WatchFaceConfigActivity.OnClickColorStylePickerButton | calendarfaces-wearos/app/src/main/java/com/yoonicode/calendarfaces/editor/WatchFaceConfigActivity.kt:88-93 | the stored colour id becomes the next id of the cycle; the widgets are untouched |
| WatchFaceConfigActivity.WatchFaceConfigActivity.OnClickShowTimeSwitch | calendarfaces-wearos/app/src/main/java/com/yoonicode/calendarfaces/editor/WatchFaceConfigActivity.kt:99-101 | the stored show-time flag becomes exactly the switch's checked state; the widgets are untouched |

## Left out

- The clock: `getFirstEvent` reads the clock once per row (CalendarUtils.kt:46). The model takes those readings as an input sequence and assumes nothing about their order. The window's own reading (line 31) is a separate input of `QueryWindow`.
- The provider query: URI building, `contentResolver.query` and the `Cursor` are host calls. The cursor is modelled as an optional sequence of (begin millis, title) rows. The EVENT_ID column is projected but never read, so it is not modelled. `java.util.Calendar` is modelled as epoch milliseconds.
- CalendarUtils.GetFirstEvent: rows are assumed to have non-null titles. A null TITLE (CalendarUtils.kt:45) would fail the not-null check of `CalendarEntry` at line 48 and throw; on the timer thread that exception ends the `java.util.Timer`, so polling would stop. The model's row type cannot express a null title.
- Sorting.SortBy: `sortBy` sorts the `ArrayList` in place inside the Kotlin library. It is modelled on values, as a stable insertion sort, with the library's documented promises proved.
- The timer thread: `Timer().scheduleAtFixedRate` (every 5 s, first run at once) and the unsynchronised sharing of `calendarEntry` with the render thread are concurrency. Each tick is one call of `UpdateCalendarEntry`. The interleaving of the timer's first tick with `createWatchFace` is not modelled.
- EventfulService.EventfulService.CreateWatchFace: building the renderer, starting the timer, and creating the `WatchFace` and its tap listener are host calls and are not modelled. Only the permission check and the first update are.
- `launchPermissionGrantActivity`, intent launching and the permission-request activity are host UI.
- Text drawing (`drawTextDisplays`): text metrics, float positions, the "h:mm" formatter and the hard-coded placeholder strings are host drawing. No link is made to `calendarEntry`, because the source draws fixed placeholders. The BASE-layer test that guards it is left out with it.
- Coroutine scopes and flow collection: each emitted user style or UI state is one method call. `onDestroy` and cancelling the scope are left out.
- EventfulCanvasRenderer.AnalogWatchCanvasRenderer.UpdateWatchFaceData: requires a well-typed user style, meaning the colour setting carries a list option and the pips setting a boolean option. The style schema guarantees this. The ClassCastException the casts would throw otherwise is not modelled.
- The enum `ColorStyleIdAndResourceIds`, the palette type, the setting keys and the colour-style ids are defined in files that are not part of this model. The enum's constants are the ones the core files name. The keys and ids are concrete strings, and the proofs use only that they differ.
- `getColorStyleConfig`, `convertToWatchFaceColorPalette` and `ComplicationDrawable.getDrawable` are defined in files that are not part of this model. They are parameters, so the model holds for any behaviour they have. Each is assumed to give the same answer for the same argument.
- Structural equality and `copy` of `WatchFaceData` are Dafny's datatype equality and update `d.(f := v)`. They hold by the language's definition, so there is no separate lemma. The renderer's gate uses that equality directly.
- `onClickBottomComplicationButton` hands off to the host's complication editor, and the preview bitmap is host UI. The state holder's writes are modelled as its stored colour id and show-time flag. The flow that reports them back is an input to `OnUiState`.
- The hour-pips drawing and the `HOUR_MARKS` and `WATCH_HAND_SCALE` constants are not used anywhere in EventfulCanvasRenderer.kt.
