# LED matrix sign: a Dafny model of its scheduler, providers and renderers

The sign drives a 160x32 RGB LED panel. These threads feed it:

- **Providers** poll a transit or music service:
  - MBTA predictions (two clients, `providers/mbta/mbta.py` and the older `mbta.py`);
  - MTA subway arrivals (`providers/mta/mta.py` and `mta/mta.py`);
  - Spotify's currently-playing track (`music.py`).
- **A Game of Life screen saver** (`providers/game_of_life.py`).
- **A push button** (`common/button.py`).

Everything they produce goes onto a render queue as `RenderMessage`s:

- **The render thread** (`display/display.py`, `display/render_music.py`, and the older `display.py`) draws each message on the canvas.
- **The animation manager** (`display/animation.py`, and the older list-based `animation.py`) plays frame generators at their own speeds. On each pass of its 60 Hz loop it puts `Frame` messages, followed by one `Swap`, on the queue.

This project models that core in Dafny and proves what each part promises.

| module (file) | models |
|---|---|
| `Common` (common.dfy) | `SignMode`, `RenderMessageType`, `Rect` and `hex_to_rgb` of common/common.py |
| `RenderTypes` (render_types.dfy) | the closed `RenderMessage` variant set of display/types.py |
| `Numeric` (numeric.dfy) | Python's `str`, `f"{n:02d}"`, `round`, `split`, `join`, `lower`, `replace` where the model needs them |
| `Registry` (registry.dfy) | the two dictionaries of an `AnimationManager` as a value: key → speed, and speed → group with its key list in dictionary order |
| `DisplayAnimation` (display_animation.dfy) | display/animation.py: the frame timelines and `Animation.get_next_frame` |
| `DisplayScheduler` (display_scheduler.dfy) | display/animation.py: `AnimationGroup` and `AnimationManager`, including one pass of `_run_animations` |
| `LegacyAnimation` (legacy_animation.dfy) | animation.py, the earlier scheduler with precomputed frames |
| `StationLists` (stations.dfy) | `station_by_id`, `train_station_to_str` and `stations_by_route` of both providers |
| `MbtaProvider` (mbta_provider.dfy) | providers/mbta/mbta.py |
| `LegacyMbta` (legacy_mbta.dfy) | mbta.py; its `Prediction` objects are filled in place |
| `MtaProvider` (mta_provider.dfy) | providers/mta/mta.py and mta/mta.py. `Client` selects which one reads the feed |
| `GameOfLife` (game_of_life.dfy) | providers/game_of_life.py |
| `Button` (button.dfy) | common/button.py |
| `Spotify` (spotify.dfy) | music.py |
| `Canvas` (canvas.dfy) | the panel size, images as lists of drawing operations, the effects of a render, `_format_time` / `_format_elapsed_time` |
| `SignDisplay` (display_render.dfy) | `Display.render` of display/display.py and `render_music_content` of display/render_music.py |
| `LegacyDisplay` (legacy_display.dfy) | the MBTA board and banner renderers of display.py |

**How the model represents things:**

- **Objects the source updates in place are classes:**
  - `Animation`, `AnimationGroup` and `AnimationManager` (both versions);
  - `Mbta`, `LegacyMbta.Prediction`, `Mta`;
  - `GameOfLife`, `Button`, `Spotify`, and both `Display`s.
- **Each of these methods is proved against a specification function:**
  - the manager's `Tick` against `TickSpec`;
  - `get_predictions` against `PredictionsOutcome`;
  - `step` against `Next`;
  - `render` against `RenderEffects`.
  
  The properties the source promises are lemmas about those functions.
- **Queues and canvases are logs.** The render queue is a `seq<RenderMessage>`. Each display keeps `effects`, the log of what it did to the canvas and to the animation manager.
- **Inputs replace I/O.** Clock readings, HTTP results, random draws, pin levels and font text widths are parameters.

## Model

| member | source | states |
|---|---|---|
| Common.SignModeValues | common/common.py:10-16 | the six sign modes have distinct enum values 0..5 and each value names its mode back |
| Common.RenderMessageTypeValues | common/common.py:29-39 | the ten message kinds have distinct values 0..9 and each value names its kind back |
| Common.ToCropTuple | display/types.py:21-22 | `to_crop_tuple` is `(x, y, x + w, y + h)`: right − left is the width, bottom − top the height |
| Common.CropTupleRoundTrip | common/common.py:58-59 | the box is read back unchanged from its crop tuple |
| Common.HexToRgbRoundTrip | common/common.py:71-73 | every colour written "#RRGGBB" with channels in 0..255 parses back to the same three channels |
| Common.HexToRgbChannels | common/common.py:71-73 | once the leading '#'s are stripped, any text starting with six hex digits parses, to three channels in 0..255, whatever follows |
| Common.PairParses | common/common.py:71-73 | two hex digits at any offset parse to one channel in 0..255 |
| Common.HexToRgbShortFails | common/common.py:71-73 | the three-digit form "#FFF" is rejected: its third slice is empty and the source raises `ValueError` |
| Common.MtaColours | common/common.py:81-82 | `hex_to_rgb("#D0FF00") == (208, 255, 0)` and `hex_to_rgb("#E25822") == (226, 88, 34)` |
| RenderTypes.Kind | display/types.py:30-82 | exactly the `Clear`, `Frame` and `Swap` messages have the `CLEAR`, `FRAME` and `SWAP` types |
| RenderTypes.ZIndex | display/types.py:30-82 | content variants draw on a layer; `Clear` and `Swap` carry no layer |
| RenderTypes.KindsAndDefaults | display/types.py:30-82 | every kind has a variant; a `Frame` carries its box and image; each content variant built without a layer draws on layer 0 |
| Numeric.RoundHalfEvenNearest | mta/mta.py:62 | Python's `round(num / den)` is a nearest integer to the exact quotient, and the even one on a tie |
| Numeric.ParseNatToString | display/display.py:152-154 | the decimal text of a number reads back as that number |
| Numeric.Pad2Parses | display/display.py:152-154 | `f"{n:02d}"` has at least two digits and reads back as `n` |
| Numeric.SplitJoin | display/display.py:152-154 | joining parts that do not contain ':' and splitting at ':' gives the parts back |
| Numeric.RemoveAllAbsent | providers/mta/mta.py:126-127 | `replace(pat, "")` on a text not containing `pat` changes nothing |
| Numeric.RemovePrefix | providers/mta/mta.py:126-127 | `("MTASBWY:" + x).replace("MTASBWY:", "")` is `x` when `x` holds no prefix |
| Registry.RemoveFirstCount | display/animation.py:212-214 | `remove_animation` on a group drops exactly one entry of the key when there is one, and keeps every other entry |
| Registry.AddRegisters | display/animation.py:232-238 | after `add_animation` the key is running at its new speed and is the last entry of that speed's group; the group order changes exactly when the speed had no group, which is then created holding the key alone; every other key runs iff it ran before |
| Registry.AddWellFormed | display/animation.py:232-238 | `add_animation` keeps the manager invariant: the order lists each group once, no group is empty, and every running key is in the group of its speed |
| Registry.AddAllWellFormed | display/animation.py:240-247 | `add_animations` keeps the invariant, entry after entry in dictionary order |
| Registry.RemoveAbsent | display/animation.py:249-251 | removing a key that is not registered changes nothing |
| Registry.RemoveUnregisters | display/animation.py:249-257 | removing a registered key unregisters exactly that key; its group is deleted exactly when it becomes empty; every other group is unchanged |
| Registry.RemoveWellFormed | display/animation.py:249-257 | `remove_animation` keeps the invariant |
| Registry.StaleEntryAfterSpeedChange | display/animation.py:235-257 | after re-registering a key at another speed and removing it, the key stays in the first speed's group with no animation behind it |
| Registry.StaleEntryAfterReRegister | display/animation.py:232-257 | registering a key twice at one speed keeps the invariant, and removing it then leaves an entry of the key in its group with no animation behind it |
| Registry.ClearEmpties | display/animation.py:275-280 | the emptied dictionaries of `clear()` satisfy the invariant and run no key |
| DisplayAnimation.WrapPadded | display/animation.py:56-57 | a wrapping scroll pads a non-empty text that does not end in a space with four spaces; anything else is left as given |
| DisplayAnimation.WrapPaddedIdempotent | display/animation.py:56-57 | a padded text is empty or ends in a space, and padding it again changes nothing |
| DisplayAnimation.TextScrollTimeline | display/animation.py:68-85 | a text scroll yields exactly `start - end` frames without error, where `start` is `bbox.w` when it starts blank and 0 otherwise and `end` is `-max(bbox.w, text width)`; every frame is at `bbox` and draws the text; frame `i` puts it at `start - i` plus the text offset, with a second copy exactly when wrapping; by the last frame both the text and the box width have scrolled off |
| DisplayAnimation.TextScrollStartsBlank | display/animation.py:68-85 | with `start_blank` the first frame puts the text just right of the box |
| DisplayAnimation.MtaAlertTimeline | display/animation.py:145-148 | the alert yields its whole blank-start scroll at (0, 2), then exactly one more frame holding the saved screen |
| DisplayAnimation.MtaBlinkTimeline | display/animation.py:169-179 | the blink yields `15 * 6 + 1` frames; in each block of 6, the first `int(2/3 * 6) = 4` show the text and the other 2 are blank; the last frame shows the text |
| DisplayAnimation.MtaStartupOnScreen | display/animation.py:181-200 | on the 160x32 screen with the 27 route images, the startup pastes the 20 tiles and then blacks them out again, 40 frames, without an index error |
| DisplayAnimation.MtaStartupRunsOut | display/animation.py:188-200 | a box with more tiles in its first row than there are route images makes the generator raise `IndexError` at the first such tile |
| DisplayAnimation.ScreenTilesInRange | display/animation.py:188-200 | the full 160x32 screen has 20 tiles of 16x16, and with 27 route images none of them is out of range |
| DisplayAnimation.MoveEndpoints | display/animation.py:97-106 | a move yields `int(sqrt(dx² + dy²)) + 1` frames, starting at its start box and ending exactly at its end box |
| DisplayAnimation.VerticalMove | display/animation.py:97-106 | a vertical move by `d` pixels takes `abs(d) + 1` frames, one pixel per frame |
| DisplayAnimation.MovePosEnds | display/animation.py:101-106 | the interpolated position is the start at step 0 and the start plus the distance at the last step |
| DisplayAnimation.ZeroMoveRaises | display/animation.py:103-104 | a move to its own start divides by zero on the first `next()` |
| DisplayAnimation.PlayOnce | display/animation.py:31-44 | a play-once animation returns its frames in order with `is_complete = False`; every later call returns the last frame it produced (`None` if there was none) with `is_complete = True` |
| DisplayAnimation.Looping | display/animation.py:31-44 | a looping animation restarts its exhausted generator and returns its first frame again: call `n` returns frame `n mod length` and never reports completion |
| DisplayAnimation.LoopNeverCompletes | display/animation.py:39-43 | from any state, one call of a looping animation never returns `is_complete = True` |
| DisplayAnimation.EmptyLoopRaises | display/animation.py:39-43 | a looping animation with no frames lets `StopIteration` escape on its first call |
| DisplayAnimation.ErrorSurfaces | display/animation.py:31-44 | a generator that raises does so on the call after its last frame, looping or not |
| DisplayAnimation.Animation.GetNextFrame | display/animation.py:31-44 | `get_next_frame` returns what `Play` says for the current generator state and moves to the state `Play` gives |
| DisplayAnimation.Animation.TextScrollAnimation | display/animation.py:48-60 | a new text scroll has the padded text and a generator not created yet |
| DisplayAnimation.Animation.MtaAlertAnimation | display/animation.py:136-143 | an alert plays once at speed 60 |
| DisplayAnimation.Animation.MtaBlinkAnimation | display/animation.py:150-156 | a blink plays once at speed 6 |
| DisplayAnimation.Animation.MtaStartupAnimation | display/animation.py:181-186 | the startup plays once at speed 10 |
| DisplayScheduler.FramesPerUpdateNearest | display/animation.py:207 | `frames_per_update * speed` is within half a `speed` of 60 (`round(1 / (speed / 60))`) |
| DisplayScheduler.FramesPerUpdateValues | display/animation.py:207 | speeds 60, 10 and 6 are serviced every 1, 6 and 10 passes |
| DisplayScheduler.FramesPerUpdateRange | display/animation.py:207 | the count is never negative, and it is 0 (due on every pass) exactly from speed 120 on |
| DisplayScheduler.SlowSpeedsWait | display/animation.py:207 | a group at 60 frames per second or slower waits at least one pass between updates |
| DisplayScheduler.ServiceRate | display/animation.py:219-220 | a due group is serviced exactly once in every `frames_per_update` consecutive passes |
| DisplayScheduler.SpeedIsFramesPerSecond | display/animation.py:219-220 | at the loop's 60 passes per second, a due group of speed 60, 10 or 6 is serviced exactly `speed` times in every 60 passes |
| DisplayScheduler.AnimationGroup.constructor | display/animation.py:203-207 | a new group has no keys and was last serviced at pass 0 |
| DisplayScheduler.AnimationGroup.AddKey | display/animation.py:209-210 | the key is appended, even when it is already a member |
| DisplayScheduler.AnimationGroup.RemoveKey | display/animation.py:212-214 | the first entry of the key is dropped; an absent key leaves the list unchanged |
| DisplayScheduler.AnimationGroup.IsEmpty | display/animation.py:216-217 | true exactly when the group has no keys |
| DisplayScheduler.AnimationGroup.ShouldUpdate | display/animation.py:219-220 | true exactly when `frame_count - last_update >= round(60 / speed)` |
| DisplayScheduler.TickEmitsFrames | display/animation.py:295-308 | before its `Swap`, a pass emits only `Frame` messages, one per frame counted in `update_count` |
| DisplayScheduler.RunKeysCompletes | display/animation.py:297-306 | serving a group's keys only adds to the completed list; unless an animation raises, every key without an animation is added |
| DisplayScheduler.RunGroupsCompletes | display/animation.py:295-308 | the completed list only grows; when no animation raises, every key of a due group whose animation is gone is in it |
| DisplayScheduler.RunGroupsStampsOrKeeps | display/animation.py:296-309 | after serving the groups in order, each group either keeps its state or was due and has `last_update` set to the pass number, with the same keys |
| DisplayScheduler.RunGroupsServes | display/animation.py:296-309 | unless an animation raises, each group's new `last_update` is the pass number if it was due and its old value otherwise |
| DisplayScheduler.TickStampsDueGroups | display/animation.py:296-309 | `last_update` changes only for groups that were due; when no animation raises, each group's new stamp is the pass number if it was due and its old stamp otherwise |
| DisplayScheduler.RemoveEachUnregisters | display/animation.py:313-314 | after the completed keys are removed, each of them is unregistered and every other key keeps its speed |
| DisplayScheduler.DuplicateEntryAdvancesTwice | display/animation.py:297-302 | a key entered twice in a due group advances its animation twice in one pass |
| DisplayScheduler.AnimationManager.constructor | display/animation.py:224-230 | a new manager has no animations and no groups |
| DisplayScheduler.AnimationManager.AddAnimation | display/animation.py:232-238 | the dictionaries become the registry's `Add` of the key at the animation's speed; the animation is mapped under the key; the invariant holds |
| DisplayScheduler.AnimationManager.AddAnimations | display/animation.py:240-247 | the dictionaries become `AddAll` of the entries in order; later entries of a key win; the invariant holds |
| DisplayScheduler.AnimationManager.RemoveAnimation | display/animation.py:249-257 | the dictionaries become the registry's `Remove` of the key; an absent key changes nothing |
| DisplayScheduler.AnimationManager.GetAnimation | display/animation.py:259-261 | returns the key's animation, or `None` when it is not registered |
| DisplayScheduler.AnimationManager.IsAnimationRunning | display/animation.py:282-284 | true exactly when the key is in `animations` |
| DisplayScheduler.AnimationManager.Clear | display/animation.py:275-280 | both dictionaries are emptied and the queue is untouched |
| DisplayScheduler.AnimationManager.Tick | display/animation.py:289-316 | one pass follows `TickSpec`: the due groups in dictionary order, the keys of each in list order; a key without an animation counts as completed; one `Frame` per frame produced; exactly one `Swap` after them iff any frame was produced; then the completed keys are removed and the next pass is `frame_count + 1`; an animation that raises ends the pass at that point |
| DisplayScheduler.AnimationManager.EndPass | display/animation.py:310-314 | one `Swap` iff `update_count > 0`, then each completed key is removed |
| LegacyAnimation.SuccIsMod | animation.py:31 | the successor index is `(i + 1) % len(frames)` |
| LegacyAnimation.NextIsCurrentThenAdvance | animation.py:26-54 | `next_frame` is `get_current_frame` followed by `advance_frame` |
| LegacyAnimation.IndexFromStart | animation.py:48-49 | from index 0, `k` calls leave the index at `k mod n` |
| LegacyAnimation.NextFromStart | animation.py:48-54 | from the start, call `k` returns frame `k mod n`; it reports completion exactly when the animation is not looping and `k + 1` is a multiple of `n`, so an `n`-frame animation completes on its `n`-th call |
| LegacyAnimation.IndexAfterLast | animation.py:42-54 | the index after `k` calls is the index after `k - 1` calls advanced once |
| LegacyAnimation.NoFramesNeverComplete | animation.py:45-46 | `next_frame` without frames returns `(None, False)` and changes nothing |
| LegacyAnimation.PadTextProperties | animation.py:64-65 | the scroll text gets four spaces unless it is empty or ends in a space; the padded text starts with the given text and padding it again changes nothing |
| LegacyAnimation.RenderScrollFrames | animation.py:76-87 | `render_frames` yields `int(max(w, text_width))` frames; frame `i` draws the text at `(-i, 0)` and again at `(-i + text_width, 0)` |
| LegacyAnimation.ScrollJoinsUp | animation.py:76-87 | for a text at least as wide as its box, frame 0 draws the text at x = 0 and the last frame draws its second copy at x = 1, so the loop continues seamlessly |
| LegacyAnimation.Animation.TextScroll | animation.py:59-68 | a new text scroll holds the rendered frames of the padded text, at index 0 |
| LegacyAnimation.Animation.AdvanceFrame | animation.py:26-34 | without frames it returns `False` and changes nothing; otherwise the index moves to `(i + 1) % n`, and it is complete iff not looping and the index wrapped to 0 |
| LegacyAnimation.Animation.GetCurrentFrame | animation.py:36-40 | `None` without frames, otherwise the frame at the index |
| LegacyAnimation.Animation.NextFrame | animation.py:42-54 | returns the frame at the index, then moves the index to `(i + 1) % n`; complete iff not looping and wrapped to 0 |
| LegacyAnimation.FramesPerUpdateFloor | animation.py:141-142 | `floor(60 / speed)` is the largest `n` with `n * speed <= 60` |
| LegacyAnimation.FramesPerUpdateValues | animation.py:141-142 | at speeds 60, 10 and 6 the floor agrees with the later version's rounding; at 40 it differs (1 here, 2 there) |
| LegacyAnimation.AnimationGroup.AddKey | animation.py:131-132 | the key is appended, even when already a member |
| LegacyAnimation.AnimationGroup.RemoveKey | animation.py:134-136 | the first entry of the key is dropped; an absent key leaves the list unchanged |
| LegacyAnimation.AnimationGroup.IsEmpty | animation.py:138-139 | true exactly when the group has no keys |
| LegacyAnimation.AnimationGroup.ShouldUpdate | animation.py:141-142 | true exactly when `frame_count - last_update >= floor(60 / speed)` |
| LegacyAnimation.MissingKeyRaises | animation.py:203-207 | when a due group holds a key without an animation, the pass raises (`None.next_frame()`) |
| LegacyAnimation.RunKeysMissingRaises | animation.py:203-207 | serving a key list that holds a key without an animation raises, wherever the key is in the list |
| LegacyAnimation.ClearThenTickRaises | animation.py:193-207 | after `clear()` as written, the next pass raises when any group is due |
| LegacyAnimation.ClearView | animation.py:193-194 | `clear()` as written leaves no animations and every group untouched |
| LegacyAnimation.ClearAllThenTickIsQuiet | animation.py:193-226 | with both dictionaries emptied, the next pass emits nothing, does not raise and removes nothing |
| LegacyAnimation.StaleEntryRaises | animation.py:153-207 | on a new manager, registering a key at two speeds and removing it leaves a stale entry: the pass that services the first speed raises |
| LegacyAnimation.ReRegisterThenRemove | animation.py:153-176 | the registry after `add(key, s1)`, `add(key, s2)` and `remove(key)` still holds the key in the group of `s1` |
| LegacyAnimation.ReRegister | animation.py:153-158 | adding a key at `s1` and then at `s2` maps it to `s2` but lists it in both groups, in that order, and keeps the invariant |
| LegacyAnimation.RemoveSecond | animation.py:168-176 | removing that key then deletes the `s2` group and leaves the key in the `s1` group |
| LegacyAnimation.AnimationManager.AddAnimation | animation.py:153-158 | the dictionaries become the registry's `Add` of the key at the animation's speed |
| LegacyAnimation.AnimationManager.AddAnimations | animation.py:160-166 | the dictionaries become `AddAll` of the entries in order |
| LegacyAnimation.AnimationManager.RemoveAnimation | animation.py:168-176 | the dictionaries become the registry's `Remove` of the key; an absent key changes nothing |
| LegacyAnimation.AnimationManager.GetAnimation | animation.py:178-180 | the key's animation, or `None` |
| LegacyAnimation.AnimationManager.Clear | animation.py:193-194 | as written: `animations` is emptied and the groups keep their keys (`ClearView`) |
| LegacyAnimation.AnimationManager.ClearAll | animation.py:193-194 | the corrected clear: both dictionaries are emptied |
| LegacyAnimation.AnimationManager.Tick | animation.py:196-226 | one pass follows `TickSpec`: the due groups in dictionary order and their keys in list order; one frame message per frame; one `Swap` iff `update_count > 0`; then the completed keys are removed and the next pass is `frame_count + 1`; a key without an animation raises and ends the pass |
| LegacyAnimation.AnimationManager.EndPass | animation.py:220-226 | one `Swap` iff `update_count > 0`, then each completed key is removed; the animations themselves are untouched |
| StationLists.StationById | providers/mbta/mbta.py:45-49 | the first station with the id, or `None` when there is none |
| StationLists.TrainStationToStr | providers/mta/mta.py:89-93 | the name of the first station with the id, "" when there is none |
| StationLists.StationsOnMembers | providers/mta/mta.py:72-79 | a station is listed under a route exactly when it is in the list and serves that route |
| StationLists.StationsByRoute | providers/mbta/mbta.py:35-43 | the routes served by some station are exactly the keys, and each route's list is `StationsOn` that route: the stations serving it, in list order |
| MbtaProvider.Placeholders | providers/mbta/mbta.py:242-248 | two lines: "Ashmont" and "Alewife", with empty values |
| MbtaProvider.FindNthPrediction | providers/mbta/mbta.py:125-142 | the loop returns `NthCounted`: among the predictions in the direction that have a status or an arrival less than 30 s in the past, the one at position `n` (from 0) in feed order, or `None` when fewer count |
| MbtaProvider.PrefixCounted | providers/mbta/mbta.py:125-142 | the predictions that count in a prefix of the feed begin the ones that count in all of it |
| MbtaProvider.FindTrip | providers/mbta/mbta.py:144-155 | the first trip of `included` whose id is the prediction's trip id; `None` without a prediction or a match |
| MbtaProvider.DisplayStringForStatus | providers/mbta/mbta.py:164-180 | a status wins over the times: "STOP" iff its lower-case form contains "stopped", otherwise its first 6 lower-case characters |
| MbtaProvider.DisplayStringMinutes | providers/mbta/mbta.py:164-180 | without a status, an arrival more than 60 s away reads "N min", `N = arr // 60` |
| MbtaProvider.DisplayStringWords | providers/mbta/mbta.py:164-180 | without a status: "ARR" iff `0 < arr <= 60`; "BRD" iff `arr <= 0 < dep`; "ERROR" iff both are `<= 0` |
| MbtaProvider.FormatPredictionRules | providers/mbta/mbta.py:182-209 | a missing prediction or trip blanks the line; otherwise the label is the head sign cut to 10 characters, and the value is "ERROR" when there is no status and the two times are not both present |
| MbtaProvider.ArrivingOnlyWhenDue | providers/mbta/mbta.py:182-209 | a line reads "ARR" only for a found prediction and trip, with no status, both times present and the arrival at most a minute away |
| MbtaProvider.TestStationOutcome | providers/mbta/mbta.py:74-78 | the "test" station answers `OK` with "Ashmont 5 min" and "Alewife 12 min" and does not touch the error count |
| MbtaProvider.FailureOutcome | providers/mbta/mbta.py:80-85 | a failed fetch counts one more error and returns blank lines: `ERROR_SHOW_CACHED` while the count is at most 3, `ERROR` after |
| MbtaProvider.SuccessOutcome | providers/mbta/mbta.py:87-96 | a successful fetch resets the count; an empty feed is `ERROR_EMPTY` with blank lines; otherwise `OK` and line `i` is the formatted `nth_positions[i]`-th prediction in `directions[i]` |
| MbtaProvider.Mbta.constructor | providers/mbta/mbta.py:59-65 | two blank cached lines, no errors, the configured station or Harvard |
| MbtaProvider.Mbta.GetPredictions | providers/mbta/mbta.py:70-96 | status, lines and new error count are `PredictionsOutcome`; the cache and the station are untouched |
| MbtaProvider.Mbta.GetPredictionsBothDirections | providers/mbta/mbta.py:98-102 | the first train southbound and the first northbound |
| MbtaProvider.Mbta.GetPredictionsOneDirection | providers/mbta/mbta.py:104-107 | the first two trains in one direction |
| MbtaProvider.UpdatedCacheSlots | providers/mbta/mbta.py:211-218 | directions `[0, 1]` store both lines as given; one direction `[d, d]` stores only `latest[0]`, in slot `d`, and leaves the other slot |
| MbtaProvider.Mbta.UpdateLatestPredictions | providers/mbta/mbta.py:211-218 | the cache becomes `UpdatedCache` of the lines and directions |
| MbtaProvider.Mbta.FindPredictionWithArrivingBanner | providers/mbta/mbta.py:220-228 | `None` for fewer than two lines; otherwise the first of the two lines that reads "ARR" while the cached line in its slot does not, and `None` iff neither does |
| MbtaProvider.ArrivingBanner | providers/mbta/mbta.py:230-232 | the banner is "<label> train" over "is now arriving." |
| MbtaProvider.Mbta.GetCachedPredictions | providers/mbta/mbta.py:234-240 | copies of the two cached lines |
| MbtaProvider.Mbta.SetStation | providers/mbta/mbta.py:250-253 | the cache becomes the placeholders and the station is the new one |
| MbtaProvider.BannerAfterCacheChanges | providers/mbta/mbta.py:211-253 | right after a station change any line reading "ARR" raises the banner; right after the cache stored a line reading "ARR", that line does not raise it again |
| LegacyMbta.StopIdsDistinct | mbta.py:30-41 | distinct stations have distinct stop ids |
| LegacyMbta.TrainStationNames | mbta.py:228-241 | the ten named stations have distinct display names; only `TEST` is "TRAIN_STATION_UNKNOWN" |
| LegacyMbta.Prediction.constructor | mbta.py:17-19 | a new line has an empty label and value |
| LegacyMbta.FormatPrediction | mbta.py:171-197 | the object written in place reads as the shared formatting with 31-character labels: blank for a missing prediction or trip |
| LegacyMbta.GetPlaceholderPredictions | mbta.py:216-220 | only the first two objects are written: the second reads "Alewife" with an empty value, and the first "Ashmont" whenever it is a different object |
| LegacyMbta.BannerStatusMeaning | mbta.py:78-85 | `OK_SHOW_ARR_BANNER_SLOT_1` iff line 0 newly reads "ARR" against its cached slot; `SLOT_2` iff line 0 does not and line 1 does; both come only from a successful fetch |
| LegacyMbta.BannerShownOnce | mbta.py:71-85 | both directions: a line shown with a banner is cached by the same call, so the same lines a second time give `OK` |
| LegacyMbta.NewPredictions | mbta.py:53 | `num` new, distinct, blank objects |
| LegacyMbta.FormatAll | mbta.py:73-77 | each object `i` is written with the formatted `nth_positions[i]`-th prediction in `directions[i]` |
| LegacyMbta.FillTestLines | mbta.py:55-59 | the test lines: "Ashmont 5 min", "Alewife 12 min", the rest blank |
| LegacyMbta.Mbta.constructor | mbta.py:44-49 | two blank cached lines, no errors, Harvard, no station change pending |
| LegacyMbta.Mbta.GetPredictions | mbta.py:51-85 | the lines, status and error count are `PredictionsOutcome`; on a successful fetch the cache holds the returned objects themselves, updated only after the status is chosen |
| LegacyMbta.Mbta.CountError | mbta.py:62-66 | one more error; `ERROR_SHOW_CACHED` while the count is at most 3, `ERROR` after |
| LegacyMbta.Mbta.ServeFeed | mbta.py:67-85 | on a decoded feed the objects hold `Lines` of the feed; the status is `BannerStatus` of those lines against the cache before the call; the cache then takes the objects; station, error count and flag are unchanged |
| LegacyMbta.Mbta.UpdateLatestPredictions | mbta.py:199-204 | the cache holds the given objects: both slots for `[0, 1]`, only slot `d` for `[d, d]` |
| LegacyMbta.Mbta.GetCachedPredictions | mbta.py:210-214 | copies of the two cached lines |
| LegacyMbta.Mbta.SetStation | mbta.py:222-226 | the station is recorded, `has_station_changed` is set, and the cached objects are overwritten with the placeholders |
| LegacyMbta.Mbta.GetPredictionsBothDirections | mbta.py:87-90 | the first train each way |
| LegacyMbta.Mbta.GetPredictionsOneDirection | mbta.py:92-95 | the first two trains in one direction |
| MtaProvider.CombineComplexIdsSplits | providers/mta/mta.py:96-98 | splitting the combined ids at the commas gives back each id with the "MTASBWY:" prefix, in order |
| MtaProvider.SingleStopId | providers/mta/mta.py:100-102 | a stop outside the complexes is asked for alone, with its prefix |
| MtaProvider.CanalStreetLocalIds | providers/mta/mta.py:100-102 | "Q01" is asked for as M20 and 639 only |
| MtaProvider.CanalStreetBroadwayIds | providers/mta/mta.py:100-102 | "R23" is asked for as all four Canal St ids |
| MtaProvider.ArrivalSecondsNearest | mta/mta.py:55-62 | `calculate_arrival_time_in_seconds` is the nearest whole second to the difference, ties to even |
| MtaProvider.LegacyKeepsDueTrains | mta/mta.py:102-103 | mta/mta.py keeps a train exactly when it is due at most half a second ago |
| MtaProvider.SortByTimeSpec | providers/mta/mta.py:144 | `sorted(..., key=time)` is sorted by wait, a permutation of its input, and stable |
| MtaProvider.InsertByTimeSorted | providers/mta/mta.py:144 | inserting a train into a list sorted by wait keeps it sorted |
| MtaProvider.InsertByTimeStable | providers/mta/mta.py:144 | the inserted train goes after every train with the same wait, so equal waits keep their input order |
| MtaProvider.PredictionsResultSpec | providers/mta/mta.py:111-147 | every train returned has a non-negative wait; the list is sorted; the result is `None` iff the decoding failed or some train raises |
| MtaProvider.CollectStations | providers/mta/mta.py:119-143 | the loops over stations, non-empty groups and times append the kept trains in order, or give `None` at the first train that raises |
| MtaProvider.GetPredictions | providers/mta/mta.py:111-147 | the loops followed by the sort return `PredictionsResult` of the decoded response; the `Legacy` client gives mta/mta.py:78-116 |
| MtaProvider.CurrentKeepsWaiting | providers/mta/mta.py:129-137 | the providers client keeps a train iff `realtimeArrival - (timestamp - serviceDay) >= 0`, and that is its wait |
| MtaProvider.PrefixStripped | providers/mta/mta.py:126-127 | a route id written with the prefix comes back without it |
| MtaProvider.ExpressFromLongName | providers/mta/mta.py:138-143 | express iff "express" occurs in the lower-cased route long name, whatever its case |
| MtaProvider.LegacyArrivalSource | mta/mta.py:97-101 | mta/mta.py reads `arrivalFmt or departureFmt` only for a train with neither a scheduled nor a real-time arrival, and `departureFmt` otherwise |
| MtaProvider.FakePredictions | providers/mta/mta.py:149-169 | two fixed trains, 780 s and then 240 s away, not sorted by wait |
| MtaProvider.Mta.SetCurrentStation | providers/mta/mta.py:171-176 | the held station is the new one |
| GameOfLife.NextCell | providers/game_of_life.py:28-35 | after a step a cell is alive iff it was alive with 2 or 3 live neighbours, or dead with exactly 3 |
| GameOfLife.Next | providers/game_of_life.py:26-35 | the next generation has the same height and width |
| GameOfLife.CornersTouch | providers/game_of_life.py:28-32 | neighbours are counted across the edges: the top-left cell sees the bottom-right one |
| GameOfLife.EmptyStaysEmpty | providers/game_of_life.py:26-40 | an empty grid stays empty |
| GameOfLife.AnyAliveMeaning | providers/game_of_life.py:49-52 | `np.any(grid)` holds iff some cell is alive |
| GameOfLife.GameOfLife.constructor | providers/game_of_life.py:8-16 | the grid is the drawn start with the given size; both counters are 0 |
| GameOfLife.GameOfLife.InitializeRandomGrid | providers/game_of_life.py:18-24 | every cell is written from the draws, row by row; both counters are 0 |
| GameOfLife.GameOfLife.Step | providers/game_of_life.py:26-47 | the grid becomes the next generation at the same size; the result is true iff the grid changed; `generation` grows by 1; `stable_count` resets on a change and grows by 1 otherwise |
| GameOfLife.GameOfLife.IsStableOrEmpty | providers/game_of_life.py:49-52 | true iff `stable_count >= 50` or no cell is alive |
| GameOfLife.GameOfLife.Reset | providers/game_of_life.py:54-56 | a new drawn start; both counters are 0 |
| GameOfLife.GameOfLife.GetGrid | providers/game_of_life.py:58-60 | the grid returned has the board's height and width |
| Button.EdgeRules | common/button.py:41-55 | a press records the time and re-arms both callbacks; a release after a press clears it and fires the short press iff the long press did not fire and a short callback is set; a release without a pending press does nothing |
| Button.PollRules | common/button.py:57-68 | the monitor fires the long press iff a pending, unreleased press is held at least `long_press_duration` and has not fired it, and then marks it fired |
| Button.OneCallbackPerPress | common/button.py:41-68 | between a press and the next press at most one callback fires, for any order of releases and monitor passes, each monitor pass taken as one step |
| Button.ReleaseDuringLongCallback | common/button.py:41-68 | the monitor pass is its callback line followed by its marking line; a release handled between the two fires the short press after the long press, where after the whole pass it fires nothing |
| Button.ApplyKeepsCycleInv | common/button.py:41-68 | a release or a monitor pass keeps the per-press invariant, counting one more callback when it fires one |
| Button.CycleRun | common/button.py:41-68 | after a press and any run of releases and monitor passes, the per-press invariant holds for the callbacks fired |
| Button.Button.constructor | common/button.py:9-29 | no press pending, released, the long press not triggered |
| Button.Button.ButtonCallback | common/button.py:41-55 | the fields and the callback fired are `Edge` of the pin level and the time |
| Button.Button.MonitorLongPress | common/button.py:59-66 | the fields and the callback fired are `Poll` of the time |
| Spotify.FormatArtists | music.py:115-119 | several artists are joined with ", ", one is returned as is; no artist raises |
| Spotify.Smallest | music.py:121-131 | the first image of least width |
| Spotify.FormatAlbumCover | music.py:121-131 | the default cover when there are no images; otherwise the url and size of the first image of least width |
| Spotify.SongNewness | music.py:177-181 | a song is new unless a song of the same artist and title is held |
| Spotify.FetchStatus | music.py:133-149 | a fetch reports only `OK`, `ERROR` or `EMPTY`, never one of the reply-only statuses |
| Spotify.CurrentlyPlayingRules | music.py:92-113 | `EMPTY` with a held song fetched at a positive time returns it as `OK_SHOW_CACHED`; any other status but `OK` is returned without a song; `OK` without data is `ERROR`; `OK_NEW_SONG` iff the new song is new |
| Spotify.EmptyAfterClearRaises | music.py:92-98 | after `setup()` clears the song, a 204 raises as written; the corrected version returns `EMPTY` |
| Spotify.CurrentlyPlaying | music.py:92-113 | the corrected reply: only a decoded body can raise, and a 204 with no song held is passed on as `EMPTY` |
| Spotify.CorrectionIsLocal | music.py:92-113 | the corrected and the written versions agree whenever a song is held or the fetch is not `EMPTY` |
| Spotify.HeldSongShownAndNotNew | music.py:170-181 | once a song fetched at a positive time is held, a 204 shows it again, and the same track fetched again is not new |
| Spotify.Spotify.Setup | music.py:51-53 | the token is refreshed now and no song is held |
| Spotify.Spotify.RefreshToken | music.py:64-69 | the new token on success, the old one on failure; the refresh time is set either way |
| Spotify.Spotify.CheckRefreshToken | music.py:164-168 | refreshes iff more than thirty minutes have passed since the last refresh |
| Spotify.Spotify.FetchCurrentlyPlaying | music.py:133-149 | the status is `FetchStatus`; a decoded body is kept as the current data |
| Spotify.Spotify.GetCurrentlyPlaying | music.py:92-113 | the reply is `CurrentlyPlaying` of the held song, the fetch status and the data; the held song is untouched |
| Spotify.Spotify.UpdateCurrentSong | music.py:170-172 | holds the song with its progress reset to 0 |
| Spotify.Spotify.ClearCurrentSong | music.py:174-175 | no song is held |
| Canvas.ClockParts | display/render_music.py:109-111 | `hours = s // 3600`, `minutes = (s % 3600) // 60`, `seconds = s % 60`: minutes and seconds are below 60, and together they make up `s` |
| Canvas.FormatTimeSign | display/render_music.py:113-115 | the text starts with "-" iff `is_negative`, and the rest is the colon-joined fields |
| Canvas.FormatTimeRoundTrip | display/display.py:147-154 | a number of seconds, written and read back, gives the same number and sign; three fields ("HH:MM:SS") from one hour on, two ("MM:SS") below |
| Canvas.ReadTimeFields | display.py:307-315 | the zero-padded fields read back as the seconds, three of them exactly from one hour on |
| Canvas.NegativeCountWraps | display/render_music.py:108-115 | a negative count has no whole hour: `-1` with the sign reads "-59:59" |
| SignDisplay.SongScrollsRules | display/render_music.py:26-36 | a scroll is registered for the title, and for the artist, exactly when the text is wider than the 128-pixel title area: speed 10, looping, wrapping, at (32, 0) or (32, 8) |
| SignDisplay.MusicRaisesAndSwaps | display/render_music.py:10-58 | `render_music_content` raises exactly on a song shown with a zero duration (the progress division); otherwise it ends with exactly one swap, its last effect |
| SignDisplay.MusicManagerCalls | display/render_music.py:20-58 | the manager is touched only on `OK_NEW_SONG`: "song_title" and "song_artist" are removed, then the new scrolls are added; when no song is shown, `EMPTY` draws "Nothing is playing" and any other status the API error text |
| SignDisplay.HandlerPerKind | display/display.py:52-72 | each message kind has its own handler, and every handler serves some kind |
| SignDisplay.RenderRules | display/display.py:52-84 | no message does nothing; `CLEAR` clears the manager, then the canvas, then swaps; a frame is set at its box's corner; text is drawn at the top left and shown; the clock, MBTA and MTA kinds are handed to their renderers; of the handlers modelled here only the music one can raise |
| SignDisplay.Display.Clear | display/display.py:74-77 | manager clear, canvas clear, swap, in that order |
| SignDisplay.Display.SwapCanvas | display/display.py:79-80 | one swap |
| SignDisplay.Display.RenderFrameContent | display/display.py:82-84 | the frame is set at `(bbox.x, bbox.y)` |
| SignDisplay.Display.RenderTextContent | display/display.py:89-93 | the text is drawn at the top left, then shown |
| SignDisplay.Display.UpdateDisplay | display/display.py:127-129 | the image is set at (0, 0) and swapped |
| SignDisplay.Display.RenderMusicContent | display/render_music.py:10-58 | raises exactly when `MusicEffects` is `None`, changing nothing; otherwise appends its effects |
| SignDisplay.Display.Render | display/display.py:52-72 | raises exactly when `RenderEffects` is `None`; otherwise appends the effects of the one handler of the message's kind |
| LegacyDisplay.ValueX | display.py:101-110 | `max(96, 160 - value_width)`: at least 96, the value ends at or right of the screen edge, and one of the two bounds is met |
| LegacyDisplay.ValueRightAligned | display.py:101-110 | a value up to 64 pixels wide ends at the right edge; a wider one starts at x = 96 |
| LegacyDisplay.SwapFirstTwoRules | display.py:88-94 | exchanging the first two predictions is undone by exchanging them again, is a permutation, and moves nothing else |
| LegacyDisplay.OrderedRules | display.py:88-94 | the top line has a label unless neither of the first two has; the pair is drawn in its own order or exchanged |
| LegacyDisplay.BoardRules | display.py:88-122 | the pixel at (159, 0) is set iff the status is `ERROR_SHOW_CACHED`; the two lines are drawn at y = 0 and y = 16; any other status draws only "Failed to fetch MBTA data" |
| LegacyDisplay.BannerAnimations | display.py:124-138 | "mbta_banner" is always registered, and "mbta_content_scroll_away" only when a board was drawn before |
| LegacyDisplay.Display.Clear | display.py:57-60 | manager clear, canvas clear, swap, in that order |
| LegacyDisplay.Display.UpdateDisplay | display.py:65-67 | the image is set at (0, 0) and swapped |
| LegacyDisplay.Display.RenderMbtaContent | display.py:80-122 | raises `IndexError` iff two lines are to be drawn from fewer than two predictions, changing nothing; otherwise a blank first line is exchanged with the second in the caller's list, and the board is shown and kept as the last MBTA image |
| LegacyDisplay.Display.RenderMbtaBannerContent | display.py:124-138 | raises iff there are fewer than two lines; otherwise registers the banner and the scroll-away, and the last board is unchanged |

## Left out

- Threads, locks, `start`/`stop`, and the pacing of the 60 Hz loops are not modelled: one pass of `_run_animations` is `Tick(frameCount)`. `StatusBroadcaster` is replaced by a station field, and the widget threads and `main.py` task loops are left out.
- Network, HTTP and JSON decoding are inputs: `Option<PredictionData>`, `Option<seq<StationJson>>`, `Fetch`. The base64 bearer token and the Flask servers are left out.
- Time is an input. Clock readings are integers, and ISO date parsing is replaced by second or millisecond differences.
- Randomness is an input: the Game of Life start grid and the shuffle in `MTAStartupAnimation`. The startup tiles are modelled in row-major order.
- Pixels and fonts: an image is the list of its drawing operations, and text widths are a function passed in. `get_image_with_color`, the MBTA and MTA board layouts of display/ (`render_mbta.py`, `render_mta.py`), `render_mta_content`, `render_clock_content` and `_mta_trim_train_name` of display.py, and `render_game_of_life.py` are left out. Their messages appear only as a `Delegated` effect.
- `_get_progress_bar_image`: the width of the filled part is a float ratio and is not modelled; only the two times are.
- `MoveAnimation` / `MBTABannerAnimation` positions are truncated to integers, as the display consumes them. The move is modelled for its endpoints and for axis-aligned moves.
- The animation manager calls a render makes are recorded as effects. They are not applied to a `DisplayScheduler.AnimationManager`.
- Speeds are positive integers. All callers use 60, 10 or 6, while the source allows floats.
- The manager's groups are values inside the manager. The aliasing of `AnimationGroup` objects between the dictionary and a caller is not captured; the `AnimationGroup` class is modelled on its own.
- The Game of Life convolution (`scipy.ndimage.convolve` with `mode='wrap'`) is written out as the eight-neighbour sum. Grids narrower or shorter than 3 cells are not treated specially.
- `str.lower()` is modelled for ASCII letters only.
- A JSON `null` `tripId` in the MTA feed is not modelled (the source would raise on `.replace`).
- display.py imports `MoveAnimation` from animation.py, which does not define it, so that module cannot be imported as written. Its renderers are modelled as if the import succeeded, with `MoveAway` standing for the scroll-away animation.
- `update_current_song` stores the caller's song object itself, and the caller may change it later. The model stores a value.
- DisplayAnimation.MtaStartupOnScreen: `MTAStartupAnimation` yields one mutable image again and again, and its later pastes change frames already yielded (display/animation.py:188-200). The model's frames are snapshots (`StartupMosaic`).
- DisplayScheduler.AnimationManager.Tick: display/animation.py:305 and :311 queue `RenderMessage` dataclasses, but display/display.py:52-72 reads each message with `.get("type")` and `["content"]`, so as written rendering them raises `AttributeError`. The model uses one `RenderMessage` datatype for the queue and the renderer.
- LegacyAnimation.AnimationManager.Tick: animation.py:210 and :219 name `RenderMessageType.ANIMATION_FRAME` and `ANIMATION_SWAP`, which common/common.py:29-39 does not define, so as written the first due frame raises `AttributeError`. The model queues `Frame` and `Swap` messages.
- SignDisplay.Display.Render: the message protocol is normalised. A dictionary with `"type"` and `"content"` becomes the `RenderMessage` variant of that kind.
- SignDisplay.RenderRules: the delegated handlers are recorded as a `Delegated` effect, and their own exceptions are not modelled, for example the `IndexError` of display/render_mbta.py:21-24 and :60 on short input.
- Button.OneCallbackPerPress: proved for monitor passes that fire and mark in one step. In the source the long-press callback runs (common/button.py:65) before `long_press_triggered` is set (:66), so a release handled in between fires the short press too (`ReleaseDuringLongCallback`).
- MtaProvider.GetPredictions: the `Legacy` client takes one clock reading for the whole call, where mta/mta.py:58 reads `datetime.now()` again for each train (:102).
- Spotify.Spotify.GetCurrentlyPlaying: takes one `now` per call, where music.py reads the clock separately at :68 and :94.
- Spotify.Spotify.CheckRefreshToken: takes `now` as an input, where music.py:165 reads the clock itself.
- MbtaProvider.Mbta.GetPredictions: requires one direction and one position per requested line; the source raises `IndexError` when there are fewer.
- LegacyMbta.Mbta.GetPredictions: requires at least two lines and directions that index the two-slot cache; with fewer the source raises `IndexError` in the test branch or the banner check.
- MbtaProvider.Mbta.UpdateLatestPredictions: requires directions that index the two-slot cache (0, 1, -1 or -2); any other direction raises `IndexError` in the source.
- GameOfLife.GameOfLife.Step: requires a well-shaped grid, which the constructor establishes and every method keeps.

## Findings

| source | as written | input that shows it | evidently intended | confidence | as-written member | corrected member |
|---|---|---|---|---|---|---|
| animation.py:193-194 | `clear()` empties `animations` but keeps `animation_groups`, so the next pass calls `get_animation(key).next_frame()` on `None` for every key still listed | any registered animation, then `clear()`, then a pass where its group is due | empty both dictionaries, as display/animation.py:275-280 does | not executed | LegacyAnimation.ClearThenTickRaises | LegacyAnimation.ClearAllThenTickIsQuiet |
| music.py:97 | on `EMPTY`, `self.current_song.timestamp_ms` is read without checking for a held song, and `setup()` has just set `current_song = None` | `setup()`, then a 204 reply to the first currently-playing request | show the cached song only when one is held, else pass `EMPTY` on | not executed | Spotify.EmptyAfterClearRaises | Spotify.CurrentlyPlaying |
