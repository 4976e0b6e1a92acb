# ambry player hooks, modelled in Dafny

This project models the browser side of the ambry audiobook player. The Phoenix
LiveView hooks and the Alpine store are modelled as Dafny classes. Each class has the
fields the JavaScript object updates and one method per callback. Where a hook's
behaviour depends on something outside it, that dependency becomes a value or a small
class of its own:

- the media element (`Browser.AudioElement`);
- the window's timers and unload guard (`Browser.BrowserWindow`);
- registered event listeners (`Browser.EventTargets`);
- the dash.js player (`MediaPlayer.DashPlayer`);
- events pushed to the server, recorded as a log of `LiveView.Push` values.

JavaScript values are modelled where they matter. A number that can be `NaN` is a
`Js.Number`. Loose `!=` is `Js.Differs` and truthiness is `Js.Truthy`.
`String.split` and `Array.join` are modelled exactly on strings. `parseFloat` is
modelled for unsigned decimal notation only (see "Left out"). `undefined` and `null`
are `Option.None`, except an undefined number that only takes part in arithmetic and
comparisons, which is `Js.NaN`: the new Shaka hook's cached time before any `seeked`,
the time bar's `Unset` scrub state, and the new time bar's ratio before any move.

The modules:

- `PlayerStore`: the Alpine `player` store. It holds real (rate-scaled) and actual
  positions and durations, and the percentage listened. Its chapter window is
  recomputed by a backward scan, with a fast path that keeps the current window.
  The pure resolver `Resolve` is the reference the store's scan is proved against.
- `ShakaPlayer`, `ShakaPlayerLegacy`, `ShakaPlayerNew`: the three Shaka player hooks.
  They cover:
  - play/pause, seeking and rate steps;
  - the persist and update timers;
  - the unload guard;
  - de-duplicated rate and time reports;
  - `reload-media`: a load that runs at once when paused, or is deferred to the next
    `pause` event when playing. The deferred loads pile up, and folds (`AfterLoads`)
    describe what a run of them leaves behind.
- `TimeBar`, `TimeBarNew`: the two progress-bar hooks. They cover:
  - the scrub state computed from pointer geometry;
  - drag, commit on mouse-up and cancel on leaving the page;
  - the listener bookkeeping of `mounted`/`destroyed`;
  - the `h:mm:ss` timecode, proved injective through a parser that inverts it.
- `MediaControls`: the progress-bar drag that seeks the dash.js player.
- `MediaPlayer`: the dash.js player hook. Its CAN_PLAY handlers pile up across
  reloads.
- `InfiniteScroll`: at most one `load-more` request per rendered page.
- `DispatchValueChange`: a synthetic `change` event when the server rewrites `value`.
- `MaintainAttrs`: attributes listed in `data-attrs` survive a LiveView re-render.
- `CaptureClick`: one `pushEventTo` per click, with the payload collected from the
  `phx-value-*` attributes.

Three behaviours of the code are worth knowing, and the model keeps each of them:

- When the position precedes every chapter, `updateChapter`
  (assets/js/alpine/player.js:67-72) keeps a stale window. The window has the
  previous id and no start (`PlayerStore.StaleWindowBeforeFirstChapter`).
- Only shaka-player.js clamps the rate steps, to 0.5 and 3.0. Its `setPlaybackRate`
  takes any value (`ShakaPlayer.Hook.SetPlaybackRate`).
- The new hook's `playbackPaused` clears only the update timer, so the persist timer
  keeps running (`ShakaPlayerNew.StartPauseLeaksPersistTimer`).

## Model

| member | source | states |
|---|---|---|
| PlayerStore.PercentIgnoresRate | assets/js/alpine/player.js:33-47 | the percentage listened is the same whether computed from real or actual times, for every positive rate, so a rate change never moves it |
| PlayerStore.PercentBounds | assets/js/alpine/player.js:33-40 | a position within a positive duration gives a defined percentage between 0 and 100 |
| PlayerStore.LastAtOrBefore | assets/js/alpine/player.js:59-65 | the backward scan finds the last chapter starting at or before the position; every later chapter starts after it; none is found only when every chapter starts after it |
| PlayerStore.ResolveContains | assets/js/alpine/player.js:59-73 | for sorted chapters and a position before the end, a window exists exactly when some chapter has started, and that window contains the position |
| PlayerStore.WindowsAdjacent | assets/js/alpine/player.js:62-71 | a chapter's window ends where the next chapter's window starts, so the windows leave no gap |
| PlayerStore.LastWindowEndsAtDuration | assets/js/alpine/player.js:71 | the last chapter's window ends at the media's actual duration |
| PlayerStore.UpdatedWindowIsResolve | assets/js/alpine/player.js:49-74 | whenever the scan finds a chapter (or there is no current window), `updateChapter` keeps a current window that holds the position and otherwise yields the resolver's window |
| PlayerStore.StaleWindowBeforeFirstChapter | assets/js/alpine/player.js:67-73 | a position before the first chapter leaves the old chapter id with no start, where the resolver gives no window |
| PlayerStore.UpdatedWindowIdempotent | assets/js/alpine/player.js:49-74 | a second `updateChapter` at the same position changes nothing |
| PlayerStore.Store.constructor | assets/js/alpine/player.js:1-8 | the store starts with nothing loaded, no chapters, not playing and no window |
| PlayerStore.Store.LoadMedia | assets/js/alpine/player.js:10-17 | a load sets id, rate and chapters, derives real duration and position by dividing by the rate, sets the window as `updateChapter` would, and keeps the store's invariant (real = actual / rate) |
| PlayerStore.Store.SetPlaying | assets/js/alpine/player.js:19-21 | the store is playing afterwards |
| PlayerStore.Store.SetPaused | assets/js/alpine/player.js:23-25 | the store is paused afterwards |
| PlayerStore.Store.SetDuration | assets/js/alpine/player.js:27-31 | the real duration is the actual one divided by the rate; the invariant is kept |
| PlayerStore.Store.SetProgress | assets/js/alpine/player.js:33-40 | the real position is the actual one divided by the rate, the percentage is computed from them, the window is updated; the invariant is kept |
| PlayerStore.Store.SetPlaybackRate | assets/js/alpine/player.js:42-47 | a rate change keeps actual position and duration, rescales both real values by the new rate, leaves the percentage equal to actual position over actual duration, and keeps the invariant |
| PlayerStore.Store.UpdateChapter | assets/js/alpine/player.js:49-74 | the backward loop leaves exactly the window `UpdatedWindow` describes (fast path, scan, or stale fallback) |
| PlayerStore.LoadExample | assets/js/alpine/player.js:10-74 | 120 s at rate 2 is 60 s real; position 60 is 30 s real and 50 percent; chapters at 0 and 40 give chapter 1's window from 40 to 120 |
| ShakaPlayer.ClampTime | assets/js/hooks/shaka-player.js:77-91 | a relative seek's target is held within [0, duration] and left as is when already inside |
| ShakaPlayer.RateUp | assets/js/hooks/shaka-player.js:100-105 | one step up adds 0.05, never exceeding 3.0 |
| ShakaPlayer.RateDown | assets/js/hooks/shaka-player.js:107-112 | one step down subtracts 0.05, never going below 0.5 |
| ShakaPlayer.RateStepsStayInRange | assets/js/hooks/shaka-player.js:100-112 | from a rate in [0.5, 3.0] both steps stay in range, and a step up followed by a step down (or the reverse) returns to the same rate away from the bounds |
| ShakaPlayer.AfterLoadsLikeOne | assets/js/hooks/shaka-player.js:160-207 | any number of deferred loads of the same dataset leave the id, rate and loaded flag one load leaves, and the element plays exactly when the last successful load had autoplay (as before when none succeeded) |
| ShakaPlayer.Hook.Mounted | assets/js/hooks/shaka-player.js:26-61 | mounting is a load without autoplay from nothing cached, with no timers and nothing pushed |
| ShakaPlayer.Hook.PlayPause | assets/js/hooks/shaka-player.js:65-71 | toggles paused, leaving position and rate alone |
| ShakaPlayer.Hook.Seek | assets/js/hooks/shaka-player.js:73-75 | the element is at the requested time |
| ShakaPlayer.Hook.SeekRelative | assets/js/hooks/shaka-player.js:77-91 | with a cached rate the element moves by seconds times the rate, held to [0, duration], and the new time is pushed without persist; with no rate nothing happens |
| ShakaPlayer.Hook.SeekRatio | assets/js/hooks/shaka-player.js:93-98 | the element is at the ratio of its duration |
| ShakaPlayer.Hook.IncrementPlaybackRate | assets/js/hooks/shaka-player.js:100-105 | the element's rate is one clamped step up |
| ShakaPlayer.Hook.DecrementPlaybackRate | assets/js/hooks/shaka-player.js:107-112 | the element's rate is one clamped step down |
| ShakaPlayer.Hook.SetPlaybackRate | assets/js/hooks/shaka-player.js:228-230 | the element takes the given rate, unclamped |
| ShakaPlayer.Hook.LoadAndPlayMedia | assets/js/hooks/shaka-player.js:114-118 | one `load-media` push with the id |
| ShakaPlayer.Hook.PlaybackStarted | assets/js/hooks/shaka-player.js:126-132 | two fresh, distinct timers are added (a persisting and a non-persisting one), the unload guard is on, `playback-started` is pushed |
| ShakaPlayer.Hook.PlaybackPaused | assets/js/hooks/shaka-player.js:134-140 | exactly the hook's two timers are cleared, the unload guard is off, the position is pushed |
| ShakaPlayer.Hook.IntervalFired | assets/js/hooks/shaka-player.js:246-260 | a firing timer pushes the position, with the persist flag of that timer |
| ShakaPlayer.Hook.PlaybackRateChanged | assets/js/hooks/shaka-player.js:142-149 | a non-zero rate that differs from the cached one is cached and pushed once; otherwise nothing changes |
| ShakaPlayer.Hook.Seeked | assets/js/hooks/shaka-player.js:151-153 | a landed seek pushes the position as a persisted update |
| ShakaPlayer.Hook.ReloadMedia | assets/js/hooks/shaka-player.js:160-174 | the same id changes nothing; a new id loads at once when paused, or pauses and queues the load when playing; nothing is pushed and the timers are untouched |
| ShakaPlayer.Hook.PauseEvent | assets/js/hooks/shaka-player.js:168-173 | a pause runs the pause report and then every queued load in order (the `AfterLoads` fold), leaving the queue empty |
| ShakaPlayer.Hook.LoadMediaFromDataset | assets/js/hooks/shaka-player.js:176-208 | the element and the cache end as `AfterLoad` describes for the dataset and outcome |
| ShakaPlayer.StartThenPause | assets/js/hooks/shaka-player.js:126-140 | start then pause leaves no timer and no guard, with the two pushes in order |
| ShakaPlayer.ReloadWhilePlaying | assets/js/hooks/shaka-player.js:160-207 | a reload while playing keeps the old id until the pause, after which the new media is loaded and playing |
| ShakaPlayerLegacy.ParseTimeParam | assets/js/hooks/shaka_player.js:27-30 | the `#t=` fragment parse fails (the hook throws) exactly when the path has no `#` |
| ShakaPlayerLegacy.TimeParamOf | assets/js/hooks/shaka_player.js:27-30 | `url#t=x` yields `parseFloat(x)` |
| ShakaPlayerLegacy.TimeParamOfWholeSeconds | assets/js/hooks/shaka_player.js:27-30 | a whole number of seconds written in the fragment is read back as that number |
| ShakaPlayerLegacy.FragmentOfExample | assets/js/hooks/shaka_player.js:27-30 | `/m/7.mpd#t=42` starts at 42 |
| ShakaPlayerLegacy.AfterLoadsLastWins | assets/js/hooks/shaka_player.js:168-189 | of several deferred loads, the last one whose path parses decides the cached id; if none parses the id is unchanged |
| ShakaPlayerLegacy.Hook.Mounted | assets/js/hooks/shaka_player.js:25-73 | mounting aborts on a path without `#`, stops after the listeners when the load fails, and otherwise is ready; the element and cache end as one load without play |
| ShakaPlayerLegacy.Hook.PlayPause | assets/js/hooks/shaka_player.js:85-96 | toggles paused only when ready with enough data; position and rate untouched |
| ShakaPlayerLegacy.Hook.SeekRelative | assets/js/hooks/shaka_player.js:98-108 | when ready, moves by seconds times the element's rate within the duration; otherwise nothing |
| ShakaPlayerLegacy.Hook.SeekRatio | assets/js/hooks/shaka_player.js:110-113 | when ready, the element is at the ratio of its duration |
| ShakaPlayerLegacy.Hook.SetPlaybackRate | assets/js/hooks/shaka_player.js:115-118 | when ready, the element takes the rate |
| ShakaPlayerLegacy.Hook.LoadAndPlayMedia | assets/js/hooks/shaka_player.js:192-194 | one `load-and-play-media` push |
| ShakaPlayerLegacy.Hook.PlaybackStarted | assets/js/hooks/shaka_player.js:126-128 | pushes `playback-started` unless mounting aborted before the listeners |
| ShakaPlayerLegacy.Hook.PlaybackPaused | assets/js/hooks/shaka_player.js:130-134 | when ready, pushes and caches the position |
| ShakaPlayerLegacy.Hook.PlaybackRateChanged | assets/js/hooks/shaka_player.js:136-143 | when ready, a non-zero rate different from the cached one is cached and pushed once |
| ShakaPlayerLegacy.Hook.PlaybackTimeUpdated | assets/js/hooks/shaka_player.js:145-152 | when ready, a truthy time loosely different from the cached one is cached and pushed once |
| ShakaPlayerLegacy.Hook.ReloadMedia | assets/js/hooks/shaka_player.js:154-190 | same id only plays; a new id loads at once when paused or is captured and deferred when playing; nothing when not ready |
| ShakaPlayerLegacy.Hook.PauseEvent | assets/js/hooks/shaka_player.js:184-186 | a pause runs every deferred load in order and empties the queue |
| ShakaPlayerLegacy.Hook.LoadNewMedia | assets/js/hooks/shaka_player.js:168-182 | the element and cache end as `AfterLoad` describes for the captured request |
| ShakaPlayerLegacy.MountAtFragment | assets/js/hooks/shaka_player.js:25-55 | a mount on `#t=42` at rate 1.5 starts at 42 with rate 1.5 and pushes nothing |
| ShakaPlayerNew.UpdatePeriod | new/assets/js/hooks/shakaPlayer.js:234-238 | the update timer's period is one second of listening time: period times rate is 1000 ms |
| ShakaPlayerNew.SeekTarget | new/assets/js/hooks/shakaPlayer.js:68-81 | a relative seek target is a number exactly when the cached time and rate are, and then lies within [0, duration] |
| ShakaPlayerNew.SeeksAdd | new/assets/js/hooks/shakaPlayer.js:68-81 | two relative seeks inside the media equal one seek by their sum |
| ShakaPlayerNew.Hook.Mounted | new/assets/js/hooks/shakaPlayer.js:24-52 | mounting is a load without autoplay with no cached time and no timer |
| ShakaPlayerNew.Hook.PlayPause | new/assets/js/hooks/shakaPlayer.js:56-62 | toggles paused, position and rate untouched |
| ShakaPlayerNew.Hook.Seek | new/assets/js/hooks/shakaPlayer.js:64-66 | the element is at the requested time |
| ShakaPlayerNew.Hook.SeekRelative | new/assets/js/hooks/shakaPlayer.js:68-81 | the cached time moves to the clamped target, which is applied and pushed when a number |
| ShakaPlayerNew.Hook.SeekRatio | new/assets/js/hooks/shakaPlayer.js:83-88 | the element is at the ratio of its duration |
| ShakaPlayerNew.Hook.LoadAndPlayMedia | new/assets/js/hooks/shakaPlayer.js:90-94 | one `load-media` push |
| ShakaPlayerNew.Hook.PlaybackStarted | new/assets/js/hooks/shakaPlayer.js:102-108 | one fresh update timer kept by the hook, plus one fresh persisting timer it keeps no handle to; guard on; `playback-started` pushed |
| ShakaPlayerNew.Hook.PlaybackPaused | new/assets/js/hooks/shakaPlayer.js:110-116 | only the update timer is cleared; guard off; position pushed |
| ShakaPlayerNew.Hook.IntervalFired | new/assets/js/hooks/shakaPlayer.js:224-238 | a firing timer pushes the position with that timer's persist flag |
| ShakaPlayerNew.Hook.PlaybackRateChanged | new/assets/js/hooks/shakaPlayer.js:118-125 | a non-zero rate different from the cached one (an unset cache differs from every rate) is cached and pushed once; otherwise nothing changes |
| ShakaPlayerNew.Hook.Seeked | new/assets/js/hooks/shakaPlayer.js:127-130 | the landed position is cached and pushed as persisted |
| ShakaPlayerNew.Hook.ReloadMedia | new/assets/js/hooks/shakaPlayer.js:137-155 | the same id changes nothing; a new id loads at once when paused, or is queued behind a pause when playing |
| ShakaPlayerNew.Hook.PauseEvent | new/assets/js/hooks/shakaPlayer.js:145-151 | a pause reports, clears the update timer and runs every queued load in order |
| ShakaPlayerNew.Hook.LoadMediaFromDataset | new/assets/js/hooks/shakaPlayer.js:157-186 | the element and cache end as `AfterLoad` describes |
| ShakaPlayerNew.StartPauseLeaksPersistTimer | new/assets/js/hooks/shakaPlayer.js:102-116 | after start then pause exactly one timer is left, the persisting one |
| ShakaPlayerNew.SeekBeforeAndAfterSeeked | new/assets/js/hooks/shakaPlayer.js:68-130 | before any `seeked` the cached time is NaN and a relative seek does nothing; after one, it moves from the landed position |
| TimeBar.Pad | assets/js/hooks/timeBar.js:141 | a field below 10 gets a leading zero; other fields are their decimal digits |
| TimeBar.PadField | assets/js/hooks/timeBar.js:141 | a minutes or seconds field is two digits denoting its value |
| TimeBar.PadNat | assets/js/hooks/timeBar.js:141-146 | padding gives `"00"` exactly for zero, which is what the hours filter tests |
| TimeBar.StripLead | assets/js/hooks/timeBar.js:145-149 | the leading-zero strip removes exactly the pad's zero |
| TimeBar.AssembleWithoutHours | assets/js/hooks/timeBar.js:134-150 | under an hour the timecode is `m:ss` |
| TimeBar.AssembleWithHours | assets/js/hooks/timeBar.js:134-150 | from an hour on the timecode is `h:mm:ss` |
| TimeBar.TimecodeShape | assets/js/hooks/timeBar.js:134-150 | the timecode of n seconds is its hours, minutes and seconds in one of those two shapes |
| TimeBar.TimecodeFields | assets/js/hooks/timeBar.js:135-138 | hours, minutes and seconds recompose the number of seconds |
| TimeBar.ParseTimecodeOfTimecode | assets/js/hooks/timeBar.js:134-150 | reading a timecode back gives the seconds it was made from |
| TimeBar.TimecodeInjective | assets/js/hooks/timeBar.js:134-150 | different numbers of whole seconds have different timecodes |
| TimeBar.TimecodeExamples | assets/js/hooks/timeBar.js:134-150 | 0 is `0:00`, 65 is `1:05`, 600 is `10:00`, 3661 is `1:01:01` |
| TimeBar.HoverStyles | assets/js/hooks/timeBar.js:128-132 | the hover styles are no more than the classes |
| TimeBar.HoverStylesMembers | assets/js/hooks/timeBar.js:128-132 | a style is a hover style exactly when some class is `group-hover:` followed by it |
| TimeBar.HoverStylesAppend | assets/js/hooks/timeBar.js:128-132 | the hover styles of two class lists are those of each, in order |
| TimeBar.ScrubAt | assets/js/hooks/timeBar.js:33-39 | the position is the pointer held to the bar's width; ratio times width is the position; the ratio is at most 1 and negative left of the bar; the percentage is the ratio times 100 |
| TimeBar.ScrubMonotone | assets/js/hooks/timeBar.js:33-39 | moving right never lowers the ratio |
| TimeBar.Scale | assets/js/hooks/timeBar.js:59 | the hovered time is a number exactly when the ratio is |
| TimeBar.Hook.Mounted | assets/js/hooks/timeBar.js:2-23 | five listeners are registered on the wrapper, window and body, all fresh; state unset, not dragging |
| TimeBar.Hook.Attach | assets/js/hooks/timeBar.js:25-31 | one fresh listener is registered and remembered |
| TimeBar.Hook.UpdateUI | assets/js/hooks/timeBar.js:53-72 | the displayed timecode is that of the ratio times the duration |
| TimeBar.Hook.MouseDown | assets/js/hooks/timeBar.js:74-83 | a primary press snapshots the state, scrubs to the pointer and starts dragging; other buttons change nothing |
| TimeBar.Hook.MouseMove | assets/js/hooks/timeBar.js:85-88 | the state follows the pointer, dragging or not |
| TimeBar.Hook.MouseUp | assets/js/hooks/timeBar.js:90-95 | a drag ends with exactly one seek to the current ratio; no seek without a drag |
| TimeBar.Hook.MouseLeave | assets/js/hooks/timeBar.js:97-103 | leaving during a drag restores the snapshot with no seek |
| TimeBar.Hook.Resize | assets/js/hooks/timeBar.js:105-108 | the cached widths are the new ones |
| TimeBar.Hook.Destroyed | assets/js/hooks/timeBar.js:152-157 | exactly the hook's listeners are removed |
| TimeBar.CancelledDrag | assets/js/hooks/timeBar.js:74-103 | a committed drag seeks once; a drag cancelled by leaving restores its state and seeks nothing more |
| TimeBar.MountThenDestroy | assets/js/hooks/timeBar.js:2-157 | mount registers five listeners and destroy leaves none |
| TimeBarNew.Hook.Mounted | new/assets/js/hooks/timeBar.js:2-10 | four fresh listeners on the root and window; nothing dragged or seeked |
| TimeBarNew.Hook.Attach | new/assets/js/hooks/timeBar.js:12-18 | one fresh listener is registered and remembered |
| TimeBarNew.Hook.MouseDown | new/assets/js/hooks/timeBar.js:20-26 | a primary press starts a drag; other buttons leave the flag alone |
| TimeBarNew.Hook.MouseMove | new/assets/js/hooks/timeBar.js:28-34 | the state follows the pointer, ratio at most 1 |
| TimeBarNew.Hook.MouseUp | new/assets/js/hooks/timeBar.js:36-41 | a drag ends with one seek to the ratio; none without a drag |
| TimeBarNew.Hook.Resize | new/assets/js/hooks/timeBar.js:43-45 | the cached width is the new one |
| TimeBarNew.Hook.Destroyed | new/assets/js/hooks/timeBar.js:47-52 | exactly the hook's listeners are removed |
| TimeBarNew.SeekBeforeAnyMove | new/assets/js/hooks/timeBar.js:20-41 | a press and release with no move seeks NaN; after a move it seeks the ratio |
| TimeBarNew.MountThenDestroy | new/assets/js/hooks/timeBar.js:2-52 | mount registers four listeners and destroy leaves none |
| MediaControls.CalcRatio | assets/js/hooks/media_controls.js:8-14 | the ratio is in [0, 1], is offset over width on the bar, and is NaN exactly for a zero offset on a zero-width bar |
| MediaControls.CalcRatioOutside | assets/js/hooks/media_controls.js:8-14 | left of the bar is 0, right of it 1 |
| MediaControls.CalcRatioMonotone | assets/js/hooks/media_controls.js:8-14 | moving right never lowers the ratio |
| MediaControls.PositionDrag.constructor | assets/js/hooks/media_controls.js:15 | not dragging, nothing seeked |
| MediaControls.PositionDrag.MouseDown | assets/js/hooks/media_controls.js:17-23 | a press seeks once to the ratio and starts dragging; every seek stays in [0, 1] or NaN |
| MediaControls.PositionDrag.MouseMove | assets/js/hooks/media_controls.js:24-31 | a move seeks only while dragging |
| MediaControls.PositionDrag.MouseUp | assets/js/hooks/media_controls.js:32-34 | a release stops the drag without seeking |
| MediaControls.DragSequence | assets/js/hooks/media_controls.js:17-34 | hover, press, move, release, move seeks exactly at the press and the move during the drag |
| MediaPlayer.DashPlayer.Initialize | assets/js/hooks/media_player.js:7-9 | the player is on the path, paused, at rate 1, with nothing subscribed |
| MediaPlayer.SeekTarget | assets/js/hooks/media_player.js:49-52 | the target is the time plus seconds times the rate, NaN when the rate is |
| MediaPlayer.RatioTarget | assets/js/hooks/media_player.js:54-57 | a ratio in [0, 1] targets a point within the duration |
| MediaPlayer.Hook.Mounted | assets/js/hooks/media_player.js:4-29 | the player is created on the dataset's path with one CAN_PLAY handler that does not play; nothing pushed |
| MediaPlayer.Hook.Play | assets/js/hooks/media_player.js:37-41 | the page records this media as playing and the player plays |
| MediaPlayer.Hook.Pause | assets/js/hooks/media_player.js:43-47 | the page records nothing playing and the player pauses |
| MediaPlayer.Hook.SeekRelative | assets/js/hooks/media_player.js:49-52 | one seek to time plus seconds times rate, unclamped |
| MediaPlayer.Hook.SeekRatio | assets/js/hooks/media_player.js:54-57 | one seek to the ratio of the duration |
| MediaPlayer.Hook.CanPlay | assets/js/hooks/media_player.js:60-87 | with a rate attribute that parses, the rate is applied, the playback handlers are subscribed exactly once ever, the duration is pushed, and the player plays when asked; with one that does not, `setPlaybackRate` throws and nothing changes |
| MediaPlayer.Hook.CanPlayEvent | assets/js/hooks/media_player.js:10 | with a rate attribute that parses, every registered CAN_PLAY handler runs: the duration is pushed once per handler and the player plays when any handler asks; with one that does not, the first handler throws and nothing is pushed, subscribed or played |
| MediaPlayer.UnparsableRateStopsCanPlay | assets/js/hooks/media_player.js:60-87 | a rate attribute that does not parse leaves the first CAN_PLAY without a push and without subscriptions |
| MediaPlayer.Hook.PlaybackStarted | assets/js/hooks/media_player.js:89-91 | one `playback-started` push |
| MediaPlayer.Hook.PlaybackPaused | assets/js/hooks/media_player.js:93-96 | the position is pushed |
| MediaPlayer.Hook.PlaybackTimeUpdated | assets/js/hooks/media_player.js:103-106 | the position is pushed without persist |
| MediaPlayer.Hook.ReloadMedia | assets/js/hooks/media_player.js:139-148 | the player takes the new path and one more CAN_PLAY handler is added; nothing pushed |
| MediaPlayer.Hook.LoadAndPlayMedia | assets/js/hooks/media_player.js:150-152 | one `load-and-play-media` push |
| MediaPlayer.ReloadRunsEveryHandler | assets/js/hooks/media_player.js:60-148 | after one reload the next CAN_PLAY reports the duration twice, plays the new media and still has the handlers subscribed once |
| InfiniteScroll.Hook.Mounted | assets/js/hooks/infinite_scroll.js:13-24 | waits on the page on display and observes |
| InfiniteScroll.Hook.LoadMore | assets/js/hooks/infinite_scroll.js:5-11 | while observed, an intersection while waiting on the displayed page pushes one request and moves past the page; otherwise nothing changes; afterwards no request is pending for that page |
| InfiniteScroll.Hook.Updated | assets/js/hooks/infinite_scroll.js:28-30 | waits on the newly displayed page |
| InfiniteScroll.Hook.Destroyed | assets/js/hooks/infinite_scroll.js:25-27 | stops observing |
| InfiniteScroll.AtMostOnePerPage | assets/js/hooks/infinite_scroll.js:5-24 | three arbitrary intersections on one page give at most one request, none for a NaN page |
| InfiniteScroll.NextPageAfterUpdate | assets/js/hooks/infinite_scroll.js:5-30 | a render of the next page allows the next request |
| InfiniteScroll.NoRequestAfterDestroy | assets/js/hooks/infinite_scroll.js:5-27 | after `destroyed` an intersection on the waited-for page asks for nothing |
| DispatchValueChange.Hook.Mounted | assets/js/hooks/dispatch-value-change.js:2-19 | the value at mount is the last reported; observing |
| DispatchValueChange.Hook.Observe | assets/js/hooks/dispatch-value-change.js:5-16 | a batch gives one `change` exactly when it touches `value` and the value moved since last reported |
| DispatchValueChange.Hook.Destroyed | assets/js/hooks/dispatch-value-change.js:21-23 | the observer is disconnected |
| DispatchValueChange.RepeatedWrites | assets/js/hooks/dispatch-value-change.js:5-23 | repeated writes of one value give one event; a class change or a disconnected observer gives none |
| MaintainAttrs.Attrs | assets/js/hooks/maintainAttrs.js:2 | the list always has at least one name |
| MaintainAttrs.AttrsJoin | assets/js/hooks/maintainAttrs.js:2 | joining the names with `", "` gives back `data-attrs` |
| MaintainAttrs.AttrsOfTwo | assets/js/hooks/maintainAttrs.js:2 | two comma-free names joined by `", "` are split back into those two |
| MaintainAttrs.Lookup | assets/js/hooks/maintainAttrs.js:3 | `getAttribute` gives a value exactly for present attributes |
| MaintainAttrs.Record | assets/js/hooks/maintainAttrs.js:3 | each listed name is paired with its current value or null |
| MaintainAttrs.RestoreKeepsOthers | assets/js/hooks/maintainAttrs.js:4 | the restore leaves unlisted attributes alone |
| MaintainAttrs.RestoreRecorded | assets/js/hooks/maintainAttrs.js:3-4 | after the restore every listed attribute holds its recorded value (the text "null" when it was absent) |
| MaintainAttrs.Hook.Mounted | assets/js/hooks/maintainAttrs.js:1 | nothing recorded yet |
| MaintainAttrs.Hook.BeforeUpdate | assets/js/hooks/maintainAttrs.js:3 | the listed attributes are recorded |
| MaintainAttrs.Hook.Updated | assets/js/hooks/maintainAttrs.js:4 | the recorded attributes are written back, in order |
| MaintainAttrs.KeepAcrossRender | assets/js/hooks/maintainAttrs.js:2-4 | a render that changes two listed attributes and another is undone for the listed ones only |
| CaptureClick.GetAttribute | assets/js/hooks/capture_click.js:3-4 | a value exactly when the element has the attribute, and then that attribute's value |
| CaptureClick.StripPrefix | assets/js/hooks/capture_click.js:8-9 | a name gives key k exactly when it is `phx-value-` followed by k |
| CaptureClick.Values | assets/js/hooks/capture_click.js:7-11 | the payload has a key exactly when some attribute is `phx-value-` followed by it |
| CaptureClick.ValuesLookup | assets/js/hooks/capture_click.js:7-11 | with distinct names each key maps to its attribute's value |
| CaptureClick.CollectValues | assets/js/hooks/capture_click.js:7-11 | the loop builds exactly the payload `Values` describes |
| CaptureClick.Hook.Mounted | assets/js/hooks/capture_click.js:2-20 | target, event and payload are read once and one fresh click listener is registered |
| CaptureClick.Hook.Click | assets/js/hooks/capture_click.js:13-17 | while the listener is registered, one push of the mount-time target, event and payload, with default and propagation suppressed; once it is removed, nothing happens |
| CaptureClick.Hook.Destroyed | assets/js/hooks/capture_click.js:22-24 | exactly the click listener is removed |
| CaptureClick.ClickTwiceThenDestroy | assets/js/hooks/capture_click.js:2-24 | two clicks push the same payload twice, destroy leaves no listener, and a later click pushes nothing |

## Left out

- Numbers are exact reals. IEEE rounding, `toFixed(2)` in the store's percentage and
  the `Decimal` arithmetic of shaka-player.js are modelled as exact arithmetic.
- PlayerStore.Store.SetDuration: requires a positive cached rate. An unset or zero
  rate (a division by `undefined` or 0 giving NaN or Infinity) is not modelled.
- PlayerStore.Store.SetProgress: requires a positive cached rate and a duration, for
  the same reason.
- PlayerStore.Store.LoadMedia: requires a positive rate, for the same reason.
- TimeBar.ScrubAt: requires a positive bar width. The Infinity and NaN ratios of a
  zero-width bar are not modelled. The same holds for the two time-bar hooks, whose
  `Valid` requires a positive width.
- The rate and position attributes in the Shaka hooks' datasets are taken as the
  numbers they denote. The loose comparisons between a string attribute and a number
  are not modelled. media_player.js is different: it reads its rate attribute as a string
  through `parseFloat` (`Js.ParseFloat`).
- ShakaPlayer.Hook.LoadMediaFromDataset: the position is a number. An absent or
  non-numeric `data-media-position`, on which `new Decimal` throws before the id and
  the loaded flag are cached (so the load is abandoned), is not modelled.
- ShakaPlayerNew.Hook.LoadMediaFromDataset: the position is a number. The NaN that
  `parseFloat` gives for an absent or non-numeric `data-media-position`, which is
  handed to Shaka's `load` as the start time, is not modelled.
- MediaPlayer.Hook.CanPlay: a rate that `parseFloat` turns into NaN is taken to make
  dash.js's `setPlaybackRate` throw. dash.js is not part of this model.
- The iOS source branch (`os.ios`) and source selection in general.
- Asynchrony: a Shaka `load` is one step whose outcome (a duration or a failure) is a
  parameter. Events arriving while a load is pending are not interleaved.
- Layout work in `updateUI` and the class toggling and `phx-update` switch of
  `startDragging`/`endDragging`. Only the displayed timecode is modelled.
- ShakaPlayerLegacy.Hook.LoadNewMedia: a NaN start time is modelled as leaving the
  element's position where it was; what Shaka does with it is not modelled.
- ShakaPlayerNew.UpdatePeriod: a missing or zero rate is modelled as period 0.
- TimeBar.FormatTimecode goes through `parseInt` on the number's decimal text. The
  exponent notation of very large or very small numbers is not modelled: the seconds
  are truncated directly.
- Error logging (`onError`), console output, the Shaka polyfills and the
  `window.mediaPlayer` registration.
- dash.js internals. Seeks are recorded, not performed. `attachSource` sets only
  source and duration. The player's own events are method calls.
- `setupPositionDrag` in media_player.js is never called. Its logic is the same as
  media_controls.js, which is modelled once in `MediaControls`.
- The hooks' element reads (`Number(data-page)`, `el.value`, the dataset, pointer
  geometry, `clientWidth`) are parameters, read at the moment of the call.
- The observer objects themselves (`IntersectionObserver` options, `MutationObserver`
  configuration). Observation is a flag.
- `dispatchEvent` of the `change` event is a log of dispatched values. Bubbling is not
  modelled.
- MaintainAttrs.Hook.BeforeUpdate: when `data-attrs` is absent the source throws. The
  model leaves the recording unchanged instead.
- The element's attributes are an ordered list in capture_click and a map in
  maintainAttrs, as each hook uses them.
- `preventDefault` in the time-bar and media-controls listeners. It is modelled only
  for capture_click, where it is the point of the hook.
- The unused `hello` function of shaka_player.js.
- Js.ParseFloat: reads only unsigned decimal notation, digits with an optional
  fraction. Leading whitespace, a sign, an exponent and `Infinity` are not modelled:
  `parseFloat(" 5")`, `parseFloat("-5")` and `parseFloat("Infinity")` give NaN in the
  model, and `parseFloat("1e3")` gives 1. This reaches the `#t=` start time of
  shaka_player.js and the dataset rate of media_player.js.
- PlayerStore.Store.SetPlaybackRate: requires a positive rate and a loaded store, for
  the same reason as SetDuration. A zero rate (Infinity real values, a "NaN" percent)
  and a call before `loadMedia` (NaN everywhere) are not modelled.
- MaintainAttrs.Lookup: attribute names are taken as lowercase, valid attribute
  names. `getAttribute` and `setAttribute` lowercase a name on an HTML element, and
  `setAttribute` throws on an empty name; the model uses each listed name as an exact
  key instead.
- MaintainAttrs.Hook.Updated: writes each pair under its exact name, so with
  `data-attrs=""` it stores an empty name where the source throws (see
  MaintainAttrs.Lookup).
- A successful Shaka load is modelled as giving the element a new source: the
  element's load algorithm leaves it paused (`Browser.AudioElement.NewSource`), and
  the hook then plays it only with autoplay. What else the media player does to the
  element during a load (its `readyState`, events it fires) is not modelled.
