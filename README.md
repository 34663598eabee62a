# Audio button session model

A Dafny model of the recording session kept by `AudioComponent`, the React Native component in
`AudioButton.js`. The component lets the user record a clip, listen to it, and then save it or cancel.
The model covers these parts:

- the session state held in the component's `state` object, together with the module-level handles
  `recordPlayer` (modelled as `playerCreated`) and `timer` (modelled as `timerActive`);
- the microphone permission gate;
- every handler that changes the state: mount, record, stop, pause, play and its playback-finished
  callback, the position poll, stop-listening, save, cancel, and the recorder's progress and finish
  callbacks;
- the progress-bar fraction that `render` computes.

Files and modules:

- `permission.dfy`, module `Permission`: the host platform and the pure permission decision.
- `session.dfy`, module `Session`: the state as a datatype, and one pure function per handler. Each
  function maps the state before the handler to the state after it, plus the engine calls the handler
  issues. Each function's contract gives the handler's guards, the fields it changes, and that no other
  field changes.
- `component.dfy`, module `Component`: class `AudioComponent`. Its fields are the state, and it has one
  method per handler. Each method updates the fields in place. Each method is proved to match its
  `Session` function, both on the fields and on a ghost log of native engine calls. `PollTimer` models
  the repeating timer as a loop.
- `view.dfy`, module `View`: the progress-bar fraction.
- `traces.dfy`, module `Traces`: event sequences and what holds along every one of them. The invariant
  is kept. A stray timer is never cleared. Repeated record presses that the guards reject change
  nothing. The file also proves the Android and iOS takes, the pause that leaves the recording view on
  screen, and a replay that leaks a timer.

The native recorder, the native player and the permission dialog are outside the model. Whatever they
answer is a parameter of the step that receives it: the stop or pause reply, the duration, the polled
position, the playback success flag, the permission result and the iOS finish status. Each call the
component makes into them is appended to the log of `EngineCall` values. React's `setState` is an
immediate assignment.

The model follows the code where it differs from what the component is commonly described as doing:

- Recording does not imply the recording view. `_pause` clears `recording` but keeps `viewState`
  (AudioButton.js:93). `Traces.PauseKeepsRecordingView` shows a reachable state with
  `viewState == 1` and `recording == false`.
- `_record` does not look at `viewState`. It also does not reset `currentTime`; it resets only the two
  playback times (AudioButton.js:193).
- `_play` stores a new repeating timer in `timer` without clearing a live one (AudioButton.js:146). A
  timer replaced this way keeps running, and nothing clears it (`Traces.ReplayStrandsInterval`,
  `Traces.Run`).
- Nothing bounds the polled playback position by the total, so the model assumes no such bound.
- `stoppedRecording` is never reset. After the first stop or pause, every take prepares the path again.

## Model

| member | source | states |
|---|---|---|
| Permission.CheckPermission | AudioButton.js:70-86 | off Android recording is always permitted; on Android it is permitted exactly when the request answered `true` or the code "granted" |
| Session.Initial | AudioButton.js:24-35 | the initial state: idle view, permission unknown, not recording, playback over, both playback times 0, output path is the document directory plus "/test.aac", no player and no timer; it satisfies the invariant |
| Session.Mount | AudioButton.js:46-68 | a granted permission is stored, the path is prepared with the fixed options and the recorder callbacks are installed; a refusal is stored and nothing else changes; the invariant is kept |
| Session.Record | AudioButton.js:178-200 | when already recording or without a truthy permission: no change and no engine call; otherwise recording is set, the view becomes 1, both playback times become 0, nothing else changes, and the calls are prepare (only if a take was stopped before) then start |
| Session.FinishRecording | AudioButton.js:202-205 | `finished` becomes the success flag and nothing else changes |
| Session.Stop | AudioButton.js:107-125 | when not recording: no change and no call; otherwise recording is cleared, `stoppedRecording` is set, the view becomes 2 and stop is called; `finished` is set only on Android with a resolved reply; no other field changes |
| Session.Pause | AudioButton.js:87-105 | as for stop, but the view is unchanged and pause is called |
| Session.Play | AudioButton.js:127-133 | the result is the stop step's result with playback marked running and both playback times 0; so afterwards nothing is recording; when nothing was recording, only those three fields change and no call is made |
| Session.StartPlayer | AudioButton.js:136-159 | a player is created for the output file and played; the reported duration becomes the total; the timer handle is live, and a live handle it replaces becomes a stray interval; nothing else changes |
| Session.PlaybackEnded | AudioButton.js:149-157 | after either outcome of playback, `playingState` is true and nothing else changes |
| Session.CheckPlayingState | AudioButton.js:161-167 | once playback is over, the timer handle is cleared, stray intervals are untouched and nothing else changes; otherwise only `currentPlayTime` changes, to the polled position; with no player, nothing changes |
| Session.Poll | AudioButton.js:146-148 | the timer ticking through a series of positions changes only the shown position and the timer flag; after playback ends, one tick clears the timer; while playback runs, the last position polled is shown |
| Session.PlayStop | AudioButton.js:168-177 | `playingState` becomes true, nothing else changes, and the player is told to stop if one exists |
| Session.OnSaveButton | AudioButton.js:206-208 | the view becomes 0 and nothing else changes |
| Session.OnCancelButton | AudioButton.js:209-212 | the view becomes 0 and `playingState` true, nothing else changes, and the player is told to stop if one exists |
| Session.OnProgress | AudioButton.js:55-59 | once the callbacks are installed, `currentTime` is the reported elapsed time rounded down to whole seconds and nothing else changes; before that, nothing changes |
| Session.OnFinished | AudioButton.js:61-66 | on iOS, once installed, `finished` becomes whether the status is "OK" and nothing else changes; on other platforms it does nothing |
| View.ProgressRatio | AudioButton.js:343 | the bar is empty when the total is 0, so nothing divides by zero; otherwise the fill times the total is the position; a position between 0 and the total gives a fill between 0 and 1 |
| View.ListenStartsWithEmptyBar | AudioButton.js:132 | right after Listen, the bar shows 0 |
| Traces.Apply | AudioButton.js:46-212 | every handler keeps the invariant and the output path, and never lowers the number of stray intervals |
| Traces.Run | AudioButton.js:46-212 | along any event sequence the invariant holds and the output path is fixed; a stray interval is never cleared |
| Traces.RunAppend | AudioButton.js:46-212 | running two event sequences in turn is the same as running their concatenation, with the engine calls concatenated |
| Traces.RecordPressesAreIgnored | AudioButton.js:178-187 | any number of record presses made while recording, or without permission, changes nothing and issues no engine call |
| Traces.TicksWhilePlaying | AudioButton.js:161-167 | ticks while playback runs issue no call and change only the shown position, which ends at the last one polled |
| Traces.AndroidTake | AudioButton.js:107-121 | on Android, permission, record, progress reports 1, 2 and 3.2 s, then stop: 3 s are shown, the view is 2, the take is finished, and the calls are prepare, start, stop |
| Traces.IosTake | AudioButton.js:61-66 | on iOS the stop alone leaves the take unfinished; the finish callback then sets `finished` to whether the status is "OK" |
| Traces.PauseKeepsRecordingView | AudioButton.js:87-105 | permission, record, pause: the recording view stays up while `recording` is false |
| Traces.ReplayStrandsInterval | AudioButton.js:143-148 | listening again before the finished playback's timer ticks leaves one stray interval running |
| Component.AudioComponent.constructor | AudioButton.js:24-35 | the fields start out as `Session.Initial`, with an empty call log |
| Component.AudioComponent.PrepareRecordingPath | AudioButton.js:37-45 | logs one prepare call with 22050 Hz, mono, low quality, AAC and 32000 bit/s; no field changes |
| Component.AudioComponent.ComponentDidMount | AudioButton.js:46-68 | fields and log change exactly as `Session.Mount` says; the invariant is kept |
| Component.AudioComponent.Record | AudioButton.js:178-200 | fields and log change as `Session.Record` says; the result tells whether the guards passed |
| Component.AudioComponent.FinishRecording | AudioButton.js:202-205 | only `finished` changes, to the flag |
| Component.AudioComponent.Stop | AudioButton.js:107-125 | fields and log change as `Session.Stop` says |
| Component.AudioComponent.Pause | AudioButton.js:87-105 | fields and log change as `Session.Pause` says |
| Component.AudioComponent.Play | AudioButton.js:127-133 | stops an active recording through `Stop`, then changes the fields as `Session.Play` says |
| Component.AudioComponent.StartPlayer | AudioButton.js:136-159 | fields and log change as `Session.StartPlayer` says |
| Component.AudioComponent.OnPlaybackEnd | AudioButton.js:149-157 | fields change as `Session.PlaybackEnded` says and no call is logged |
| Component.AudioComponent.CheckPlayingState | AudioButton.js:161-167 | fields change as `Session.CheckPlayingState` says and no call is logged |
| Component.AudioComponent.PollTimer | AudioButton.js:146-148 | the loop of ticks leaves the fields as `Session.Poll` says |
| Component.AudioComponent.PlayStop | AudioButton.js:168-177 | fields and log change as `Session.PlayStop` says |
| Component.AudioComponent.OnSaveButton | AudioButton.js:206-208 | fields change as `Session.OnSaveButton` says |
| Component.AudioComponent.OnCancelButton | AudioButton.js:209-212 | runs `PlayStop` then `OnSaveButton`; fields and log change as `Session.OnCancelButton` says |
| Component.AudioComponent.OnProgress | AudioButton.js:55-59 | fields change as `Session.OnProgress` says |
| Component.AudioComponent.OnFinished | AudioButton.js:61-66 | fields change as `Session.OnFinished` says |

## Left out

- `render`'s layout, styles, the `StyleSheet`, `Dimensions` and the button JSX (AudioButton.js:213-413) are
  presentation. The module comment of `View` describes how `viewState` picks a layout. Only the
  progress fraction is modelled.
- The native recorder, the native player and the permission dialog are foreign code. Each call into
  them is a logged `EngineCall`, and each answer is a parameter. A rejected `startRecording` has no
  effect on the state, so it is not modelled.
- The `setTimeout` delays and the real ordering of asynchronous steps (AudioButton.js:136-159, 174-176)
  are left out. Each callback is a separate step:
  - the two delayed steps of `_play` are the single step `StartPlayer`, which creates the player and
    starts it;
  - `_playStop`'s delayed `stop()` is logged at the moment `_playStop` runs;
  - the `getCurrentTime` callback is applied within the tick;
  - in `_play`, the awaited `_stop` is complete, finish included, before playback state is reset.
- If `recordPlayer` is still undefined, the source throws a `TypeError` when it dereferences it. The
  model treats that as "no state change" and leaves the exception out.
- The path that `_stop` resolves to is returned to `_play` and then discarded. The model
  does not return it.
- Floating-point behaviour is left out. Times are Dafny `real`s; `Math.floor` is `Floor`, and the player's
  duration is any `real`.
- `console.log`/`warn`/`error` output is left out, including the load-error callback of `Sound`, which
  only logs.
- `AudioRecorder.onProgress`/`onFinished` and the module-level handles are shared by every instance of
  the component. The model has a single instance.
