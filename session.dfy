/** The recording session state of the audio button (AudioButton.js) and the effect
    of each of its handlers on it, as pure functions from the state before the
    handler to the state after it together with the calls issued to the native
    audio engines.

    React's `setState` is treated as an immediate assignment. A native engine's
    answer (the path a stop resolves to, a duration, a polled position, a success
    flag) is a parameter of the step that receives it.
 */
module Session {
  import opened Permission

  /** `hasPermission`: undefined until the permission request resolves, then a
      boolean. Only `Granted` is truthy. */
  datatype PermissionState = Unknown | Granted | Denied

  /** `viewState`: which control layout `render` shows. */
  type ViewState = v: int | 0 <= v <= 2

  const Idle: ViewState := 0
  const RecordingView: ViewState := 1
  const Review: ViewState := 2

  /** How an awaited native recorder call (`stopRecording`, `pauseRecording`)
      settled: resolved with the file path, or rejected (the error is logged). */
  datatype EngineReply = Resolved(path: string) | Rejected

  /** The fixed options `prepareRecordingPath` passes to the recorder. */
  datatype RecordingOptions = RecordingOptions(
    sampleRate: nat, channels: nat, quality: string, encoding: string, bitRate: nat)

  const RecorderOptions: RecordingOptions := RecordingOptions(22050, 1, "Low", "aac", 32000)

  /** The file every take is written to. */
  const FileName: string := "/test.aac"

  /** A call into the native recorder (`AudioRecorder`) or player (`Sound`). */
  datatype EngineCall =
    | PrepareRecording(path: string, options: RecordingOptions)
    | StartRecording
    | StopRecording
    | PauseRecording
    | LoadSound(path: string)
    | PlaySound
    | StopSound

  /** The component's `state` object, plus the module-level `recordPlayer` and
      `timer` handles and whether the recorder callbacks have been installed.
      `timerActive` says whether the repeating timer `timer` refers to is live;
      `strayIntervals` counts the live repeating timers no handle refers to any
      more, which nothing in the component can clear. */
  datatype State = State(
    currentTime: int,
    recording: bool,
    stoppedRecording: bool,
    finished: bool,
    audioPath: string,
    hasPermission: PermissionState,
    viewState: ViewState,
    playingState: bool,
    playTotalTime: real,
    currentPlayTime: real,
    playerCreated: bool,
    timerActive: bool,
    strayIntervals: nat,
    listenersInstalled: bool)

  /** The state after a handler, and the engine calls it issued, in order. */
  datatype Outcome = Outcome(next: State, calls: seq<EngineCall>)

  /** What every reachable state satisfies: a live interval exists only once a
      player has been created (so a tick never finds `recordPlayer` undefined);
      and permission, and a fortiori recording, imply that the progress and
      finish callbacks are set. */
  ghost predicate Inv(s: State) {
    (s.timerActive || s.strayIntervals > 0 ==> s.playerCreated) &&
    (s.hasPermission == Granted ==> s.listenersInstalled) &&
    (s.recording ==> s.listenersInstalled)
  }

  /** The state the component is constructed with. */
  function Initial(documentDirectory: string): (s: State)
    ensures Inv(s) && !s.timerActive && s.strayIntervals == 0
    ensures s.audioPath == documentDirectory + FileName
    ensures s.hasPermission == Unknown && s.viewState == Idle
    ensures !s.recording && !s.stoppedRecording && !s.finished && s.playingState
    ensures s.currentTime == 0 && s.playTotalTime == 0.0 && s.currentPlayTime == 0.0
    ensures !s.playerCreated && !s.listenersInstalled
  {
    State(0, false, false, false, documentDirectory + FileName, Unknown, Idle,
          true, 0.0, 0.0, false, false, 0, false)
  }

  /** `componentDidMount`, once the permission request has resolved with `result`:
      the answer is stored and, when granted, the recording path is prepared and
      the progress and finish callbacks are installed. */
  function Mount(s: State, platform: Platform, result: RequestResult): (r: Outcome)
    ensures CheckPermission(platform, result) ==>
              r.next == s.(hasPermission := Granted, listenersInstalled := true) &&
              r.calls == [PrepareRecording(s.audioPath, RecorderOptions)]
    ensures !CheckPermission(platform, result) ==>
              r.next == s.(hasPermission := Denied) && r.calls == []
    ensures Inv(s) ==> Inv(r.next)
  {
    if CheckPermission(platform, result) then
      Outcome(s.(hasPermission := Granted, listenersInstalled := true),
              [PrepareRecording(s.audioPath, RecorderOptions)])
    else
      Outcome(s.(hasPermission := Denied), [])
  }

  /** The guards of `_record`: not already recording, and permission truthy. */
  predicate MayRecord(s: State) {
    !s.recording && s.hasPermission == Granted
  }

  /** `_record`. A guard that fails changes nothing and starts nothing. Otherwise
      the path is prepared again if a take has been stopped before, recording is
      started, and exactly `recording`, `viewState` and the two playback times
      change. `viewState` is not consulted. */
  function Record(s: State): (r: Outcome)
    ensures !MayRecord(s) ==> r == Outcome(s, [])
    ensures MayRecord(s) ==>
              r.next.recording && r.next.viewState == RecordingView &&
              r.next.playTotalTime == 0.0 && r.next.currentPlayTime == 0.0
    ensures MayRecord(s) ==>
              r.next.(recording := s.recording, viewState := s.viewState,
                      playTotalTime := s.playTotalTime, currentPlayTime := s.currentPlayTime) == s
    ensures MayRecord(s) ==>
              r.calls == (if s.stoppedRecording then [PrepareRecording(s.audioPath, RecorderOptions)] else [])
                         + [StartRecording]
    ensures Inv(s) ==> Inv(r.next)
  {
    if s.recording then Outcome(s, [])
    else if s.hasPermission != Granted then Outcome(s, [])
    else
      var prepare := if s.stoppedRecording then [PrepareRecording(s.audioPath, RecorderOptions)] else [];
      Outcome(s.(recording := true, playTotalTime := 0.0, currentPlayTime := 0.0, viewState := RecordingView),
              prepare + [StartRecording])
  }

  /** `_finishRecording`: only `finished` changes. */
  function FinishRecording(s: State, didSucceed: bool): (r: State)
    ensures r.finished == didSucceed
    ensures r.(finished := s.finished) == s
  {
    s.(finished := didSucceed)
  }

  /** Whether the recorder's answer to a stop or pause completes the take: only
      on Android, where the resolved call stands in for the finish callback. */
  predicate CompletesOnReply(platform: Platform, reply: EngineReply) {
    platform == Android && reply.Resolved?
  }

  /** `_stop`. When not recording nothing changes and nothing is called.
      Otherwise recording stops, the review view is shown and, on Android, a
      resolved stop marks the take finished; nothing else changes. */
  function Stop(s: State, platform: Platform, reply: EngineReply): (r: Outcome)
    ensures !s.recording ==> r == Outcome(s, [])
    ensures s.recording ==>
              !r.next.recording && r.next.stoppedRecording && r.next.viewState == Review &&
              r.calls == [StopRecording]
    ensures s.recording ==> r.next.finished == (CompletesOnReply(platform, reply) || s.finished)
    ensures r.next.(recording := s.recording, stoppedRecording := s.stoppedRecording,
                    viewState := s.viewState, finished := s.finished) == s
    ensures Inv(s) ==> Inv(r.next)
  {
    if !s.recording then Outcome(s, [])
    else
      var stopped := s.(stoppedRecording := true, recording := false, viewState := Review);
      var done := if CompletesOnReply(platform, reply) then FinishRecording(stopped, true) else stopped;
      Outcome(done, [StopRecording])
  }

  /** `_pause`: as `_stop`, except that the view is left as it was, so the
      recording view can remain on screen with `recording` false. */
  function Pause(s: State, platform: Platform, reply: EngineReply): (r: Outcome)
    ensures !s.recording ==> r == Outcome(s, [])
    ensures s.recording ==>
              !r.next.recording && r.next.stoppedRecording && r.next.viewState == s.viewState &&
              r.calls == [PauseRecording]
    ensures s.recording ==> r.next.finished == (CompletesOnReply(platform, reply) || s.finished)
    ensures r.next.(recording := s.recording, stoppedRecording := s.stoppedRecording,
                    finished := s.finished) == s
    ensures Inv(s) ==> Inv(r.next)
  {
    if !s.recording then Outcome(s, [])
    else
      var paused := s.(stoppedRecording := true, recording := false);
      var done := if CompletesOnReply(platform, reply) then FinishRecording(paused, true) else paused;
      Outcome(done, [PauseRecording])
  }

  /** The synchronous part of `_play`: an active recording is stopped first (its
      stop answered by `stopReply`), then playback is marked as running with both
      playback times reset. */
  function Play(s: State, platform: Platform, stopReply: EngineReply): (r: Outcome)
    ensures !r.next.recording
    ensures !r.next.playingState && r.next.currentPlayTime == 0.0 && r.next.playTotalTime == 0.0
    ensures r.calls == Stop(s, platform, stopReply).calls
    ensures r.next == Stop(s, platform, stopReply).next.(playingState := false,
                                                         currentPlayTime := 0.0, playTotalTime := 0.0)
    ensures !s.recording ==>
              r.next.(playingState := s.playingState, currentPlayTime := s.currentPlayTime,
                      playTotalTime := s.playTotalTime) == s && r.calls == []
    ensures Inv(s) ==> Inv(r.next)
  {
    var stopped := if s.recording then Stop(s, platform, stopReply) else Outcome(s, []);
    Outcome(stopped.next.(playingState := false, currentPlayTime := 0.0, playTotalTime := 0.0), stopped.calls)
  }

  /** The delayed part of `_play`: a player is created for the file, its
      `duration` becomes the total, a new repeating timer is stored in `timer`
      (a live one it replaces keeps running, unreferenced) and playback starts. */
  function StartPlayer(s: State, duration: real): (r: Outcome)
    ensures r.next.playerCreated && r.next.timerActive && r.next.playTotalTime == duration
    ensures r.next.strayIntervals == s.strayIntervals + (if s.timerActive then 1 else 0)
    ensures r.calls == [LoadSound(s.audioPath), PlaySound]
    ensures r.next.(playerCreated := s.playerCreated, timerActive := s.timerActive,
                    playTotalTime := s.playTotalTime, strayIntervals := s.strayIntervals) == s
    ensures Inv(s) ==> Inv(r.next)
  {
    Outcome(s.(playerCreated := true, playTotalTime := duration,
               strayIntervals := s.strayIntervals + (if s.timerActive then 1 else 0),
               timerActive := true),
            [LoadSound(s.audioPath), PlaySound])
  }

  /** The callback given to the player's `play`: whether playback `success`ed or
      failed to decode, `playingState` becomes true and nothing else changes. */
  function PlaybackEnded(s: State, success: bool): (r: Outcome)
    ensures r.next.playingState && r.next.(playingState := s.playingState) == s
    ensures r.calls == []
  {
    Outcome(s.(playingState := true), [])
  }

  /** `checkPlayingState`, run on each tick of an interval. Once playback is over
      the timer in `timer` is cleared (clearing an already cleared one does
      nothing) and no stray interval is touched. Otherwise only `currentPlayTime`
      changes, to the `position` the player reports; with no player the call
      throws before any state changes. */
  function CheckPlayingState(s: State, position: real): (r: Outcome)
    ensures s.playingState ==>
              !r.next.timerActive && r.next.(timerActive := s.timerActive) == s
    ensures !s.playingState && s.playerCreated ==> r.next == s.(currentPlayTime := position)
    ensures !s.playingState && !s.playerCreated ==> r.next == s
    ensures r.calls == []
    ensures Inv(s) ==> Inv(r.next)
  {
    if s.playingState then
      Outcome(s.(timerActive := false), [])
    else if s.playerCreated then Outcome(s.(currentPlayTime := position), [])
    else Outcome(s, [])
  }

  /** The interval `timer` refers to, firing once per reported position until a
      tick clears it or the positions run out. Only `currentPlayTime` and
      `timerActive` can change. A tick after playback has ended clears the
      timer at once; while playback goes on, the last position polled is shown. */
  function Poll(s: State, positions: seq<real>): (r: State)
    decreases |positions|
    ensures r.(currentPlayTime := s.currentPlayTime, timerActive := s.timerActive) == s
    ensures !s.timerActive || positions == [] ==> r == s
    ensures s.timerActive && s.playingState && positions != [] ==> r == s.(timerActive := false)
    ensures s.timerActive && !s.playingState && s.playerCreated && positions != [] ==>
              r.timerActive && r.currentPlayTime == positions[|positions| - 1]
    ensures Inv(s) ==> Inv(r)
  {
    if positions == [] || !s.timerActive then s
    else Poll(CheckPlayingState(s, positions[0]).next, positions[1..])
  }

  /** `_playStop`: playback is marked over, which the next tick turns into a
      cleared timer, and the player is asked to stop (with no player the delayed
      call throws and nothing is asked). */
  function PlayStop(s: State): (r: Outcome)
    ensures r.next.playingState && r.next.(playingState := s.playingState) == s
    ensures r.calls == (if s.playerCreated then [StopSound] else [])
    ensures Inv(s) ==> Inv(r.next)
  {
    Outcome(s.(playingState := true), if s.playerCreated then [StopSound] else [])
  }

  /** `onSaveButton`: back to the idle view; the file stays where it is. */
  function OnSaveButton(s: State): (r: Outcome)
    ensures r.next.viewState == Idle && r.next.(viewState := s.viewState) == s
    ensures r.calls == []
  {
    Outcome(s.(viewState := Idle), [])
  }

  /** `onCancelButton`: stop listening, then back to the idle view. */
  function OnCancelButton(s: State): (r: Outcome)
    ensures r.next.viewState == Idle && r.next.playingState
    ensures r.next.(viewState := s.viewState, playingState := s.playingState) == s
    ensures r.calls == (if s.playerCreated then [StopSound] else [])
    ensures Inv(s) ==> Inv(r.next)
  {
    var stopped := PlayStop(s);
    Outcome(OnSaveButton(stopped.next).next, stopped.calls)
  }

  /** The recorder's progress callback: the elapsed time, rounded down to whole
      seconds, becomes `currentTime`. Before the callback is installed the
      recorder reports to no one. */
  function OnProgress(s: State, elapsed: real): (r: Outcome)
    ensures s.listenersInstalled ==>
              r.next.currentTime as real <= elapsed < r.next.currentTime as real + 1.0 &&
              r.next.(currentTime := s.currentTime) == s
    ensures !s.listenersInstalled ==> r.next == s
    ensures r.calls == []
  {
    if s.listenersInstalled then Outcome(s.(currentTime := elapsed.Floor), []) else Outcome(s, [])
  }

  /** The recorder's finish callback: on iOS only, it completes the take, which
      has succeeded exactly when `status` is "OK". On Android the answer of the
      stop or pause call does this instead. */
  function OnFinished(s: State, platform: Platform, status: string, audioFileUrl: string): (r: Outcome)
    ensures s.listenersInstalled && platform == Ios ==>
              r.next.finished == (status == "OK") && r.next.(finished := s.finished) == s
    ensures !(s.listenersInstalled && platform == Ios) ==> r.next == s
    ensures r.calls == []
  {
    if s.listenersInstalled && platform == Ios then Outcome(FinishRecording(s, status == "OK"), [])
    else Outcome(s, [])
  }
}
