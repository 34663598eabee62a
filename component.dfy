/** The audio button component (AudioButton.js) as an object whose handlers update
    its fields in place. Each handler is proved to have exactly the effect the
    corresponding function of module `Session` describes, on the fields and on
    the log of native engine calls.
 */
module Component {
  import opened Permission
  import opened Session

  class AudioComponent {
    // The component's `state` object.
    var currentTime: int
    var recording: bool
    var stoppedRecording: bool
    var finished: bool
    const audioPath: string
    var hasPermission: PermissionState
    var viewState: ViewState
    var playingState: bool
    var playTotalTime: real
    var currentPlayTime: real
    // The module-level `recordPlayer` and `timer` handles.
    var playerCreated: bool
    var timerActive: bool
    var strayIntervals: nat
    // Whether `AudioRecorder.onProgress` and `onFinished` have been set.
    var listenersInstalled: bool
    // Every call issued to the native recorder and player, in order.
    ghost var calls: seq<EngineCall>

    /** The fields as one session state. */
    function Snapshot(): State
      reads this
    {
      State(currentTime, recording, stoppedRecording, finished, audioPath, hasPermission,
            viewState, playingState, playTotalTime, currentPlayTime,
            playerCreated, timerActive, strayIntervals, listenersInstalled)
    }

    ghost predicate Valid()
      reads this
    {
      Inv(Snapshot())
    }

    /** The initial `state`, with the output path under `documentDirectory`. */
    constructor (documentDirectory: string)
      ensures Valid() && Snapshot() == Initial(documentDirectory) && calls == []
    {
      currentTime := 0;
      recording, stoppedRecording, finished := false, false, false;
      audioPath := documentDirectory + FileName;
      hasPermission := Unknown;
      viewState := Idle;
      playingState := true;
      playTotalTime, currentPlayTime := 0.0, 0.0;
      playerCreated, timerActive, strayIntervals := false, false, 0;
      listenersInstalled := false;
      calls := [];
    }

    /** `prepareRecordingPath`: configures the recorder for the output file. */
    method PrepareRecordingPath()
      modifies this
      ensures Snapshot() == old(Snapshot())
      ensures calls == old(calls) + [PrepareRecording(audioPath, RecorderOptions)]
    {
      calls := calls + [PrepareRecording(audioPath, RecorderOptions)];
    }

    /** `componentDidMount`, once the permission request has answered `result`. */
    method ComponentDidMount(platform: Platform, result: RequestResult)
      requires Valid()
      modifies this
      ensures Valid()
      ensures Snapshot() == Mount(old(Snapshot()), platform, result).next
      ensures calls == old(calls) + Mount(old(Snapshot()), platform, result).calls
    {
      var granted := CheckPermission(platform, result);
      hasPermission := if granted then Granted else Denied;
      if !granted {
        return;
      }
      PrepareRecordingPath();
      listenersInstalled := true;
    }

    /** `_record`; `started` tells whether the guards let it through. */
    method Record() returns (started: bool)
      requires Valid()
      modifies this
      ensures Valid()
      ensures started == MayRecord(old(Snapshot()))
      ensures Snapshot() == Session.Record(old(Snapshot())).next
      ensures calls == old(calls) + Session.Record(old(Snapshot())).calls
    {
      if recording {
        return false;
      }
      if hasPermission != Granted {
        return false;
      }
      if stoppedRecording {
        PrepareRecordingPath();
      }
      recording, playTotalTime, currentPlayTime, viewState := true, 0.0, 0.0, RecordingView;
      calls := calls + [StartRecording];
      started := true;
    }

    /** `_finishRecording`. */
    method FinishRecording(didSucceed: bool, filePath: string)
      modifies this
      ensures Snapshot() == Session.FinishRecording(old(Snapshot()), didSucceed)
      ensures calls == old(calls)
    {
      finished := didSucceed;
    }

    /** `_stop`, the recorder's stop answering `reply`. */
    method Stop(platform: Platform, reply: EngineReply)
      requires Valid()
      modifies this
      ensures Valid()
      ensures Snapshot() == Session.Stop(old(Snapshot()), platform, reply).next
      ensures calls == old(calls) + Session.Stop(old(Snapshot()), platform, reply).calls
    {
      if !recording {
        return;
      }
      stoppedRecording, recording, viewState := true, false, Review;
      calls := calls + [StopRecording];
      if platform == Android && reply.Resolved? {
        FinishRecording(true, reply.path);
      }
    }

    /** `_pause`, the recorder's pause answering `reply`. */
    method Pause(platform: Platform, reply: EngineReply)
      requires Valid()
      modifies this
      ensures Valid()
      ensures Snapshot() == Session.Pause(old(Snapshot()), platform, reply).next
      ensures calls == old(calls) + Session.Pause(old(Snapshot()), platform, reply).calls
    {
      if !recording {
        return;
      }
      stoppedRecording, recording := true, false;
      calls := calls + [PauseRecording];
      if platform == Android && reply.Resolved? {
        FinishRecording(true, reply.path);
      }
    }

    /** `_play` up to its first delay; an active recording's stop answers `stopReply`. */
    method Play(platform: Platform, stopReply: EngineReply)
      requires Valid()
      modifies this
      ensures Valid()
      ensures Snapshot() == Session.Play(old(Snapshot()), platform, stopReply).next
      ensures calls == old(calls) + Session.Play(old(Snapshot()), platform, stopReply).calls
    {
      if recording {
        Stop(platform, stopReply);
      }
      playingState, currentPlayTime, playTotalTime := false, 0.0, 0.0;
    }

    /** `_play` after its delays: the player reports `duration`. */
    method StartPlayer(duration: real)
      requires Valid()
      modifies this
      ensures Valid()
      ensures Snapshot() == Session.StartPlayer(old(Snapshot()), duration).next
      ensures calls == old(calls) + Session.StartPlayer(old(Snapshot()), duration).calls
    {
      playerCreated := true;
      calls := calls + [LoadSound(audioPath)];
      playTotalTime := duration;
      if timerActive {
        strayIntervals := strayIntervals + 1;
      }
      timerActive := true;
      calls := calls + [PlaySound];
    }

    /** The callback the player calls when playback ends. */
    method OnPlaybackEnd(success: bool)
      requires Valid()
      modifies this
      ensures Valid()
      ensures Snapshot() == PlaybackEnded(old(Snapshot()), success).next
      ensures calls == old(calls)
    {
      playingState := true;
    }

    /** `checkPlayingState`, the player reporting `position`. */
    method CheckPlayingState(position: real)
      requires Valid()
      modifies this
      ensures Valid()
      ensures Snapshot() == Session.CheckPlayingState(old(Snapshot()), position).next
      ensures calls == old(calls)
    {
      if playingState {
        timerActive := false;
      } else if playerCreated {
        currentPlayTime := position;
      }
    }

    /** The interval in `timer`, ticking once per position in `positions` for as
        long as it is not cleared. */
    method PollTimer(positions: seq<real>)
      requires Valid()
      modifies this
      ensures Valid()
      ensures Snapshot() == Poll(old(Snapshot()), positions)
      ensures calls == old(calls)
    {
      var i := 0;
      while i < |positions| && timerActive
        invariant 0 <= i <= |positions|
        invariant Valid()
        invariant Poll(old(Snapshot()), positions) == Poll(Snapshot(), positions[i..])
        invariant calls == old(calls)
      {
        assert positions[i..][1..] == positions[i + 1..];
        CheckPlayingState(positions[i]);
        i := i + 1;
      }
    }

    /** `_playStop`. */
    method PlayStop()
      requires Valid()
      modifies this
      ensures Valid()
      ensures Snapshot() == Session.PlayStop(old(Snapshot())).next
      ensures calls == old(calls) + Session.PlayStop(old(Snapshot())).calls
    {
      playingState := true;
      if playerCreated {
        calls := calls + [StopSound];
      }
    }

    /** `onSaveButton`. */
    method OnSaveButton()
      requires Valid()
      modifies this
      ensures Valid()
      ensures Snapshot() == Session.OnSaveButton(old(Snapshot())).next
      ensures calls == old(calls)
    {
      viewState := Idle;
    }

    /** `onCancelButton`. */
    method OnCancelButton()
      requires Valid()
      modifies this
      ensures Valid()
      ensures Snapshot() == Session.OnCancelButton(old(Snapshot())).next
      ensures calls == old(calls) + Session.OnCancelButton(old(Snapshot())).calls
    {
      PlayStop();
      OnSaveButton();
    }

    /** `AudioRecorder.onProgress`, reporting `elapsed` seconds. */
    method OnProgress(elapsed: real)
      requires Valid()
      modifies this
      ensures Valid()
      ensures Snapshot() == Session.OnProgress(old(Snapshot()), elapsed).next
      ensures calls == old(calls)
    {
      if listenersInstalled {
        currentTime := elapsed.Floor;
      }
    }

    /** `AudioRecorder.onFinished`, reporting `status` and the file's URL. */
    method OnFinished(platform: Platform, status: string, audioFileUrl: string)
      requires Valid()
      modifies this
      ensures Valid()
      ensures Snapshot() == Session.OnFinished(old(Snapshot()), platform, status, audioFileUrl).next
      ensures calls == old(calls)
    {
      if listenersInstalled && platform == Ios {
        FinishRecording(status == "OK", audioFileUrl);
      }
    }
  }
}
