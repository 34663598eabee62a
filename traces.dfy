/** Sequences of events delivered to one audio button (AudioButton.js), and what
    holds along them.

    An event is a button press, an answer of a native engine, or a tick of a
    repeating timer. Each is applied by the handler it invokes, in isolation: the
    delays the component waits for and the real interleaving of its asynchronous
    steps are not represented, only their order.
 */
module Traces {
  import opened Permission
  import opened Session

  datatype Event =
    | PermissionResolved(result: RequestResult)          // componentDidMount, after the request
    | RecordPressed                                      // _record
    | StopPressed(reply: EngineReply)                    // _stop
    | PausePressed(reply: EngineReply)                   // _pause
    | ListenPressed(stopReply: EngineReply)              // _play, up to its first delay
    | PlayerStarted(duration: real)                      // _play, after its delays
    | PlaybackFinished(success: bool)                    // the callback given to play
    | TimerTick(position: real)                          // checkPlayingState
    | StopListeningPressed                               // _playStop
    | SavePressed                                        // onSaveButton
    | CancelPressed                                      // onCancelButton
    | RecorderProgress(elapsed: real)                    // AudioRecorder.onProgress
    | RecorderFinished(status: string, audioFileUrl: string) // AudioRecorder.onFinished

  /** The handler an event invokes. Every handler keeps the invariant, keeps the
      output path, and never clears a stray interval. */
  function Apply(platform: Platform, s: State, e: Event): (r: Outcome)
    ensures Inv(s) ==> Inv(r.next)
    ensures r.next.audioPath == s.audioPath
    ensures s.strayIntervals <= r.next.strayIntervals
  {
    match e
    case PermissionResolved(result) => Mount(s, platform, result)
    case RecordPressed => Record(s)
    case StopPressed(reply) => Stop(s, platform, reply)
    case PausePressed(reply) => Pause(s, platform, reply)
    case ListenPressed(stopReply) => Play(s, platform, stopReply)
    case PlayerStarted(duration) => StartPlayer(s, duration)
    case PlaybackFinished(success) => PlaybackEnded(s, success)
    case TimerTick(position) => CheckPlayingState(s, position)
    case StopListeningPressed => PlayStop(s)
    case SavePressed => OnSaveButton(s)
    case CancelPressed => OnCancelButton(s)
    case RecorderProgress(elapsed) => OnProgress(s, elapsed)
    case RecorderFinished(status, url) => OnFinished(s, platform, status, url)
  }

  /** The state after a sequence of events on one platform, and every engine call
      issued on the way, in order. The invariant holds all along, and the number
      of stray intervals never goes down: one a replayed playback strands keeps
      running for the component's whole life. */
  function Run(platform: Platform, s: State, events: seq<Event>): (r: Outcome)
    decreases |events|
    ensures Inv(s) ==> Inv(r.next)
    ensures r.next.audioPath == s.audioPath
    ensures s.strayIntervals <= r.next.strayIntervals
  {
    if events == [] then Outcome(s, [])
    else
      var first := Apply(platform, s, events[0]);
      var rest := Run(platform, first.next, events[1..]);
      Outcome(rest.next, first.calls + rest.calls)
  }

  /** Running two sequences one after the other is running their concatenation. */
  lemma {:induction false} RunAppend(platform: Platform, s: State, a: seq<Event>, b: seq<Event>)
    ensures var ra := Run(platform, s, a);
            var rb := Run(platform, ra.next, b);
            Run(platform, s, a + b) == Outcome(rb.next, ra.calls + rb.calls)
    decreases |a|
  {
    if a == [] {
      assert a + b == b;
    } else {
      var first := Apply(platform, s, a[0]);
      assert (a + b)[0] == a[0];
      assert (a + b)[1..] == a[1..] + b;
      RunAppend(platform, first.next, a[1..], b);
      var ra := Run(platform, first.next, a[1..]);
      var rb := Run(platform, ra.next, b);
      assert first.calls + (ra.calls + rb.calls) == (first.calls + ra.calls) + rb.calls;
    }
  }

  /** Running a sequence that starts with `e` applies `e`, then runs the rest. */
  lemma RunCons(platform: Platform, s: State, e: Event, rest: seq<Event>)
    ensures var first := Apply(platform, s, e);
            var r := Run(platform, first.next, rest);
            Run(platform, s, [e] + rest) == Outcome(r.next, first.calls + r.calls)
  {
    assert ([e] + rest)[1..] == rest;
  }

  /** `n` presses of the record button in a row. */
  function RecordPresses(n: nat): (events: seq<Event>)
    ensures |events| == n && forall i :: 0 <= i < n ==> events[i] == RecordPressed
  {
    seq(n, _ => RecordPressed)
  }

  /** Pressing record any number of times while already recording, or without
      permission, changes nothing and starts nothing. */
  lemma {:induction false} RecordPressesAreIgnored(platform: Platform, s: State, n: nat)
    requires !MayRecord(s)
    ensures Run(platform, s, RecordPresses(n)) == Outcome(s, [])
    decreases n
  {
    if n > 0 {
      assert RecordPresses(n)[1..] == RecordPresses(n - 1);
      RecordPressesAreIgnored(platform, s, n - 1);
    }
  }

  /** One timer tick per polled position, in order. */
  function Ticks(positions: seq<real>): (events: seq<Event>)
    ensures |events| == |positions|
    ensures forall i :: 0 <= i < |positions| ==> events[i] == TimerTick(positions[i])
  {
    if positions == [] then [] else [TimerTick(positions[0])] + Ticks(positions[1..])
  }

  /** Ticks that never see playback end change only the shown position, which
      ends at the last one polled, and call nothing. */
  lemma {:induction false} TicksWhilePlaying(platform: Platform, s: State, positions: seq<real>)
    requires !s.playingState && s.playerCreated
    ensures var r := Run(platform, s, Ticks(positions));
            r.calls == [] &&
            r.next.(currentPlayTime := s.currentPlayTime) == s &&
            (positions != [] ==> r.next.currentPlayTime == positions[|positions| - 1])
    decreases |positions|
  {
    if positions != [] {
      var t := CheckPlayingState(s, positions[0]).next;
      RunCons(platform, s, TimerTick(positions[0]), Ticks(positions[1..]));
      TicksWhilePlaying(platform, t, positions[1..]);
    }
  }

  /** A whole take on Android: permission granted,
      record, three progress reports, stop. The elapsed time shown is 3 seconds,
      the review view is up and the take is finished. */
  lemma AndroidTake(documentDirectory: string, path: string)
    ensures var r := Run(Android, Initial(documentDirectory),
                         [PermissionResolved(Code(GrantedCode)), RecordPressed,
                          RecorderProgress(1.0), RecorderProgress(2.0), RecorderProgress(3.2),
                          StopPressed(Resolved(path))]);
            r.next.currentTime == 3 && r.next.viewState == Review &&
            !r.next.recording && r.next.stoppedRecording && r.next.finished &&
            r.calls == [PrepareRecording(documentDirectory + FileName, RecorderOptions),
                        StartRecording, StopRecording]
  {
    var s0 := Initial(documentDirectory);
    var o1 := Mount(s0, Android, Code(GrantedCode));
    var o2 := Record(o1.next);
    var s3 := OnProgress(o2.next, 1.0).next;
    var s4 := OnProgress(s3, 2.0).next;
    var s5 := OnProgress(s4, 3.2).next;
    RunCons(Android, s5, StopPressed(Resolved(path)), []);
    RunCons(Android, s4, RecorderProgress(3.2), [StopPressed(Resolved(path))]);
    RunCons(Android, s3, RecorderProgress(2.0), [RecorderProgress(3.2), StopPressed(Resolved(path))]);
    RunCons(Android, o2.next, RecorderProgress(1.0),
            [RecorderProgress(2.0), RecorderProgress(3.2), StopPressed(Resolved(path))]);
    RunCons(Android, o1.next, RecordPressed,
            [RecorderProgress(1.0), RecorderProgress(2.0), RecorderProgress(3.2), StopPressed(Resolved(path))]);
    RunCons(Android, s0, PermissionResolved(Code(GrantedCode)),
            [RecordPressed, RecorderProgress(1.0), RecorderProgress(2.0), RecorderProgress(3.2),
             StopPressed(Resolved(path))]);
  }

  /** The same take on iOS: the stop alone does not finish it; the recorder's
      finish callback does, with the status it reports. */
  lemma IosTake(documentDirectory: string, path: string, status: string, url: string)
    ensures var before := Run(Ios, Initial(documentDirectory),
                              [PermissionResolved(Flag(false)), RecordPressed,
                               StopPressed(Resolved(path))]);
            var after := Run(Ios, before.next, [RecorderFinished(status, url)]);
            before.next.viewState == Review && !before.next.finished &&
            after.next.finished == (status == "OK")
  {
    var s0 := Initial(documentDirectory);
    var s1 := Mount(s0, Ios, Flag(false)).next;
    var s2 := Record(s1).next;
    var s3 := Stop(s2, Ios, Resolved(path)).next;
    RunCons(Ios, s2, StopPressed(Resolved(path)), []);
    RunCons(Ios, s1, RecordPressed, [StopPressed(Resolved(path))]);
    RunCons(Ios, s0, PermissionResolved(Flag(false)), [RecordPressed, StopPressed(Resolved(path))]);
    RunCons(Ios, s3, RecorderFinished(status, url), []);
  }

  /** Pausing leaves the recording view on screen although recording has
      stopped: the view does not imply that a recording is under way. */
  lemma PauseKeepsRecordingView(platform: Platform, documentDirectory: string, reply: EngineReply)
    ensures var r := Run(platform, Initial(documentDirectory),
                         [PermissionResolved(Flag(true)), RecordPressed, PausePressed(reply)]);
            r.next.viewState == RecordingView && !r.next.recording
  {
    var s0 := Initial(documentDirectory);
    var s1 := Mount(s0, platform, Flag(true)).next;
    var s2 := Record(s1).next;
    RunCons(platform, s2, PausePressed(reply), []);
    RunCons(platform, s1, RecordPressed, [PausePressed(reply)]);
    RunCons(platform, s0, PermissionResolved(Flag(true)), [RecordPressed, PausePressed(reply)]);
  }

  /** Listening again before the finished playback's timer has ticked replaces
      the live `timer` handle without clearing it; that interval keeps polling. */
  lemma ReplayStrandsInterval(platform: Platform, documentDirectory: string, duration: real)
    ensures var r := Run(platform, Initial(documentDirectory),
                         [ListenPressed(Rejected), PlayerStarted(duration), PlaybackFinished(true),
                          ListenPressed(Rejected), PlayerStarted(duration)]);
            r.next.strayIntervals == 1 && r.next.timerActive
  {
    var s0 := Initial(documentDirectory);
    var s1 := Play(s0, platform, Rejected).next;
    var s2 := StartPlayer(s1, duration).next;
    var s3 := PlaybackEnded(s2, true).next;
    var s4 := Play(s3, platform, Rejected).next;
    RunCons(platform, s4, PlayerStarted(duration), []);
    RunCons(platform, s3, ListenPressed(Rejected), [PlayerStarted(duration)]);
    RunCons(platform, s2, PlaybackFinished(true), [ListenPressed(Rejected), PlayerStarted(duration)]);
    RunCons(platform, s1, PlayerStarted(duration),
            [PlaybackFinished(true), ListenPressed(Rejected), PlayerStarted(duration)]);
    RunCons(platform, s0, ListenPressed(Rejected),
            [PlayerStarted(duration), PlaybackFinished(true), ListenPressed(Rejected), PlayerStarted(duration)]);
  }
}
