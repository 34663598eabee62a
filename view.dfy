/** What `render` takes from the session state (AudioButton.js).

    `render` picks one control layout by `viewState`: 0 shows the record button,
    1 the elapsed `currentTime` and the stop button, 2 either the Listen button
    (when `playingState` is true) or a progress bar that stops playback when
    tapped, beside the Cancel and Save buttons. The layouts themselves are
    presentation; the one computation is the fill of the progress bar.
 */
module View {
  import opened Session

  /** The fill of the playback progress bar: the played fraction, or 0 while the
      total duration is still 0, so there is never a division by zero. */
  function ProgressRatio(currentPlayTime: real, playTotalTime: real): (ratio: real)
    ensures playTotalTime == 0.0 ==> ratio == 0.0
    ensures playTotalTime != 0.0 ==> ratio * playTotalTime == currentPlayTime
    ensures 0.0 <= currentPlayTime <= playTotalTime ==> 0.0 <= ratio <= 1.0
  {
    if playTotalTime == 0.0 then 0.0 else currentPlayTime / playTotalTime
  }

  /** Right after Listen is tapped, before the player reports a duration, the
      bar is empty. */
  lemma ListenStartsWithEmptyBar(s: State, platform: Permission.Platform, stopReply: EngineReply)
    ensures var t := Play(s, platform, stopReply).next;
            ProgressRatio(t.currentPlayTime, t.playTotalTime) == 0.0
  {
  }
}
