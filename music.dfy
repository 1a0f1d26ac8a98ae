/** The background-music toggle (class MusicPlayer). The outcome of the asynchronous
    play request is a parameter: true when its promise resolves, false when it is rejected. */
module Music {
  import opened Dom

  const NOT_FOUND: string := "Music file not found / unsupported"
  const MUSIC_VOLUME: real := 0.35

  class MusicPlayer {
    const audio: Track
    const button: Indicator
    const errorMsg: ErrorBanner
    /** The player's own belief about the background track; only the toggle updates it. */
    var isPlaying: bool

    constructor (audio: Track, button: Indicator, errorMsg: ErrorBanner)
      modifies audio
      ensures this.audio == audio && this.button == button && this.errorMsg == errorMsg
      ensures !isPlaying
      ensures audio.volume == MUSIC_VOLUME
      ensures audio.paused == old(audio.paused) && audio.currentTime == old(audio.currentTime)
      ensures audio.failed == old(audio.failed)
    {
      this.audio, this.button, this.errorMsg := audio, button, errorMsg;
      isPlaying := false;
      new;
      audio.SetVolume(MUSIC_VOLUME);
    }

    /** The audio element reported that its source cannot be loaded:
        the message is shown and the button disabled. */
    method AudioError()
      modifies errorMsg, button
      ensures errorMsg.text == NOT_FOUND && errorMsg.shown
      ensures button.disabled
      ensures button.ariaPressed == old(button.ariaPressed) && button.labelText == old(button.labelText)
      ensures button.dot == old(button.dot)
    {
      errorMsg.Show(NOT_FOUND);
      button.Disable();
    }

    /** A click on the music button. With a failed source nothing changes but the error
        message; a playing track is paused; otherwise a play request is made and the
        player is playing exactly when it resolves. In the last two cases the button
        shows the new state. */
    method Toggle(playOk: bool)
      modifies this, audio, button, errorMsg
      ensures audio.failed == old(audio.failed) && audio.volume == old(audio.volume)
      ensures audio.currentTime == old(audio.currentTime)
      ensures button.disabled == old(button.disabled)
      ensures old(audio.failed) ==>
                && isPlaying == old(isPlaying)
                && errorMsg.text == NOT_FOUND && errorMsg.shown
                && audio.paused == old(audio.paused)
                && unchanged(button)
      ensures !old(audio.failed) && old(isPlaying) ==>
                && !isPlaying && audio.paused
                && button.Shows(false)
                && unchanged(errorMsg)
      ensures !old(audio.failed) && !old(isPlaying) ==>
                && isPlaying == playOk
                && button.Shows(playOk)
                && (playOk ==> !audio.paused && !errorMsg.shown && errorMsg.text == old(errorMsg.text))
                && (!playOk ==> audio.paused == old(audio.paused) && errorMsg.text == CANNOT_PLAY && errorMsg.shown)
    {
      if audio.failed {
        errorMsg.Show(NOT_FOUND);
        return;
      }
      if isPlaying {
        audio.Pause();
        isPlaying := false;
        button.Show(isPlaying);
        return;
      }
      audio.Play(playOk);
      if playOk {
        isPlaying := true;
        button.Show(isPlaying);
        errorMsg.Hide();
      } else {
        errorMsg.Show(CANNOT_PLAY);
        isPlaying := false;
        button.Show(isPlaying);
      }
    }
  }

  /** Two clicks whose play requests succeed bring the player back to where it was,
      and the button shows that state. */
  method ToggleTwice(p: MusicPlayer)
    requires !p.audio.failed
    modifies p, p.audio, p.button, p.errorMsg
    ensures p.isPlaying == old(p.isPlaying)
    ensures p.audio.paused == !p.isPlaying
    ensures p.button.Shows(p.isPlaying)
  {
    p.Toggle(true);
    p.Toggle(true);
  }
}
