/** The page wires the music player and the easter egg to the same background audio
    element and the same music button. The easter egg reads and writes the element
    directly and never updates the player's own isPlaying flag, so the two can disagree. */
module Page {
  import opened Dom
  import opened Music
  import opened Overlay

  /** The music is switched on, the dialog opened and then closed, and the background's
      resume request is rejected: the button shows the music off, the element is paused,
      yet the player still believes it is playing. */
  method StaleMusicFlag(player: MusicPlayer, egg: EasterEgg)
    requires egg.Valid()
    requires player.audio == egg.bg && player.button == egg.musicBtn
    requires !player.audio.failed && !player.isPlaying
    modifies player, player.audio, player.button, player.errorMsg
    modifies egg, egg.troll, egg.uiError
    ensures player.isPlaying
    ensures player.audio.paused
    ensures player.button.labelText == "Music: Off"
  {
    player.Toggle(true);
    assert egg.Valid();
    egg.Open(true);
    egg.CloseBtn(false);
  }
}
