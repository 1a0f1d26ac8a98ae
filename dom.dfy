/** The parts of the page the audio logic reads and writes: the two audio elements,
    the music toggle button with its status dot and label, and the inline error message.
    They are objects because the music player and the easter-egg dialog share them. */
module Dom {

  /** The message shown when a play request is rejected. */
  const CANNOT_PLAY: string := "Cannot play audio"

  /** The background and box-shadow of the music button's status dot. */
  datatype DotStyle = DotStyle(background: string, boxShadow: string)

  /** Gold glow for music on, dim red for music off. */
  const GOLD_DOT: DotStyle := DotStyle("rgba(255,215,0,0.75)", "0 0 14px rgba(255,215,0,0.45)")
  const RED_DOT: DotStyle := DotStyle("rgba(255,68,68,0.55)", "0 0 12px rgba(255,68,68,0.35)")

  /** Text of the music button's label for a given on/off state. */
  function Label(on: bool): (s: string)
    ensures s == "Music: On" <==> on
    ensures s == "Music: Off" <==> !on
  {
    if on then "Music: On" else "Music: Off"
  }

  /** Value of the button's aria-pressed attribute: the state written as a string. */
  function AriaPressed(on: bool): (s: string)
    ensures s == "true" <==> on
    ensures s == "false" <==> !on
  {
    if on then "true" else "false"
  }

  /** Style of the status dot for a given on/off state. */
  function Dot(on: bool): (d: DotStyle)
    ensures d == GOLD_DOT <==> on
    ensures d == RED_DOT <==> !on
  {
    if on then GOLD_DOT else RED_DOT
  }

  /** The indicator's three outputs determine the state they show. */
  lemma ShownStateIsUnique(on: bool, on': bool)
    requires Label(on) == Label(on') || AriaPressed(on) == AriaPressed(on') || Dot(on) == Dot(on')
    ensures on == on'
  {
  }

  /** An audio element: paused flag, playback position in seconds, volume, and whether
      its source failed to load. */
  class Track {
    var paused: bool
    var currentTime: real
    var volume: real
    var failed: bool

    method Pause()
      modifies this
      ensures paused
      ensures currentTime == old(currentTime) && volume == old(volume) && failed == old(failed)
    {
      paused := true;
    }

    /** A play request whose promise resolves when ok and is rejected otherwise;
        a rejected request leaves the element as it was. */
    method Play(ok: bool)
      modifies this
      ensures ok ==> !paused
      ensures !ok ==> paused == old(paused)
      ensures currentTime == old(currentTime) && volume == old(volume) && failed == old(failed)
    {
      if ok {
        paused := false;
      }
    }

    method Seek(t: real)
      modifies this
      ensures currentTime == t
      ensures paused == old(paused) && volume == old(volume) && failed == old(failed)
    {
      currentTime := t;
    }

    method SetVolume(v: real)
      modifies this
      ensures volume == v
      ensures paused == old(paused) && currentTime == old(currentTime) && failed == old(failed)
    {
      volume := v;
    }
  }

  /** The music toggle button. */
  class Indicator {
    var ariaPressed: string
    var labelText: string
    var dot: DotStyle
    var disabled: bool

    /** The button shows the given on/off state in all three of its outputs. */
    predicate Shows(on: bool)
      reads this
    {
      ariaPressed == AriaPressed(on) && labelText == Label(on) && dot == Dot(on)
    }

    /** Rewrites the label, aria-pressed and dot for the given state. */
    method Show(on: bool)
      modifies this
      ensures Shows(on)
      ensures disabled == old(disabled)
    {
      ariaPressed := AriaPressed(on);
      labelText := Label(on);
      dot := Dot(on);
    }

    method Disable()
      modifies this
      ensures disabled
      ensures ariaPressed == old(ariaPressed) && labelText == old(labelText) && dot == old(dot)
    {
      disabled := true;
    }
  }

  /** The inline audio error message: its text and whether it is shown. */
  class ErrorBanner {
    var text: string
    var shown: bool

    method Show(msg: string)
      modifies this
      ensures text == msg && shown
    {
      text, shown := msg, true;
    }

    method Hide()
      modifies this
      ensures !shown && text == old(text)
    {
      shown := false;
    }
  }
}
