/** The easter-egg dialog and its coordination with the background track (setupOF).
    Opening the dialog pauses the background music and plays the overlay track; closing it
    stops the overlay track and resumes the background at the saved position if it was
    playing before. Every asynchronous play request is one step whose outcome is a
    parameter, and the host's timer queue is the set of auto-close timers still scheduled. */
module Overlay {
  import opened Dom

  const OVERLAY_VOLUME: real := 0.9

  datatype Option<T> = None | Some(value: T)

  /** The dialog's bounding rectangle in client coordinates. */
  datatype Rect = Rect(left: real, top: real, right: real, bottom: real)

  /** A click at (x, y) is inside the rectangle, edges included: it lies beyond none of
      the four edges. The promise that matters, that a click closes the dialog exactly
      when it is outside, is the contract of EasterEgg.OutsideClick. */
  function Inside(x: real, y: real, rect: Rect): (b: bool)
    ensures !b <==> x < rect.left || rect.right < x || y < rect.top || rect.bottom < y
    ensures b ==> rect.left <= rect.right && rect.top <= rect.bottom
  {
    x >= rect.left && x <= rect.right && y >= rect.top && y <= rect.bottom
  }

  /** When every scheduled timer is the one the handler last recorded, at most one is scheduled. */
  lemma AtMostOneTimer(timers: set<nat>, recorded: Option<nat>)
    requires forall t :: t in timers ==> recorded == Some(t)
    ensures |timers| <= 1
    ensures recorded == None ==> timers == {}
  {
    if recorded.Some? {
      assert timers <= {recorded.value};
      if timers != {} {
        assert timers == {recorded.value};
      }
    } else {
      assert forall t :: t !in timers;
    }
  }

  class EasterEgg {
    const bg: Track
    const troll: Track
    const musicBtn: Indicator
    const uiError: ErrorBanner
    var dialogOpen: bool
    /** Whether the background was playing when the dialog was last opened. */
    var bgWasPlaying: bool
    /** The background's position when the dialog was last opened. */
    var bgResumeTime: real
    /** The last auto-close timer the open handler scheduled (never reset to None). */
    var autoCloseTimer: Option<nat>
    /** Auto-close timers still scheduled with the host. */
    var timers: set<nat>
    /** Identifier the host gives the next timer. */
    var nextTimer: nat

    /** Two distinct audio elements; the only scheduled timer is the recorded one, and only
        while the dialog is open; a closed dialog has a silent overlay track. */
    ghost predicate Valid()
      reads this, troll
    {
      && bg != troll
      && (forall t :: t in timers ==> autoCloseTimer == Some(t))
      && (timers != {} ==> dialogOpen)
      && (!dialogOpen ==> troll.paused)
    }

    constructor (bg: Track, troll: Track, musicBtn: Indicator, uiError: ErrorBanner)
      requires bg != troll && troll.paused
      ensures this.bg == bg && this.troll == troll
      ensures this.musicBtn == musicBtn && this.uiError == uiError
      ensures !dialogOpen && !bgWasPlaying && bgResumeTime == 0.0
      ensures autoCloseTimer == None && timers == {}
      ensures Valid()
    {
      this.bg, this.troll, this.musicBtn, this.uiError := bg, troll, musicBtn, uiError;
      dialogOpen, bgWasPlaying, bgResumeTime := false, false, 0.0;
      autoCloseTimer, timers, nextTimer := None, {}, 1;
    }

    /** A click on the easter-egg button: snapshot and pause the background, open the
        dialog, restart the overlay track at 0 and request it to play, then cancel the
        previous auto-close timer and schedule a new one. */
    method Open(playOk: bool)
      requires Valid()
      modifies this, bg, troll, uiError
      ensures Valid()
      ensures bgWasPlaying == !old(bg.paused) && bgResumeTime == old(bg.currentTime)
      ensures bg.paused && bg.currentTime == old(bg.currentTime)
      ensures bg.volume == old(bg.volume) && bg.failed == old(bg.failed)
      ensures dialogOpen
      ensures troll.currentTime == 0.0 && troll.volume == OVERLAY_VOLUME && troll.failed == old(troll.failed)
      ensures playOk ==> !troll.paused && !uiError.shown && uiError.text == old(uiError.text)
      ensures !playOk ==> troll.paused == old(troll.paused) && uiError.text == CANNOT_PLAY && uiError.shown
      ensures autoCloseTimer == Some(old(nextTimer)) && timers == {old(nextTimer)}
      ensures nextTimer == old(nextTimer) + 1
    {
      bgWasPlaying := !bg.paused;
      bgResumeTime := bg.currentTime;
      bg.Pause();
      bg.Seek(bgResumeTime);
      dialogOpen := true;
      troll.Seek(0.0);
      troll.SetVolume(OVERLAY_VOLUME);
      troll.Play(playOk);
      if playOk {
        uiError.Hide();
      } else {
        uiError.Show(CANNOT_PLAY);
      }
      RearmAutoClose();
    }

    /** Cancels the recorded auto-close timer, if any, and schedules a fresh one. */
    method RearmAutoClose()
      requires forall t :: t in timers ==> autoCloseTimer == Some(t)
      modifies this`timers, this`autoCloseTimer, this`nextTimer
      ensures autoCloseTimer == Some(old(nextTimer)) && timers == {old(nextTimer)}
      ensures nextTimer == old(nextTimer) + 1
    {
      AtMostOneTimer(timers, autoCloseTimer);
      if autoCloseTimer.Some? {
        timers := timers - {autoCloseTimer.value};
      }
      assert timers == {};
      timers := timers + {nextTimer};
      autoCloseTimer := Some(nextTimer);
      nextTimer := nextTimer + 1;
    }

    /** What dialog.close() did, from the state before it to the state after: the dialog is
        closed and the snapshot kept; if it was open, the overlay track is paused where it
        was, the background is sought back and resumed when it was playing at opening and
        its play request succeeded (and is otherwise as it was), and the music button shows
        whether the background now plays; if it was already closed, no element changed. */
    twostate predicate CloseHandled(resumeOk: bool)
      reads this, bg, troll, musicBtn
    {
      && !dialogOpen
      && bgWasPlaying == old(bgWasPlaying) && bgResumeTime == old(bgResumeTime)
      && autoCloseTimer == old(autoCloseTimer) && nextTimer == old(nextTimer)
      && bg.volume == old(bg.volume) && bg.failed == old(bg.failed)
      && troll.volume == old(troll.volume) && troll.failed == old(troll.failed)
      && musicBtn.disabled == old(musicBtn.disabled)
      && (if old(dialogOpen) then
            && troll.paused && troll.currentTime == old(troll.currentTime)
            && (bgWasPlaying ==> bg.currentTime == bgResumeTime)
            && (bgWasPlaying && resumeOk ==> !bg.paused)
            && (!(bgWasPlaying && resumeOk) ==> bg.paused == old(bg.paused))
            && (!bgWasPlaying ==> bg.currentTime == old(bg.currentTime))
            && musicBtn.Shows(!bg.paused)
          else
            unchanged(bg, troll, musicBtn))
    }

    /** dialog.close(): a closed dialog ignores it; an open one closes, and its close
        handler runs. The handler cancels the auto-close timer, pauses the overlay track
        and, if the background was playing when the dialog opened, seeks it to the saved
        position and requests it to play (resumeOk is the outcome; a failure is ignored).
        Finally the music button shows whether the background is actually playing. */
    method CloseDialog(resumeOk: bool)
      requires Valid()
      modifies this, bg, troll, musicBtn
      ensures Valid()
      ensures CloseHandled(resumeOk)
      ensures timers == if old(dialogOpen) then {} else old(timers)
    {
      if !dialogOpen {
        return;
      }
      dialogOpen := false;
      if autoCloseTimer.Some? {
        timers := timers - {autoCloseTimer.value};
      }
      AtMostOneTimer(old(timers), autoCloseTimer);
      troll.Pause();
      if bgWasPlaying {
        bg.Seek(bgResumeTime);
        bg.Play(resumeOk);
      }
      musicBtn.Show(!bg.paused);
    }

    /** The overlay track reached its end: the auto-close timer is cancelled and the dialog closed. */
    method Ended(resumeOk: bool)
      requires Valid()
      modifies this, bg, troll, musicBtn
      ensures Valid()
      ensures CloseHandled(resumeOk)
      ensures timers == {}
    {
      AtMostOneTimer(timers, autoCloseTimer);
      if autoCloseTimer.Some? {
        timers := timers - {autoCloseTimer.value};
      }
      CloseDialog(resumeOk);
    }

    /** The host runs the callback of timer id; a cancelled timer never runs. */
    method TimerFire(id: nat, resumeOk: bool)
      requires Valid()
      modifies this, bg, troll, musicBtn
      ensures Valid()
      ensures id in old(timers) ==> CloseHandled(resumeOk) && timers == {}
      ensures id !in old(timers) ==> unchanged(this, bg, troll, musicBtn)
    {
      if id in timers {
        timers := timers - {id};
        CloseDialog(resumeOk);
      }
    }

    /** The close button was clicked. */
    method CloseBtn(resumeOk: bool)
      requires Valid()
      modifies this, bg, troll, musicBtn
      ensures Valid()
      ensures CloseHandled(resumeOk)
      ensures timers == if old(dialogOpen) then {} else old(timers)
    {
      CloseDialog(resumeOk);
    }

    /** A click on the dialog at (x, y) closes it exactly when it lies outside the
        dialog's bounding rectangle. */
    method OutsideClick(x: real, y: real, rect: Rect, resumeOk: bool)
      requires Valid()
      modifies this, bg, troll, musicBtn
      ensures Valid()
      ensures Inside(x, y, rect) ==> unchanged(this, bg, troll, musicBtn)
      ensures !Inside(x, y, rect) ==> CloseHandled(resumeOk)
      ensures !Inside(x, y, rect) ==> timers == if old(dialogOpen) then {} else old(timers)
    {
      if !Inside(x, y, rect) {
        CloseDialog(resumeOk);
      }
    }
  }

  /** Opening the dialog and closing it with the close button, with the background's
      resume request succeeding, leaves the background as it was: playing at the same
      position if it was playing, paused at the same position if it was paused. */
  method OpenThenClose(e: EasterEgg, playOk: bool)
    requires e.Valid()
    modifies e, e.bg, e.troll, e.uiError, e.musicBtn
    ensures e.Valid()
    ensures e.bg.paused == old(e.bg.paused) && e.bg.currentTime == old(e.bg.currentTime)
    ensures !e.dialogOpen && e.timers == {} && e.troll.paused
    ensures e.musicBtn.Shows(!e.bg.paused)
  {
    e.Open(playOk);
    e.CloseBtn(true);
  }

  /** Opening the dialog a second time while it is still open snapshots the background
      after the first opening paused it, so closing it leaves the background paused even
      when it was playing before the first opening. */
  method OpenTwiceThenClose(e: EasterEgg)
    requires e.Valid()
    modifies e, e.bg, e.troll, e.uiError, e.musicBtn
    ensures e.Valid()
    ensures e.bg.paused && !e.bgWasPlaying
    ensures e.timers == {}
  {
    e.Open(true);
    e.Open(true);
    e.CloseBtn(true);
  }
}
