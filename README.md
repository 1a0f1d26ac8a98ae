# Link-in-bio page: particle field and audio coordination

A Dafny model of the three pieces of logic in `app.js` of a decorative "link-in-bio" page:

- **Particle field** (`Particles`, class `ParticleField`): the particle set behind the page. It is
  re-spawned for every viewport size. The count is one particle per 24000 square pixels, clamped
  to [18, 60]. Each frame moves every particle by `v * dt / 16`, with `dt = min(32, now - last)`,
  and wraps it on each axis so that it stays within 10 pixels of the viewport. The uniform random
  draws are an input sequence, seven per particle in the order x, y, r, vx, vy, colour, alpha.
- **Music toggle** (`Music`, class `MusicPlayer`): the background-music button. A failed source
  only shows an error. A playing track is paused. Otherwise a play request is made and the player
  is playing exactly when that request resolves. The button's label, `aria-pressed` value and
  status dot are functions of the state they show (`Dom.Label`, `Dom.AriaPressed`, `Dom.Dot`).
- **Easter-egg dialog** (`Overlay`, class `EasterEgg`): the closure state of `setupOF`. Opening
  snapshots whether the background was playing and where, pauses it, restarts the overlay track
  at 0 and re-arms a single auto-close timer. Closing clears the timer, pauses the overlay track,
  resumes the background at the saved position only if it was playing at opening, and re-syncs
  the music button with the background's real state.

The audio elements, the music button and the error message are objects (`Dom.Track`,
`Dom.Indicator`, `Dom.ErrorBanner`), because the music player and the dialog share them. The
dialog never updates the player's `isPlaying` flag. `Page.StaleMusicFlag` shows a sequence of events after which
the flag says "playing" while the shared element is paused and the button reads "Music: Off".

Each asynchronous `play()` is one atomic step whose outcome is a boolean parameter: resolved or
rejected. A rejected request leaves the element's `paused` flag as it was. `setTimeout` is
modelled as the set of scheduled timer ids plus an explicit `TimerFire` event. `dialog.close()` on
a closed dialog does nothing, so only an open dialog runs the close handler.
Because the whole open handler is one step, the invariant that a scheduled timer implies an open
dialog holds in the model. In the code the timer is armed only after `await troll.play()`
settles (app.js:190-202), so a close before that leaves one timer scheduled on a closed dialog.
That timer's `dialog.close()` then does nothing, and at most one timer is still pending.

The snapshot reads `!bg.paused` (app.js:178), not the player's `isPlaying` flag.

Opening the dialog again while it is still open is possible only in the non-modal fallback. It
snapshots the background after the first opening already paused it, so the background stays
paused after closing. `Overlay.OpenTwiceThenClose` states this behaviour as the code has it.

## Model

| member | source | states |
|---|---|---|
| `Particles.ParticleCount` | app.js:30-31 | count lies in [18, 60]; it is 60 iff area >= 60*24000, 18 iff area < 19*24000, else count*24000 <= area < (count+1)*24000 (the floor of area/24000) |
| `Particles.FrameDelta` | app.js:47 | dt <= 32, dt <= now - last, and dt is one of the two |
| `Particles.Spawn` | app.js:34-42 | colour is one of the two palettes; with draws in [0,1): r in [0.6,2.8), vx, vy in [-0.175,0.175), a in [0.12,0.57), 0 <= x <= W with x < W when W > 0, and likewise for y |
| `Particles.Spawned` | app.js:33-43 | exactly n particles, particle i built from draws 7i..7i+6 |
| `Particles.SpawnedWellFormed` | app.js:35-41 | with draws in [0,1) every spawned particle is in the band and has its spawn ranges |
| `Particles.Wrap` | app.js:57-60 | result lies in [-10, extent+10]; unchanged inside the band; below it goes to extent+10, above it to -10 |
| `Particles.Advance` | app.js:54-60 | a moved and wrapped particle lies in the band, and only its x and y differ from before |
| `Particles.AdvanceMoves` | app.js:53-60 | a frame keeps the spawn ranges; a displaced position inside the band is exactly position + v*dt/16 |
| `Particles.StepAll` | app.js:53-66 | one frame keeps the particle count; every particle ends in the band with its r, vx, vy, rgb, a unchanged |
| `Particles.Frames` | app.js:16 | the frames scheduled one after another (app.js:68) keep the particle count |
| `Particles.FramesStayInBand` | app.js:46-68 | after any non-empty sequence of frames the count and every r, vx, vy, rgb, a are unchanged and every particle is in the band, whatever the start |
| `Particles.ParticleField.constructor` | app.js:2-17 | field laid out for the viewport, last = now, particles spawned from the draws, invariant holds for uniform draws |
| `Particles.ParticleField.InitParticles` | app.js:28-44 | old set discarded: particles are exactly Spawned(W, H, draws, Count(W, H)); viewport and last unchanged |
| `Particles.ParticleField.Resize` | app.js:11-14 | new viewport recorded and the particle set re-spawned for it |
| `Particles.ParticleField.Animate` | app.js:46-69 | last = now; particles are each old particle advanced by min(32, now - last); all in the band with bodies unchanged; invariant preserved |
| `Dom.Label` | app.js:126-134 | the label is "Music: On" iff the state is on, "Music: Off" iff off |
| `Dom.AriaPressed` | app.js:125 | aria-pressed is "true" iff on, "false" iff off |
| `Dom.Dot` | app.js:128-133 | the dot is the gold style iff on and the red style iff off |
| `Dom.ShownStateIsUnique` | app.js:124-135 | label, aria-pressed and dot each determine the state shown |
| `Dom.Indicator.Show` | app.js:124-135 | button shows the given state in label, aria-pressed and dot; disabled unchanged |
| `Dom.Track.Pause` | app.js:106 | element paused, position, volume and error unchanged |
| `Dom.Track.Play` | app.js:113 | a resolved request leaves the element playing; a rejected one leaves it as it was |
| `Dom.Track.Seek` | app.js:186 | position set to the given time; paused flag, volume and error unchanged |
| `Dom.Track.SetVolume` | app.js:187 | volume set; paused flag, position and error unchanged |
| `Dom.Indicator.Disable` | app.js:89 | button disabled; label, aria-pressed and dot unchanged |
| `Dom.ErrorBanner.Show` | app.js:93-97 | the message holds the given text and is shown |
| `Dom.ErrorBanner.Hide` | app.js:116 | the message is hidden and its text kept |
| `Music.MusicPlayer.constructor` | app.js:73-91 | isPlaying starts false; background volume set to 0.35 |
| `Music.MusicPlayer.AudioError` | app.js:87-90 | "Music file not found / unsupported" shown and button disabled |
| `Music.MusicPlayer.Toggle` | app.js:99-122 | failed source: isPlaying unchanged and error shown; playing: paused and false; otherwise isPlaying iff play resolves, with error hidden or "Cannot play audio" shown; button shows the new state |
| `Music.ToggleTwice` | app.js:99-122 | two toggles with successful plays restore isPlaying, and element and button agree with it |
| `Overlay.Inside` | app.js:213-217 | a click is outside iff it is beyond one of the four edges; an inside click implies a non-degenerate rectangle |
| `Overlay.AtMostOneTimer` | app.js:199-202 | if every scheduled timer is the recorded one, at most one is scheduled |
| `Overlay.EasterEgg.constructor` | app.js:173-175 | dialog closed, nothing snapshotted, no timer |
| `Overlay.EasterEgg.Open` | app.js:177-203 | bgWasPlaying = !bg.paused and bgResumeTime = bg.currentTime; bg paused at the same position, volume and error kept; dialog open; overlay at 0 with volume 0.9, error flag kept, playing iff its request resolves, else error shown; exactly one timer, the new one |
| `Overlay.EasterEgg.RearmAutoClose` | app.js:199-202 | the previous timer is cancelled before the new one is scheduled: exactly one remains |
| `Overlay.EasterEgg.CloseDialog` | app.js:220-249 | on an open dialog: closed, timer cleared, overlay paused at its position with volume and error kept; bg sought to bgResumeTime and playing when it was playing at opening and the resume succeeds, else as it was; button shows !bg.paused and keeps its disabled flag; snapshot kept. On a closed dialog: nothing changes |
| `Overlay.EasterEgg.Ended` | app.js:205-208 | timer cleared and the dialog closed as by CloseDialog |
| `Overlay.EasterEgg.TimerFire` | app.js:200-202 | a scheduled timer closes the dialog and leaves no timer; a cancelled one does nothing |
| `Overlay.EasterEgg.CloseBtn` | app.js:210 | the dialog is closed as by CloseDialog |
| `Overlay.EasterEgg.OutsideClick` | app.js:212-218 | a click inside the rectangle changes nothing; one outside closes the dialog as by CloseDialog |
| `Overlay.OpenThenClose` | app.js:177-249 | opening then closing with a successful resume leaves bg paused or playing as before, at the same position; overlay paused, no timer |
| `Overlay.OpenTwiceThenClose` | app.js:178-182 | a second opening while open re-snapshots a paused background, which stays paused after closing |
| `Page.StaleMusicFlag` | app.js:220-248 | after toggle on, open, and close with a rejected resume, isPlaying is true while the shared element is paused and the button reads "Music: Off" |

## Left out

- Canvas drawing (the fade rectangle, `fillStyle` strings, `arc`/`fill`): host rendering with no logic.
- `resizeCanvas` (device-pixel-ratio clamp, backing-store size, CSS size, transform): a wrapper over the canvas API.
- The `requestAnimationFrame` self-rescheduling and the resize listener: one frame is `Animate`, a resize is `Resize`; `Frames` describes any finite sequence of frames.
- `Math.random()`: its values are the `draws` input; that they lie in [0, 1) is the predicate `Unit`.
- Reading `window.innerWidth`/`innerHeight` live: the field keeps the viewport it was last laid out for, which is what the resize handler keeps it at.
- The real asynchrony of `play()` and `setTimeout`: each request is one step with a given outcome; the 10000 ms delay is not modelled, as there is no clock.
- The DOM lookups and the "missing element, do nothing" guards: every element is assumed present; a missing background element is folded into `Track.failed`.
- The `showModal` fallback to the `open` attribute: both set `dialogOpen`.
- `bg.currentTime || 0`: a Track's position is always a number, so the fallback to 0 never applies.
- `setupMouseParallax` and `setupCardAnimations`: they only write CSS strings.
- IEEE doubles: positions, draws and all arithmetic are exact reals. The half-open upper bounds proved for spawned particles (r < 2.8, a < 0.57, x < W, y < H) and the exact displacement v*dt/16 hold of the model only; in binary64 the largest draws round r up to 2.8 and a up to 0.57, and every sum is rounded.
