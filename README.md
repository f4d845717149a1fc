# Balanced password input: a Dafny model of its state machine

The widget is a password field where you pick characters by balancing a ball
on a bar that the mouse tilts. Pressing Space commits the character under the
ball. Backspace deletes the last one. Optional audio plays a tone each time the
ball enters a new character slot. Almost all of the component is view code. This
project models the deterministic state machine inside its hooks, using `real`
arithmetic in place of IEEE doubles:

- `Layouts`: the six character tables (65 to 82 characters, all starting with
  `a`..`z`). Also the two position-to-index maps: `SlotIndex` is
  `floor(position * length)` without a clamp, used for the highlight and the
  tone rule. `SelectedIndex` caps it at `length - 1` and is what Space commits.
- `Notes`: the character-to-pitch table. Letters use 12 chromatic notes times
  1, 2 or 4. Digits use a 5-note pentatonic table. Any other character gets
  `523.25 + (code % 12) * 50`.
- `Physics`: one animation frame. The damped velocity is `(v + g) * 0.985`. The
  ball moves by that amount. If it leaves [0, 1] it is put back at the end it
  hit and keeps `-0.7` of the damped velocity. `Frames` iterates the frame,
  which the component re-schedules every animation frame.
- `Tones`: the edge-triggered tone rule. It uses the slot index remembered from
  the last tone actually played, and a volume of `min(0.3, |v| * 10)`.
- `Pointer`: the tilt from the pointer offset, `(offset / centerX) * 15`, and
  the relaxation by 0.8 when the pointer leaves.
- `Password`: the buffer. Space appends. Backspace is JavaScript's
  `slice(0, -1)`, modelled with its negative-index rules.
- `Widget`: the class `BalancedPasswordInput`. Its fields are the component
  state: `password`, `rotation`, `position`, `velocity`, `layout`,
  `selectorShown` and `prevCharIndex`. Each method is one handler or one frame.
  A method reads the old state and commits the new state once, as a React
  render does. Its contracts tie the new state to the functions above. The
  invariant `Valid()` says the ball is on the bar (position in [0, 1]) and its
  speed is at most the terminal speed `0.0015 * 0.985 / 0.015 = 0.0985`. Every
  frame keeps this invariant.

Details of the code that the model follows exactly:

- The tilt is not forced to zero when the pointer is outside the widget. The
  handler applies the linear formula to any offset.
- Only the committed character (lines 72-73 and 122) uses the clamped index.
  The highlight (line 249) and the tone rule's comparison (lines 117-120) use
  `floor(position * length)` without the clamp. So with the ball at 1.0 no slot
  is highlighted, while Space commits the last character.
- The tone volume uses the damped velocity before any bounce (line 136), not the
  velocity that is stored.
- A tone whose construction throws is logged and dropped, and the remembered
  slot is not updated (lines 121-152). `Tones.AudioEnv.fails` models this.

## Model

| member | source | states |
|---|---|---|
| Layouts.Characters | password-balancer.tsx:22-31 | each layout's characters are nonempty and start with the 26 lower-case ASCII letters |
| Layouts.LayoutLengths | password-balancer.tsx:22-28 | the six layouts have 65, 67, 71, 82, 75 and 80 characters |
| Layouts.LayoutsDistinct | password-balancer.tsx:22-28 | two different layouts have different character sequences |
| Layouts.SlotIndex | password-balancer.tsx:117 | for a position in [0,1] the unclamped index lies in [0, length], and it equals length exactly at position 1.0 |
| Layouts.SelectedIndex | password-balancer.tsx:72-73 | for a position in [0,1] the committed index lies in [0, length-1] |
| Layouts.SelectedChar | password-balancer.tsx:72-73 | the committed character belongs to the active layout |
| Layouts.SelectedIndexMonotone | password-balancer.tsx:72-73 | moving the ball right never lowers the committed index |
| Layouts.SlotIndexIsSlot | password-balancer.tsx:298-306 | the index of lines 117 and 249 is i exactly for positions in the slot the markup draws for character i, [i*w, (i+1)*w) with w = 1/length, in both directions |
| Layouts.RightEndSelectsLast | password-balancer.tsx:72-73 | at position 1.0 Space commits the last character, while the unclamped index is one past the last slot |
| Layouts.SelectedAgreesWithSlot | password-balancer.tsx:72-73 | below position 1.0 the clamp never applies |
| Layouts.StartingCharacterUS | password-balancer.tsx:72-73 | with the US layout and the starting position 0.5, Space commits '6' |
| Notes.ToLowerAscii | password-balancer.tsx:48 | ASCII upper-case letters map to their lower-case letters; every other character is unchanged |
| Notes.Pow2 | password-balancer.tsx:55 | `Math.pow(2, n)` for a natural n is at least 1, and at least 2 for positive n |
| Notes.Pow2Adds | password-balancer.tsx:55 | powers of two multiply by adding exponents |
| Notes.UnfoldPow2 | password-balancer.tsx:55 | the three octave factors a letter can get are 1, 2 and 4 |
| Notes.NoteFrequency | password-balancer.tsx:39-64 | every character sounds between C4 (261.63 Hz) and 1108.72 Hz |
| Notes.LetterOctaves | password-balancer.tsx:50-55 | a letter's note index is in [0,11], its octave shift in {0,1,2}, and its pitch is the base note times 1, 2 or 4 |
| Notes.OctaveAbove | password-balancer.tsx:53-55 | letters twelve apart sound exactly one octave apart |
| Notes.CaseInsensitive | password-balancer.tsx:48-55 | an upper-case ASCII letter sounds like its lower-case letter |
| Notes.NextLetterHigher | password-balancer.tsx:41-55 | each letter sounds strictly higher than the one before it, across octave boundaries too |
| Notes.LettersAscend | password-balancer.tsx:41-55 | pitch strictly increases along the alphabet |
| Notes.DigitsRepeat | password-balancer.tsx:56-59 | digits five apart (e.g. '0' and '5') sound alike; digit d < 5 sounds pentatonic[d] |
| Notes.DigitIsPentatonic | password-balancer.tsx:56-59 | every digit sounds one of the five pentatonic notes |
| Notes.OtherBand | password-balancer.tsx:60-62 | any other character sounds 523.25 Hz plus 0 to 11 steps of 50 Hz, so inside [523.25, 1073.25] |
| Physics.Damped | password-balancer.tsx:97 | with no pull the damped velocity keeps its direction and is no faster, strictly slower when moving; a pull in the direction of motion never reverses it |
| Physics.GravityForce | password-balancer.tsx:91-94 | the pull along the bar is at most 0.0015 in magnitude and has the sign of the tilt |
| Physics.Next | password-balancer.tsx:96-113 | after one frame the position lies in [0,1], whatever the inputs |
| Physics.FreeFlight | password-balancer.tsx:109-111 | without a bounce the stored velocity is (v+g)*0.985 and the position advances by exactly that |
| Physics.BounceReverses | password-balancer.tsx:103-108 | a bounce leaves the ball at exactly 0 or 1 with -0.7 times the damped velocity: sign flipped, speed 0.7 times, strictly smaller when it was moving |
| Physics.BounceAimsInward | password-balancer.tsx:103-108 | from a position on the bar, the velocity after a bounce points back onto the bar |
| Physics.SpeedStaysBounded | password-balancer.tsx:34-35 | a frame under any gravity within the bound of line 34 keeps the speed at most the terminal speed 0.0985 |
| Physics.Frames | password-balancer.tsx:157-163 | after one or more re-scheduled frames under a gravity force held constant over the run, the position lies in [0,1] (Widget.BalancedPasswordInput.Step covers a tilt that changes from frame to frame) |
| Physics.FramesStayInRange | password-balancer.tsx:157-163 | any number of frames under a constant gravity force keeps the ball on the bar and within terminal speed |
| Physics.FramesStep | password-balancer.tsx:157-163 | k+1 re-scheduled frames are k frames followed by one more frame |
| Physics.NoBouncePrefix | password-balancer.tsx:103-108 | a run of frames without a bounce has no bounce in any shorter run from the same start |
| Physics.NoBounceAt | password-balancer.tsx:103-108 | a run of frames without a bounce has no bounce at any single frame k of it |
| Physics.SteadyTiltDrifts | password-balancer.tsx:94-111 | with a rightward tilt and a ball moving right, the ball never moves back and keeps a nonnegative velocity until it bounces |
| Physics.SteadyTiltRisesEachFrame | password-balancer.tsx:94-111 | under that tilt and before any bounce, every frame leaves the ball at least as far right as the frame before |
| Physics.FirstBounceAtRightEnd | password-balancer.tsx:106-108 | under that tilt the first bounce is at the right end, and it sends the ball left slower than it arrived |
| Tones.Volume | password-balancer.tsx:136 | the volume lies in [0, 0.3]; it is 0.3 exactly when abs(v)*10 reaches 0.3 and abs(v)*10 otherwise |
| Tones.VolumeMonotone | password-balancer.tsx:136 | volume depends on speed only and never falls as speed grows |
| Tones.VolumeExtremes | password-balancer.tsx:136 | a ball at rest is silent, and speed 0.03 or more gives full volume |
| Tones.Fires | password-balancer.tsx:116-120 | a tone fires only when audio is enabled, the context runs and the index differs from the remembered one, and never when tone building throws |
| Tones.Cue | password-balancer.tsx:116-146 | a tone is played only when audio is enabled, the context is running, building the tone does not throw and the index differs from the remembered one; its volume is in [0, 0.3] and its pitch within the note table's range |
| Tones.NextPrev | password-balancer.tsx:119-149 | the remembered index changes only when a tone is played, and then it becomes the new index |
| Tones.CueTracksPrev | password-balancer.tsx:120-149 | no tone played is equivalent to the remembered index staying the same |
| Tones.OneTonePerTransition | password-balancer.tsx:116-153 | while audio is available, a run of frames plays exactly one tone per change from the remembered slot (the first frame is compared with the slot of the last tone played, not with the previous frame's slot) |
| Tones.SilentWhenUnavailable | password-balancer.tsx:116-152 | with audio disabled, the context not running, or every tone failing, no frame plays a tone |
| Tones.NoToneWhileHovering | password-balancer.tsx:119-120 | a ball staying in the remembered slot never sounds, whether or not audio is enabled |
| Tones.AtMostOneTonePerSlot | password-balancer.tsx:119-120 | a ball staying in one slot sounds at most once |
| Tones.TonesOver | password-balancer.tsx:116-163 | the rule as written, over a run of re-scheduled frames: at most one tone per frame |
| Tones.PrevAfter | password-balancer.tsx:119-149 | the remembered slot after a run is the starting one or one of the run's slots |
| Tones.SilentRunKeepsPrev | password-balancer.tsx:116-149 | while no tone can sound, the remembered slot stays frozen however the ball moves |
| Tones.EnablingSoundsStaleSlot | password-balancer.tsx:116-149 | as written: a ball resting in a slot other than the remembered one during a quiet run sounds on the first audible frame, although that frame is no slot change |
| Tones.EnablingSoundsAtStart | password-balancer.tsx:19-149 | as written, concretely: with remembered slot 0 and the ball resting in slot 32, turning sound on plays one tone |
| Tones.TrackedTonesOver | password-balancer.tsx:116-149 | the intended rule, in which the remembered slot follows the ball every frame: at most one tone per frame |
| Tones.TrackedLast | password-balancer.tsx:149 | under the intended rule the remembered slot, threaded frame by frame as the tone count threads it, ends on the run's last slot |
| Tones.TrackedTonesSplit | password-balancer.tsx:116-163 | under the intended rule the tones of a run split at any frame into those of the first part plus those of the rest, started from the slot the first part leaves remembered |
| Tones.TrackedTonesAreTransitions | password-balancer.tsx:116-149 | under the intended rule the tones are at most the slot changes, exactly the slot changes while audio is available, and none otherwise |
| Tones.EnablingIsSilentWhenTracked | password-balancer.tsx:116-149 | under the intended rule, turning sound on while the ball stays in one slot plays nothing |
| Tones.ConstantRunHasNoTransitions | password-balancer.tsx:119 | a run that stays in one slot, measured from that slot, has no slot change |
| Pointer.TiltFromPointer | password-balancer.tsx:179-184 | the tilt is zero exactly at the centre of the widget and has the sign of the pointer's offset from it, for every pointer position |
| Pointer.TiltRange | password-balancer.tsx:179-184 | a pointer inside the widget gives a tilt in [-15, 15]: 0 at the centre, -15 and 15 at the edges, positive exactly right of the centre |
| Pointer.TiltMonotone | password-balancer.tsx:179-184 | moving the pointer right never decreases the tilt |
| Pointer.Relax | password-balancer.tsx:191 | leaving the widget never increases the tilt's magnitude |
| Pointer.RelaxShrinks | password-balancer.tsx:191 | leaving the widget never increases the tilt's magnitude, strictly reduces a nonzero tilt and keeps its sign |
| Pointer.RelaxKeepsRange | password-balancer.tsx:191 | a tilt within [-15, 15] stays within it after leaving |
| Password.Slice | password-balancer.tsx:77 | JavaScript slice: an in-range pair of bounds gives exactly that substring, a negative end counts from the end, a negative start counts from the end too, and a non-negative end at or before the start, a negative end that counts back to the start or before it, or an end before the start of the string gives the empty string |
| Password.Commit | password-balancer.tsx:74 | committing adds exactly the given character at the end and keeps the earlier ones |
| Password.Backspace | password-balancer.tsx:77 | Backspace drops exactly the last character, and leaves an empty password empty |
| Password.BackspaceUndoesCommit | password-balancer.tsx:74-77 | Backspace right after a commit restores the previous password |
| Password.RepeatedBackspace | password-balancer.tsx:77 | n Backspaces remove the last n characters, and empty the password once n reaches its length |
| Widget.BalancedPasswordInput.constructor | password-balancer.tsx:5-19 | the initial state: empty password, level bar, ball at 0.5 with velocity 0.01, US layout, selector hidden, remembered index 0 |
| Widget.BalancedPasswordInput.CurrentCharIndex | password-balancer.tsx:249 | the highlighted index is in [0, length], and it is length (no slot) exactly when the ball is at 1.0 |
| Widget.BalancedPasswordInput.Step | password-balancer.tsx:89-161 | one frame moves the ball as Physics.Next, plays the tone Tones.Cue gives for the new unclamped index, updates the remembered index as Tones.NextPrev, keeps the invariant and changes nothing else |
| Widget.BalancedPasswordInput.KeyDown | password-balancer.tsx:68-78 | Space commits the selected character and prevents the default action; Backspace removes the last character; other keys change nothing; the ball is untouched |
| Widget.BalancedPasswordInput.MouseMove | password-balancer.tsx:173-186 | the rotation becomes the pointer tilt, or stays unchanged while the container is not mounted; the invariant is kept |
| Widget.BalancedPasswordInput.MouseLeave | password-balancer.tsx:189-192 | the rotation is multiplied by 0.8, so its magnitude does not grow; the invariant is kept |
| Widget.BalancedPasswordInput.ToggleSelector | password-balancer.tsx:352 | the layout button flips whether the selector is shown; the invariant is kept |
| Widget.BalancedPasswordInput.SwitchLayout | password-balancer.tsx:240-246 | the layout is set, the selector closes, and the ball restarts at 0.5 with velocity 0.01 whatever the prior state; the password and remembered index are kept |
| Widget.CommitThenDelete | password-balancer.tsx:68-78 | a fresh widget commits '6' on Space; Backspace then empties the password, and a second Backspace leaves it empty |

## Findings

| source | as written | input that shows it | evidently intended | confidence | as-written member | corrected member |
|---|---|---|---|---|---|---|
| password-balancer.tsx:116-149 | the remembered slot `prevCharIndexRef` is updated only when a tone plays, so it goes stale while sound is off | sound off, remembered slot still the initial 0, and the US ball resting in slot 32; turning sound on plays a tone on the next frame although the slot did not change | a tone only on a slot change: the remembered slot follows the ball every frame, so turning sound on while the ball rests plays nothing | medium, not executed | Tones.EnablingSoundsStaleSlot, Tones.EnablingSoundsAtStart | Tones.TrackedTonesOver, Tones.EnablingIsSilentWhenTracked, Tones.TrackedTonesAreTransitions |

`Widget.BalancedPasswordInput.Step` keeps the rule as written, so that the class matches the component. The intended rule is modelled and proved beside it in `Tones`.

## Left out

- Rendering, CSS and the masked display (password-balancer.tsx:251-383) are view code. The only piece modelled from there is ToggleSelector (line 352), a state change.
- The Web Audio API is platform code: the context, oscillators, gain ramps, the priming sound, `resume` and `toggleAudio` (lines 125-146, 205-237). The model keeps only the decision to play a tone and the tone's frequency and volume. The audio side is an input, `Tones.AudioEnv`.
- Animation-frame scheduling, event listeners, `getBoundingClientRect` and console logging are host I/O. One frame is one call of `Step`, and `Physics.Frames` stands for repeated frames. The widget's bounding box is an argument of `MouseMove`.
- The timed fake submission (lines 195-202) is a timer with no logic.
- The local `prevPosition` (lines 87, 157) is written and never read.
- IEEE-754 rounding: all arithmetic is over `real`, so Math.floor is `Floor` on reals.
- Widget.BalancedPasswordInput.Step: takes the sine of the tilt as an argument instead of computing `Math.sin(rotation * PI / 180)` (lines 91-94), because trigonometry is not modelled. The only assumption is the sine's range [-1, 1].
- Widget.BalancedPasswordInput.MouseMove: requires a container of positive width. With zero width the source divides by zero and gets a non-finite tilt, which reals cannot represent.
- Notes.NoteFrequency: takes `c as int`, the Unicode code point, where the source's `charCodeAt` gives a UTF-16 code unit. The two differ only for characters outside the Basic Multilingual Plane, and no layout contains one.
- Notes.NoteFrequency: lower-cases only ASCII `A`..`Z`, while JavaScript's `toLowerCase` also maps non-ASCII capitals. The layout tables (lines 22-28) contain no upper-case characters, so this does not change the tone for any character the widget can commit.
- Tones.Cue: a tone whose construction throws is modelled as not played at all. The source could throw after the oscillator was already started (line 146); that case is not distinguished.
