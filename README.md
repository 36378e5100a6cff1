# Wheel session state machine of the "wheel of fortune" page

The page keeps three pieces of state: the list of option strings, a flag
that says whether a spin is running, and the wheel's current rotation
(`script.js` lines 12-14). This project models those three, plus the
operations that change them:

- **Add an option.** The typed text is trimmed. It is appended only if it
  is non-empty and not already listed.
- **Remove an option.** The remove button of an entry calls
  `options.splice(index, 1)`.
- **Clear the list.** Once the user confirms, the list is emptied and the
  rotation goes back to 0.
- **Spin.** A request is rejected when there are fewer than two options.
  That check comes first. A request made while a spin is running is
  ignored. Otherwise the spin starts: the sweep is `1800 + floor(r * 1800)`
  whole degrees, the target segment is `floor(r' * N)`, and the wheel turns
  by `sweep + segment * 360 / N` degrees.
- **Spin end.** The last animation frame leaves the wheel at the start
  rotation plus that turn, and clears the flag.
- **Segment labels.** A label is shortened to a fixed length before it is
  drawn.

The model has three modules:

- `Text` (`text.dfy`) holds `trim` and the label shortening. Both are pure
  functions.
- `Spin` (`spin.dfy`) holds the arithmetic of a spin request. It works in
  exact reals and degrees.
- `Session` (`session.dfy`) holds the state as the class `WheelSession`.
  Its methods change the fields in place, as the page's handlers change
  its globals.

The results of the browser calls are passed in as parameters: `confirm`
is a `bool`, and each `Math.random()` draw is a real in [0, 1).

Every reachable session keeps one invariant: the list holds distinct,
non-empty, already trimmed strings (`WellFormed`). The constructor
establishes it and every method preserves it.

Two client methods show how the contracts combine.
`Session.AddTrimmedScenario` shows that " Pizza " is stored as "Pizza", and
that typing "Pizza" again is then reported as a duplicate.
`Session.SpinAgainAfterFinish` shows three things: a second request during
a spin is ignored, the spin end lets the next request through, and the
next spin starts where the last one came to rest.

Behaviour of the code worth noting:

- There is no quarter-turn starting offset.
- Labels are cut at a fixed length (10 and 8 characters), not by
  measured text width.
- Duplicate options are rejected.
- An option of exactly 11 characters is not made shorter. It becomes its
  first 8 characters plus "...", which is again 11 characters
  (`Text.ShortLabelElevenKeepsLength`). Only options of 12 or more
  characters get shorter.
- The sweep is a whole number of degrees in [1800, 3599]. That is at least
  5 and under 10 full turns, not a whole number of turns. The landing
  position therefore depends on the sweep as well as on the target
  segment.
- `clearAll` does not touch the spinning flag. If it runs during a spin,
  the spin end still sets the rotation to the start rotation plus the
  turn, so the reset to 0 does not last past that spin.

## Model

| member | source | states |
|---|---|---|
| `Text.ContentStart` | script.js:91 | the index where `trim` starts keeping characters: everything before it is whitespace, and the character there is not |
| `Text.ContentEnd` | script.js:91 | the index where `trim` stops keeping characters: everything from it on is whitespace, and the character before it is not |
| `Text.IsTrimSpace` | script.js:91 | the characters `trim` removes: ECMAScript's WhiteSpace code points (TAB, VT, FF, ZWNBSP, the Zs space separators) and LineTerminator code points (LF, CR, LS, PS) |
| `Text.Trim` | script.js:91 | `trim()`: neither end of the result is whitespace, and the result is empty exactly when the input is all whitespace |
| `Text.TrimIsInfix` | script.js:91 | reference definition: any infix framed by whitespace on both sides, and not starting or ending with whitespace itself, is the trimmed string |
| `Text.TrimIdempotent` | script.js:91 | trimming an already trimmed string changes nothing, so stored options are trimmed |
| `Text.ShortLabel` | script.js:73 | labels of at most 10 characters are unchanged; longer ones have length 11, keep their first 8 characters and end in "..."; every result is at most 11 long, and inputs of 12 or more get shorter |
| `Text.ShortLabelElevenKeepsLength` | script.js:73 | an 11-character option keeps its length; it is returned unchanged exactly when it already ends in "..." |
| `Text.ShortLabelIdempotent` | script.js:73 | shortening a shortened label changes nothing |
| `Text.ShortLabelKeepsPrefix` | script.js:73 | every label agrees with its option on the first min(8, length) characters |
| `Spin.Draw` | script.js:140-142 | `Math.floor(random * m)` lies in [0, m) |
| `Spin.DrawFair` | script.js:140-142 | a draw yields k exactly for random values in [k/m, (k+1)/m), an interval of equal width for every k |
| `Spin.SpinAngle` | script.js:140 | the sweep lies in [1800, 3599] degrees: at least 5 and under 10 full turns |
| `Spin.SpinAngleFair` | script.js:140 | each sweep value is produced by an interval of random values of width 1/1800 |
| `Spin.TargetSegment` | script.js:142 | the target segment index lies in [0, N) |
| `Spin.SegmentDegrees` | script.js:141 | one segment spans a positive angle of at most 360 degrees, and N segments span exactly 360 |
| `Spin.TargetWithinTurn` | script.js:141-143 | the segment part adds between 0 and 360 - 360/N degrees to the sweep |
| `Spin.TargetDegrees` | script.js:141-143 | the turn `spinAngle + targetSegment * segmentAngle`: the part past the sweep is exactly `segment` segment widths; `Spin.TargetWithinTurn` and `Spin.SweepBounds` bound it |
| `Spin.SweepBounds` | script.js:139-143 | an accepted spin turns the wheel by at least 1800 and less than 3960 degrees |
| `Session.SpliceStart` | script.js:121 | where `splice` starts: a start inside the list is kept, a negative start counts back from the end and stops at 0, a start past the end is clamped to the end; the result never exceeds the length |
| `Session.SpliceOne` | script.js:120-121 | `splice(start, 1)` leaves a list one shorter when the clamped start is inside it, the same list otherwise, with every other element kept in order |
| `Session.SpliceOneAt` | script.js:121 | at a valid index exactly that element is deleted: the prefix and suffix around it are unchanged, and the multiset loses just that element |
| `Session.AppendKeepsDistinct` | script.js:92-93 | appending an element not yet in a list of distinct elements keeps it distinct |
| `Session.SpliceKeepsDistinct` | script.js:121 | removing an element from a list of distinct elements keeps it distinct |
| `Session.AppendKeepsWellFormed` | script.js:92-93 | appending a fresh, non-empty, trimmed string keeps the list distinct and clean |
| `Session.SpliceKeepsWellFormed` | script.js:121 | removing an entry keeps the list distinct and clean |
| `Session.WheelSession.constructor` | script.js:12-14 | the session starts with no options, not spinning, at rotation 0, and is well-formed |
| `Session.WheelSession.AddOption` | script.js:90-101 | appends exactly the trimmed input when it is non-empty and not listed; the outcome is a duplicate exactly when it is listed; otherwise the list is unchanged; the list stays well-formed |
| `Session.WheelSession.RemoveAt` | script.js:117-124 | the new list is the old one spliced at the index; what is removed plus what is left makes up the old list, and a valid index removes exactly its entry |
| `Session.WheelSession.ClearAll` | script.js:180-191 | confirmed: the list is empty and the rotation is 0; cancelled: the list and rotation are unchanged; the spinning flag is unchanged either way |
| `Session.WheelSession.SpinWheel` | script.js:129-148 | fewer than 2 options gives TooFewOptions and no state change, checked before the spinning flag; while spinning, AlreadySpinning and no state change; otherwise the flag is set and the start rotation, sweep, target segment and turn are recorded; the list is untouched and stays well-formed |
| `Session.WheelSession.FinishSpin` | script.js:150-173 | at the last frame the rotation becomes the start plus the whole turn, and the spinning flag is cleared; the list is untouched and stays well-formed |

## Left out

- Canvas drawing in `drawWheel` (arcs, colours, fonts, the centre hub, clearing the canvas) is not modelled. These are rendering calls, and the angles are floating point.
- The frames before the last one are not modelled. This covers the ease-out-quart curve, the `currentRotation` update while progress is below 1, and the timing through `performance.now`/`requestAnimationFrame`. The model treats the animation as one finish event, at which the eased fraction is exactly 1.
- The conversion from degrees to radians is not modelled. Rotation is kept in degrees as an exact real, and floating-point rounding of `360 / N`, `r * 1800` and `r * N` is not modelled.
- Session.WheelSession.FinishSpin: requires a running spin, because the animation callback only exists after an accepted request.
- Hover tooltips (`atan2`, `sqrt`, the angle normalisation loop, creating the tooltip element) are not modelled. They are float geometry and DOM work.
- Rendering of the option list (`innerHTML`, wiring the remove buttons) is not modelled; only the `splice` it triggers is. The index a remove button passes is not always a list position: options are written into `innerHTML` unescaped (script.js:109-111), so a typed option can carry markup that becomes an extra remove button with any `data-index`. `RemoveAt` therefore takes any integer and clamps it as `splice` does. `parseInt` itself is not modelled: its NaN result behaves like index 0, and an infinite index like clamping to 0 or to the length.
- Clearing and refocusing the input box, `alert`, the disabling of the spin button, and canvas sizing on load and resize are not modelled. They are UI side effects that do not change the modelled state.
- Strings are sequences of Unicode scalar values. JavaScript counts `length` and `substring` in UTF-16 code units, so the model differs for characters outside the Basic Multilingual Plane.
