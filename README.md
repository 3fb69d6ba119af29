# NYX page script, modelled in Dafny

`script.js` drives a themed landing page. Most of it is DOM and canvas glue.
This project models the pieces of it that make decisions or keep state, and
proves what those pieces promise:

- **Email check** (`isValidEmail`). The pattern `^[^\s@]+@[^\s@]+\.[^\s@]+$`
  is stated as a language predicate, `Email.IsValidEmail`: atom `@` atom `.`
  atom, where an atom is a non-empty run of characters that are neither
  whitespace nor `@`. It is proved equal to the direct characterisation
  `Email.IsWellFormedAddress`, which says:
  - the string has no whitespace;
  - it has exactly one `@`;
  - the part before the `@` is non-empty;
  - the part after the `@` has a `.` that is neither its first nor its last
    character.
- **Contact-form validation** (lines 138-149). `ContactForm.Validate` works on
  the three field values and gives one of three outcomes: `FieldsRequired`,
  `InvalidEmail` or `Submitted`. The blank test comes first, then the pattern.
  `trim() === ''` is modelled by `Text.Trim`, and it is proved to mean "every
  character is whitespace".
  - `Text.IsWhitespace` is the one whitespace class used by both `\s` and
    `trim`. It holds exactly the ECMAScript WhiteSpace and LineTerminator code
    points.
- **Active navigation link** (`highlightActiveLink`).
  - `ActiveLink.FindCurrent` is the first loop. It is proved to return the id
    of the last section, in document order, with `scrollY >= offsetTop - 200`,
    and `''` when there is none.
  - `ActiveLink.RestyleLinks` is the second loop, over `NavLink` objects whose
    `color` and `textShadow` it writes. A link ends highlighted exactly when
    `href.slice(1)` equals the chosen id; every other link is reset.
  - A link without an `href` attribute makes `slice` throw. That path is
    modelled: the loop stops after resetting that link, and later links keep
    their old style.
- **Particle field** (`initializeParticles`).
  - `Particles.Particle` is a class with `real` fields.
  - Its constructor turns six random draws in `[0, 1)` into a particle. It is
    proved to place the particle on the canvas, with velocity components in `[-0.5, 0.5)`,
    radius in `[0, 1.5)` and opacity in `[0.2, 0.7)`.
  - `Update` is `update()`. It moves by the velocity. Then it negates each
    velocity component whose new coordinate is outside `[0, dimension]`.
  - `CreateParticles` is the `push` loop.
  - `UpdateAll` is the per-frame `forEach`, without the drawing.
  - `DrawConnections` and `ScanRow` are the nested `i`/`j` loops of
    `drawConnections`. They return the lines drawn; the pairs visited are a
    ghost trace of the loops, kept for the proofs only.
    Lemmas prove that the scan visits each pair `i < j` exactly once, in
    increasing order, `n*(n-1)/2` times in all.
  - A line is drawn exactly for pairs with `dx² + dy² < 150²`. Its opacity
    `0.2 * (1 - d/150)` lies in `(0, 0.2]` and does not increase with `d`.
- **Digital rain glyph** (line 225). `33 + Math.floor(r * 93)` for
  `0 <= r < 1` is always a code from 33 to 125. Every such code is reached by
  some draw.

Behaviour of the code that a reader might not expect:

- `update()` flips a velocity component in the same call whose move left the
  canvas. It does not wait for the next frame. The position is not clamped,
  so a particle overshoots by at most one step.
  - `Particles.FramesStayNearCanvas` proves this bound for any number of
    frames, as long as the canvas keeps its size.
- The canvas can shrink on resize, while particles keep their positions. A
  particle beyond the left or right edge whose next move also ends beyond that
  edge never comes back, whatever its vertical motion: for every number of
  frames it is at one of two positions on that side, with its horizontal
  velocity flipping between them. `Particles.StrandedBeyondEdge` proves it for
  the horizontal axis; the vertical axis follows the same rule. The code's
  reflection rule does not correct this case on its own.

Randomness is a parameter: each particle takes a `Draw` of six reals in
`[0, 1)`, and the rain takes one real. The canvas size is a parameter of
`Update`. The scroll position and the section offsets are parameters of
`FindCurrent`.

## Model

| member | source | states |
|---|---|---|
| `Text.FirstKept` | script.js:138 | the first index at or after `i` whose character is not whitespace, or the length when there is none; everything skipped is whitespace |
| `Text.KeptEnd` | script.js:138 | the index just after the last character below `hi`, and not below `lo`, that is not whitespace; everything after it up to `hi` is whitespace |
| `Text.Trim` | script.js:138 | `trim()` gives a contiguous piece of the input, with only whitespace outside it, that neither starts nor ends with whitespace |
| `Text.TrimEmptyIffBlank` | script.js:138 | `s.trim() === ''` holds iff every character of `s` is whitespace |
| `Email.IsValidEmailIff` | script.js:166-168 | the pattern accepts `s` iff `s` has no whitespace, exactly one `@`, a non-empty part before it, and a `.` strictly inside the part after it |
| `Email.ValidEmailShape` | script.js:167 | a string the pattern accepts has all four properties of the direct characterisation |
| `Email.WellFormedIsValid` | script.js:167 | a string with the four properties splits as the pattern requires, so the pattern accepts it |
| `ContactForm.ValidateOutcomes` | script.js:138-149 | the outcome is "required" iff some field is blank, whatever the email is; otherwise it is "invalid email" iff the pattern rejects the email; otherwise the form is submitted |
| `ContactForm.ValidEmailIsNotBlank` | script.js:138-146 | an address the pattern accepts is never blank, so the blank test on the email field never hides a valid address |
| `ContactForm.SubmittedEmailIsWellFormed` | script.js:143-149 | a submitted form's email has no whitespace, one `@` with text before it, and an interior dot after it |
| `ActiveLink.LastReached` | script.js:292-299 | gives no index iff no section has `scrollY >= offsetTop - 200`; otherwise gives a reached section with no reached section after it |
| `ActiveLink.FindCurrent` | script.js:290-299 | the `forEach` leaves `current` equal to the id of the last reached section in document order, or `''` when none is reached |
| `ActiveLink.CurrentIdExtend` | script.js:296-298 | a later reached section overrides every earlier choice; an unreached one changes nothing |
| `ActiveLink.SliceFromOne` | script.js:304 | `slice(1)` drops the first character (a whole Unicode scalar value, not a UTF-16 code unit), and gives `''` on the empty string |
| `ActiveLink.FirstWithoutHref` | script.js:304 | the index of the first link whose `href` is missing: every earlier link has one |
| `ActiveLink.NavLink.Restyle` | script.js:302-306 | after one iteration the link is highlighted iff it has an `href` whose `slice(1)` equals `current`, and has the primary style otherwise |
| `ActiveLink.RestyleLinks` | script.js:301-308 | every link up to and including the first without `href` ends highlighted iff `href.slice(1) == current` and with the primary style otherwise; the loop completes iff every link has an `href`; the links after the first without `href` keep their old style |
| `ActiveLink.OnScroll` | script.js:289-309 | one scroll event: `current` as `FindCurrent` chooses it, then the links restyled as `RestyleLinks` states |
| `Particles.Reflect` | script.js:45-46 | the component is negated when the new coordinate is outside `[0, dim]` and kept otherwise; its absolute value never changes |
| `Particles.AdvanceKeepsBand` | script.js:41-47 | on a canvas of fixed size, a particle inside it or one step from re-entering it is still so after an update |
| `Particles.BandBounds` | script.js:41-47 | such a particle is at most its speed outside the canvas on each axis |
| `Particles.AdvanceKeepsSpeed` | script.js:45-46 | an update changes velocity components only in sign |
| `Particles.FramesStayNearCanvas` | script.js:84-88 | after any number of frames on a fixed canvas, a particle keeps its speed and stays within its initial speed of the canvas |
| `Particles.StrandedBeyondEdge` | script.js:41-47 | a particle beyond the left or right edge whose next move also ends beyond it stays on that side for every number of frames, whatever its vertical velocity: after an even number of updates it has its starting `x` and `vx`, after an odd number `x + vx` and `-vx` |
| `Particles.SpawnRanges` | script.js:33-38 | for draws in `[0, 1)`, the constructor's formulas give a position on the canvas, velocity components in `[-0.5, 0.5)`, radius in `[0, 1.5)` and opacity in `[0.2, 0.7)` |
| `Particles.Particle.constructor` | script.js:32-39 | the new particle holds the constructor's formulas applied to the draws, with the ranges above |
| `Particles.Particle.Update` | script.js:41-47 | the new position is the old one plus the velocity; each component is reflected iff the new coordinate left the canvas; radius and opacity are unchanged |
| `Particles.CreateParticles` | script.js:57-59 | the loop yields 50 distinct new particles, the k-th built from the k-th draw and on the canvas |
| `Particles.UpdateAll` | script.js:84-87 | in one frame every particle takes exactly one update step, and its radius and opacity stay as they were |
| `Particles.Positions` | script.js:64-65 | the positions read from the particles, one per particle, in order |
| `Particles.PairsBeforeMembers` | script.js:62-63 | the scan visits `(a, b)` iff `a < b < n`, for every row it has finished |
| `Particles.PairsBeforeIncreasing` | script.js:62-63 | the scan visits pairs in strictly increasing lexicographic order, so no pair twice |
| `Particles.PairsBeforeLength` | script.js:62-63 | after `i` rows the scan has made `i*n - i*(i+1)/2` checks |
| `Particles.AllPairsScanned` | script.js:62-63 | the whole scan makes `n*(n-1)/2` checks, one per pair `i < j`, and never pairs a particle with itself |
| `Particles.LinesForMembers` | script.js:64-68 | a line appears iff its pair was visited and its squared distance is below `22500`, and the line records that squared distance |
| `Particles.DrawConnections` | script.js:61-79 | the pairs the loops visit (a ghost trace) are all `i < j` in loop order, and the lines drawn are exactly those of the close pairs, in that order |
| `Particles.ScanRow` | script.js:63-77 | the inner loop visits `(i, i+1) … (i, n-1)` and appends a line for each close pair |
| `Particles.CloseIffSquaredClose` | script.js:66-68 | for a distance `d >= 0`, `d < 150` iff `d² < 22500` |
| `Particles.LineOpacity` | script.js:69 | for `0 <= d < 150` the line opacity lies in `(0, 0.2]` |
| `Particles.LineOpacityNonIncreasing` | script.js:69 | a farther pair never gets a more opaque line |
| `Particles.DrawnLineOpacity` | script.js:66-69 | every drawn line's distance is below 150, so its opacity is in `(0, 0.2]` |
| `DigitalRain.GlyphIndex` | script.js:225 | `Math.floor(r * 93)` lies in `[0, 93)`, and is the whole part of `r * 93` |
| `DigitalRain.RainCharCode` | script.js:225 | the character code lies in `[33, 125]` |
| `DigitalRain.RainChar` | script.js:225 | the character lies between `!` and `}` |
| `DigitalRain.EveryGlyphReachable` | script.js:225 | every character from `!` to `}` is produced by some draw in `[0, 1)` |

## Left out

- Canvas drawing is not modelled: `clearRect`, `arc`, `fill`, `moveTo`/`lineTo`/`stroke`, the rgba style strings and `Particle.draw`. It is rendering only. `DrawConnections` returns the lines and leaves stroking them out.
- The `requestAnimationFrame` loop and the resize listener are not modelled. They are browser scheduling. The canvas size is a parameter of `Particle.Update`, so a resize is a call with other dimensions.
- `Math.sqrt` is not modelled. The threshold is compared on squared distances, which `CloseIffSquaredClose` proves equivalent. The opacity is stated for a distance `d` with `d * d` equal to the recorded squared distance.
- IEEE-754 rounding is not modelled. Coordinates, velocities and draws are exact reals.
- Canvas dimensions are non-negative reals (`Extent`). That they are whole numbers of pixels plays no part in the logic.
- `Math.random()` is not modelled. Its results are parameters in `[0, 1)`.
- What happens on each outcome of the submit handler is not modelled: the toasts, the dimmed form, the button text and the 1.5-second fake sending. These are DOM writes and timers. `Validate` gives the outcome.
- These are DOM, timer or navigation glue and are not modelled:
  - the `IntersectionObserver` fade-ins and the hero parallax;
  - `showNotification`;
  - the injected CSS keyframes and the rain drop's element and style;
  - the glitch flicker (`setInterval`/`setTimeout`, the 5% chance);
  - the rain's 2% chance per tick, its 10-second stop and the 30% chance of starting it at all;
  - keyboard shortcuts, console messages, the surprise button and `window.location`.
- `sectionHeight` is read in the section loop but never used. The model does not read it.
- `Text.IsWhitespace` judges one Unicode scalar value at a time. JavaScript compares UTF-16 code units. The two agree on every whitespace code point, since all of them are in the Basic Multilingual Plane.
- `ActiveLink.SliceFromOne` drops a whole character, where JavaScript's `slice(1)` drops one UTF-16 code unit. The two differ only when an `href` starts with a character outside the Basic Multilingual Plane: JavaScript then keeps the second half of a surrogate pair, which in practice matches no section id, while the model drops the whole character.
