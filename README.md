# Card-stack styles and audio player state, in Dafny

This project models two small pieces of the Rax repository.

**The card-stack style interpolator** (`CardStackStyleInterpolator`,
`card_stack_style_interpolator.dfy`) is the navigation library's set of transition profiles.
For one card it gives the opacity and the `translateX`/`translateY` transform:

- `forInitial`: a hard cutover on focus, used while the layout is not measured.
- `forHorizontal`: the iOS-style slide in from the side.
- `forVertical`: the iOS-style slide in from the bottom.
- `forFadeFromBottomAndroid`: the Android fade in from the bottom.
- `canUseNativeDriver`.

A style field is `Static(c)` for a plain number, or `Interp(inputs, outputs)` for what
`position.interpolate({inputRange, outputRange})` returns: a mapping of the animated position,
given by its breakpoints. The global `I18nManager.isRTL` is a `bool` parameter of
`ForHorizontal`, the only profile that reads it. `Evaluate` reads a mapping at a position
between its first and last breakpoint. The lemmas use it to state what each profile shows at
each of the four breakpoints: when the card comes in, when it is focused, just before it is
covered, and when it has been covered.

**The `a-audio` player component** is modelled in two modules:

- `AudioClock` (`audio_clock.dfy`) holds the arithmetic of the player's half-second update.
  It builds the `mm:ss` string and the slider percentage `parseInt(100 * currentTime / duration)`.
  The decimal numeral is `Decimal`, and its reading back is `NumeralValue`.
- `AudioPlayer` (`audio_player.dfy`) is the component's own state: a class `Player` with the
  fields `playing`, `time`, `sliderValue` and `timerActive`. It also keeps `timerDuration`,
  the duration that `countTime` read when it started the timer. The methods `Play`, `Pause`,
  `Reset`, `HandleAudioEnd`, `HandleThumbToggle`, `CountTime` and `TimerTick` (one firing of
  the interval callback) update these fields in place. `EndedAsWired` is what the `ended`
  listener does as it is registered (see "## Findings").

The invariant `Valid()` says that the timer is scheduled exactly while the player plays, and
that `time` is a well-formed clock string. Every method that starts from it keeps it. The
helper `CountTime` runs inside `Play` after `playing` is set, and it re-establishes the
invariant.

`parseInt` results are `Parsed = Int(n) | NaN`. The duration is NaN before the media's
metadata is known. A zero duration makes `100 * t / 0` Infinity or NaN, and `parseInt` of
either is NaN. The media element is not modelled. What the player reads from it comes in as a
parameter: `Play` and `HandleThumbToggle` take the parsed duration, and `TimerTick` takes the
parsed current time.

The layout's dimensions are `layout.initWidth` and `layout.initHeight`, as the profiles read
them. The model does not assert clamping outside the breakpoints. The profiles only hand the
breakpoints to the animation library, and that library decides how to extrapolate.

## Model

| member | source | states |
|---|---|---|
| CardStackStyleInterpolator.InputRange | components/rax-navigation/src/views/CardStackStyleInterpolator.js:55-56 | the breakpoints are exactly i - 1, i, i + 0.99 and i + 1 for the scene index i, and they are strictly increasing |
| CardStackStyleInterpolator.ForInitial | components/rax-navigation/src/views/CardStackStyleInterpolator.js:22-39 | every field is static; opacity is 1 exactly when the navigation index equals the scene index and 0 exactly otherwise; both translations are equal, 0 when focused and 1000000 when not |
| CardStackStyleInterpolator.ForHorizontal | components/rax-navigation/src/views/CardStackStyleInterpolator.js:44-81 | unmeasured layout gives exactly the initial style; measured gives opacity and translateX animated over the scene's input range with one output per input, and a static translateY of 0 |
| CardStackStyleInterpolator.ForVertical | components/rax-navigation/src/views/CardStackStyleInterpolator.js:86-119 | unmeasured layout gives exactly the initial style; measured gives opacity and translateY animated over the input range with one output per input, and a static translateX of 0 |
| CardStackStyleInterpolator.ForFadeFromBottomAndroid | components/rax-navigation/src/views/CardStackStyleInterpolator.js:124-157 | unmeasured layout gives exactly the initial style; measured gives opacity and translateY animated over the input range with one output per input, and a static translateX of 0 |
| CardStackStyleInterpolator.CanUseNativeDriver | components/rax-navigation/src/views/CardStackStyleInterpolator.js:159-164 | true for both a vertical and a non-vertical transition |
| CardStackStyleInterpolator.Lerp | components/rax-navigation/src/views/CardStackStyleInterpolator.js:63-72 | the line between two breakpoints passes through both of them |
| CardStackStyleInterpolator.Evaluate | components/rax-navigation/src/views/CardStackStyleInterpolator.js:63-72 | a mapping with strictly increasing inputs has a value exactly for the positions from its first to its last input |
| CardStackStyleInterpolator.EvaluateAtBreakpoint | components/rax-navigation/src/views/CardStackStyleInterpolator.js:63-72 | at its k-th input a mapping takes exactly its k-th output |
| CardStackStyleInterpolator.UnmeasuredIsInitial | components/rax-navigation/src/views/CardStackStyleInterpolator.js:51-53 | with the layout unmeasured, all three animated profiles return the initial style |
| CardStackStyleInterpolator.MeasuredOutputRanges | components/rax-navigation/src/views/CardStackStyleInterpolator.js:63-148 | opacity outputs are [1, 1, 0.3, 0] for both slides and [0, 1, 1, 0] for the fade; vertical translateY outputs are [height, 0, 0, 0]; fade translateY outputs are [50, 0, 0, 0] whatever the height |
| CardStackStyleInterpolator.HorizontalMirrorsRTL | components/rax-navigation/src/views/CardStackStyleInterpolator.js:58-72 | the left-to-right translateX outputs are [width + 30, 0, -10, -10]; the right-to-left outputs are their elementwise negation; opacity and translateY do not depend on the direction |
| CardStackStyleInterpolator.FocusedSceneInPlace | components/rax-navigation/src/views/CardStackStyleInterpolator.js:28-148 | a focused card has opacity 1 and no translation in every profile: measured, at the position equal to its index; unmeasured, whenever the navigation state focuses it |
| CardStackStyleInterpolator.ApproachingScene | components/rax-navigation/src/views/CardStackStyleInterpolator.js:56-148 | one scene before its index, both slides are opaque and fully off-screen (translateX ±(width + 30) by direction, translateY the height); the fade is transparent and 50 lower |
| CardStackStyleInterpolator.LeavingScene | components/rax-navigation/src/views/CardStackStyleInterpolator.js:56-148 | at 0.99 of a scene past its index, both slides have opacity 0.3; the horizontal card is at -10 (left-to-right) or 10 (right-to-left); the vertical card and the fade are not translated; the fade is fully opaque |
| CardStackStyleInterpolator.DepartedScene | components/rax-navigation/src/views/CardStackStyleInterpolator.js:56-148 | one scene past its index, every profile is transparent and the horizontal card has moved 10 against its entry direction |
| AudioClock.Decimal | packages/atag/src/components/audio/index.js:117 | the numeral `'' + n` has at least one character, only digits, and no leading zero |
| AudioClock.DecimalRoundTrip | packages/atag/src/components/audio/index.js:117 | reading the numeral back gives n |
| AudioClock.DecimalLength | packages/atag/src/components/audio/index.js:118-127 | the numeral has one digit exactly when n < 10 and two exactly when 10 <= n < 100 |
| AudioClock.SecondsField | packages/atag/src/components/audio/index.js:116-120 | two digits denoting currentTime % 60 |
| AudioClock.MinutesField | packages/atag/src/components/audio/index.js:122-128 | two digits; they denote currentTime / 60 when that is below 100, and are "99" otherwise |
| AudioClock.ClockString | packages/atag/src/components/audio/index.js:116-134 | shape DD:DD; the seconds denote currentTime % 60; the minutes denote currentTime / 60 below 100 minutes and are "99" from then on |
| AudioClock.ClockStartsAtZero | packages/atag/src/components/audio/index.js:34-38 | the clock at 0 seconds is "00:00", the default and reset value of `time` |
| AudioClock.ClockStringDetermines | packages/atag/src/components/audio/index.js:116-134 | equal clock strings have equal seconds, and below 6000 seconds equal times |
| AudioClock.SliderValue | packages/atag/src/components/audio/index.js:112-136 | NaN exactly when the duration is unknown or zero; otherwise the truncated quotient q with q * duration <= 100 * currentTime < (q + 1) * duration |
| AudioClock.SliderWithinPercent | packages/atag/src/components/audio/index.js:136 | for 0 <= currentTime <= duration and duration > 0, the slider value is a number from 0 to 100 |
| AudioClock.SliderFullAtEnd | packages/atag/src/components/audio/index.js:136 | at currentTime == duration > 0 the slider value is exactly 100 |
| AudioPlayer.Player.constructor | packages/atag/src/components/audio/index.js:34-47 | starts at "00:00", with the slider at 0 and no timer, and not playing (the undeclared `playing` starts undefined, which reads as false) |
| AudioPlayer.Player.Play | packages/atag/src/components/audio/index.js:86-101 | sets playing, starts the timer with the current duration, leaves the time and the slider |
| AudioPlayer.Player.CountTime | packages/atag/src/components/audio/index.js:111-113 | the timer is scheduled and remembers the duration read when it started |
| AudioPlayer.Player.TimerTick | packages/atag/src/components/audio/index.js:113-137 | time becomes the clock string of the current time and the slider the percentage over the remembered duration |
| AudioPlayer.Player.Pause | packages/atag/src/components/audio/index.js:103-109 | clears playing and the timer, leaves the time and the slider |
| AudioPlayer.Player.Reset | packages/atag/src/components/audio/index.js:140-144 | not playing, no timer, time "00:00", slider 0 |
| AudioPlayer.Player.HandleAudioEnd | packages/atag/src/components/audio/index.js:81-84 | called on the player, `_handleAudioEnd` resets it: not playing, no timer, time "00:00", slider 0 |
| AudioPlayer.Player.EndedAsWired | packages/atag/src/components/audio/index.js:64 | the `ended` listener as registered fails with a type error and changes nothing: the player state stays as it was |
| AudioPlayer.EndedWhilePlaying | packages/atag/src/components/audio/index.js:64-84 | when the media ends during playback, the player as wired still plays with its timer running; reset as intended, it stops and its timer is cleared |
| AudioPlayer.Player.HandleThumbToggle | packages/atag/src/components/audio/index.js:151-153 | negates playing, with the timer running exactly when the player now plays; the time and the slider stay |

## Findings

| source | as written | input that shows it | evidently intended | confidence | as-written member | corrected member |
|---|---|---|---|---|---|---|
| packages/atag/src/components/audio/index.js:64 | `_handleAudioEnd` is a plain method (line 81). It is registered as `this._handleAudioEnd` without binding, unlike the arrow-function handlers of lines 76 and 151. So it runs with the media element as `this`, and `this.reset()` throws a type error. | the media ends while the player plays: `playing` stays true, the timer keeps running, and no `ended` event is dispatched (AudioPlayer.EndedWhilePlaying) | the player resets when the media ends | high; not executed | AudioPlayer.Player.EndedAsWired | AudioPlayer.Player.HandleAudioEnd |

## Left out

- CardStackStyleInterpolator.Evaluate: the value of a mapping outside its first and last breakpoint is not modelled. There the animation library's extrapolation applies (clamp or extend), and the library is not part of this model.
- The `position` animated value is not an input of the model. The profiles only build mappings over it and never read it.
- The `I18nManager` module is not part of this model. Its `isRTL` flag is a parameter.
- That every profile returns the same style for the same inputs holds by construction: the model's profiles are functions.
- Floating point: the model's numbers are exact reals and unbounded integers. `100 * currentTime / duration` is exact before truncation, so it ignores rounding for huge times and durations. It also ignores `parseInt` reading a number printed in exponent form (below 1e-6 or from 1e21 on) by its leading digits.
- The media element: its playback, its `pause()` call, and its `duration` and `currentTime` properties. The last two come in as parameters.
- The asynchronous path of `play()`: the returned promise dispatches `play` on success and calls `pause()` on failure. It depends on the browser's media playback.
- Timer multiplicity: calling `play` twice schedules a second interval in the source. The model has one `timerActive` flag.
- The interval period of 500 ms is not modelled. `TimerTick` is one firing, at whatever current time the media reports.
- `_handleProgressChange` is not modelled. It seeks the media using its floating-point duration, which may be NaN, and relies on `|| 0` coercion.
- Event dispatch (`timeupdate`, `pause`, `ended`, `play`), the listener wiring in `connectedCallback`/`disconnectedCallback`, `ready` (the play icon and autoplay), the template and styles, and the element registration. All of these are DOM plumbing.
- The test-runner configuration `packages/mp-loader/karma.conf.js` holds no logic.
