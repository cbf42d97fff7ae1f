# Birthday card audio player, modelled in Dafny

The repository is an Angular single-page birthday card. It plays one bundled
track and shows controls for play, pause, resume, stop and mute, plus the
elapsed time. All the logic is in `project/src/app/app.component.ts`. This
model covers two parts of it:

- `TimeFormat` (`time_format.dfy`): the value class `Time` and its
  `toString`. `Time` is a datatype, and its constructor is the datatype
  constructor. `ToString` follows the four branches of the source. It is
  proved equal to a reference rendering (`Pad`, a `0` in front of a number
  below ten) and proved to round-trip through a parser (`ParseTime`). The
  lemmas prove the layout, when the
  leading zeros appear, the lengths, and that reading the display back gives
  the same time.
- `Playback` (`playback.dfy`): the component `AppComponent` as a class with
  the fields `isPlaying`, `isPaused` and `isMuted`, the displayed
  `currentTime`, and a `const audio` handle. The handle is the browser's
  audio element, cut down to the fields the component reads and writes:
  `src`, `currentTime`, `paused`, `muted`, `volume` and the list of
  registered listeners. Property assignments in the source (`audio.src = …`,
  `audio.currentTime = 0`, `audio.muted = …`) are field assignments here.
  Method calls (`load`, `play`, `pause`, `addEventListener`) are methods of
  `AudioHandle`, whose field frames say what each one may change. The class
  invariant `Valid()` says three things:
  - the component is never both playing and paused;
  - the element's `muted` always equals `isMuted`;
  - the listener list is exactly what the `playAudio` calls so far have
    registered. A ghost counter `plays` counts those calls.
- `Scenarios` (`scenarios.dfy`): sequences of actions on one component,
  proved from the method contracts alone.

Modelling choices:
- A position is a non-negative `real`. `calculateTime` applies `Math.floor`
  to `t / 60` and to `t % 60`. JavaScript's `%` truncates, which is the
  floor for these operands (`Rem60`). `FloorSplit` proves that the result is
  the quotient and remainder of the whole seconds by 60.
- `Time`'s fields are `nat`. The source types them as `number`, but it only
  ever builds a `Time` from those two floors or from `(0, 0)`.
- `${n}` for a non-negative integer below 2^53 is its decimal digits
  (`Digits`).
- `pauseAudio` and `resetPause` do not check the flags: each one sets its
  flags from any state. The model follows the code, so neither has a
  precondition beyond the class invariant.
- The source's two flags cannot tell "never played" from "stopped" or
  "ended". `Phase()` therefore has three values: `Playing`, `Paused` and
  `NotPlaying`.

## Model

| member | source | states |
|---|---|---|
| TimeFormat.Digits | project/src/app/app.component.ts:17-28 | rendering of a number by `${…}`: at least one decimal digit; starts with `0` only for zero; one character exactly below 10, at most two exactly below 100 |
| TimeFormat.DigitsRoundTrip | project/src/app/app.component.ts:17-28 | the digits of a number read back as that number |
| TimeFormat.PadProperties | project/src/app/app.component.ts:16-28 | one padded side is all digits and at least two long; starts with `0` exactly when the number is below 10; is two long exactly when the number is below 100; reads back as the number |
| TimeFormat.ToString | project/src/app/app.component.ts:15-29 | `toString`'s four branches: whichever is taken, the result is the minutes with a `0` in front when below 10, then `:`, then the seconds padded the same way |
| TimeFormat.ToStringLayout | project/src/app/app.component.ts:15-29 | the first colon in the output of `toString` is the one right after the padded minutes, and no colon follows it |
| TimeFormat.ToStringLeadingZeros | project/src/app/app.component.ts:15-29 | the part before `:` is `0` followed by the minutes exactly when they are below 10 (and the minutes alone otherwise); the same holds for the part after `:` and the seconds; the first character is `0` exactly when minutes < 10, and the one after the colon exactly when seconds < 10 |
| TimeFormat.ToStringLength | project/src/app/app.component.ts:16-28 | each side has at least two characters, and exactly two when its number is below 100; the seconds side is always two for seconds below 60; the whole string has length 5 exactly when both numbers are below 100 |
| TimeFormat.ToStringRoundTrip | project/src/app/app.component.ts:15-29 | parsing the display back gives the same minutes and seconds |
| TimeFormat.ToStringInjective | project/src/app/app.component.ts:15-29 | different times are displayed differently |
| TimeFormat.ToStringExamples | project/src/app/app.component.ts:15-29 | (3,5) gives `03:05`, (12,5) gives `12:05`, (3,45) gives `03:45`, (12,45) gives `12:45` and (1,5) gives `01:05` |
| Playback.Rem60 | project/src/app/app.component.ts:63 | JavaScript's `t % 60` for a non-negative `t`: the result lies in [0, 60) and `t` minus it is a whole multiple of 60 |
| Playback.FloorSplit | project/src/app/app.component.ts:62-63 | `floor(t/60)` and `floor(t % 60)` of a non-negative position are the quotient and remainder of `floor(t)` by 60 |
| Playback.SplitPosition | project/src/app/app.component.ts:60-64 | the minutes and seconds `calculateTime` builds: seconds below 60, and minutes·60 + seconds equal to the whole seconds of the position |
| Playback.SplitWholeSeconds | project/src/app/app.component.ts:60-64 | on a whole-second position `p` the result is `(p / 60, p % 60)` and adds back up to `p` |
| Playback.RegistrationsShape | project/src/app/app.component.ts:55-57 | after `k` plays the element holds `3·k` listeners, the three of one play repeated in order, each handler registered `k` times |
| Playback.AudioHandle.constructor | project/src/app/app.component.ts:43 | a new element: no source, position 0, paused, not muted, full volume, no listeners |
| Playback.AudioHandle.Load | project/src/app/app.component.ts:51 | `load()` rewinds to 0 and leaves the element paused; nothing else changes |
| Playback.AudioHandle.Play | project/src/app/app.component.ts:54 | `play()` leaves the element not paused; nothing else changes |
| Playback.AudioHandle.Pause | project/src/app/app.component.ts:85 | `pause()` leaves the element paused; nothing else changes |
| Playback.AudioHandle.AddEventListener | project/src/app/app.component.ts:55-57 | appends one registration and changes nothing else. The DOM skips a listener whose event and callback are already registered, but each `bind` at lines 55-57 is a new callback, so nothing is ever skipped as a duplicate |
| Playback.AppComponent.Phase | project/src/app/app.component.ts:41-42 | the phase is `Playing` exactly when `isPlaying`, and `Paused` exactly when `isPaused` and not `isPlaying` |
| Playback.AppComponent.constructor | project/src/app/app.component.ts:41-47 | initial state: neither flag set, not muted, display `(0, 0)`, a fresh element; the invariant holds |
| Playback.AppComponent.PlayAudio | project/src/app/app.component.ts:49-58 | from any valid state: playing and not paused; the track is loaded from position 0 and playing; the three listeners are appended to those already there (list grows by 3); mute and display unchanged; invariant kept |
| Playback.AppComponent.CalculateTime | project/src/app/app.component.ts:60-65 | the display becomes the split of the element's position: seconds below 60, and it adds back to the whole seconds; invariant kept |
| Playback.AppComponent.AudioEnded | project/src/app/app.component.ts:73-76 | neither playing nor paused; position, display and mute unchanged; invariant kept |
| Playback.AppComponent.ResetPause | project/src/app/app.component.ts:78-82 | playing and not paused; element playing; position (for an element that has not ended, see Left out), display and mute unchanged; invariant kept |
| Playback.AppComponent.PauseAudio | project/src/app/app.component.ts:84-88 | paused and not playing; element paused; position, display and mute unchanged; invariant kept |
| Playback.AppComponent.StopAudio | project/src/app/app.component.ts:90-95 | neither playing nor paused; element paused and rewound to 0; display and mute unchanged; invariant kept |
| Playback.AppComponent.ToggleMute | project/src/app/app.component.ts:102-105 | `isMuted` flips and the element's `muted` equals the new value; volume and the playing and paused flags unchanged; invariant kept |
| Scenarios.PlayPauseResume | project/src/app/app.component.ts:49-88 | play, pause, resume ends playing with only the one play's listeners added |
| Scenarios.PauseTwice | project/src/app/app.component.ts:84-88 | two pauses leave exactly what one `PauseAudio` leaves: paused and not playing, element paused, and mute, display, position, source, listeners and volume as before |
| Scenarios.PlayThenStop | project/src/app/app.component.ts:49-95 | play then stop ends not playing, with the element rewound to 0 |
| Scenarios.PlayThenEnd | project/src/app/app.component.ts:73-76 | the end of the track ends playback without a stop and keeps position and display |
| Scenarios.ToggleMuteTwice | project/src/app/app.component.ts:102-105 | toggling mute twice restores both mute values and never changes the volume |
| Scenarios.PlayTwice | project/src/app/app.component.ts:49-58 | after two plays from a fresh component, `audioEnded`, `calculateProgress` and `calculateTime` are each registered twice |
| Scenarios.PlayAndShow | project/src/app/app.component.ts:49-65 | a fresh component played at position 65.5 s displays `01:05` |

## Left out

- `calculateProgress` (lines 67-71) and the `audioProgress` signal: the progress is a floating-point quotient `currentTime / duration * 100`, and it is NaN while the duration is unknown.
- `changeVolume` (lines 97-100): floating-point division of `parseInt` of the control's string. `volume` is a field of the handle that no modelled operation changes.
- The browser's audio element: decoding, the progress of time during playback, and the delivery of `timeupdate` and `ended` events. The position is a field. `CalculateTime` and `AudioEnded` are the handlers run when those events arrive.
- Playback.AudioHandle.Play: `play()` is asynchronous and returns a promise. The model takes the request as granted at once, so the race between `play()` and a following `pause()` is not modelled.
- Playback.AudioHandle.Play: the element has no "ended" state here. In the browser, `play()` on an element whose track has ended first seeks back to 0, and reaching the end sets `paused` before `ended` fires. So after `AudioEnded`, the model's `ResetPause` keeps the position and leaves `paused` as it was. The browser restarts from 0.
- Playback.AppComponent.StopAudio: setting `currentTime = 0` starts a seek, and the seek fires `timeupdate`, so the registered `calculateTime` then shows `00:00`. Event delivery is not modelled; `StopAudio` itself does not touch the display.
- Angular decorators, `signal` reactivity (a signal is a plain field here), the `title` field, imports, the template and the styles: framework plumbing with no logic.
- TimeFormat.Digits: above 2^53, JavaScript prints the shortest digits that round to the same number (`2**64` gives `18446744073709552000`), and from 10^21 on it uses exponent form. The model always prints the exact digits. So `Digits`, `ToStringRoundTrip` and `ToStringInjective` match the source only up to 2^53 minutes or seconds. Minutes reach 2^53 only at a position of about 5.4·10^17 seconds.
- Handlers run in the order they were registered. That order is the order of the listener list; the order of running is not modelled.
