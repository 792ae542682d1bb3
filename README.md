# Beep.js tone scheduler in Dafny

Beep.js plays a list of `[frequency (Hz), duration (ms)]` pairs back to back
through the Web Audio API. The `Beep` class creates an `AudioContext` lazily.
Its `beep(freqArray)` call builds one gain node and one oscillator node. It
shifts the first pair off the caller's array and uses it as the immediate
frequency. Each remaining pair then becomes a `setValueAtTime` call at a
running `cumulativeTime`. The call ends by wiring oscillator → gain →
destination and calling `start(startTime)` and `stop(cumulativeTime)`. The
repository ships the class twice: as ES2015 source (`src/beep.js`) and as
its Babel output (`build/beep.js`). Both behave the same, so one model
serves both, and the table below cites whichever file shows a point best.

The project has three modules:

- `Tones` (`tones.dfy`) holds a tone pair (`Tone`), `_msToS` (`MsToS`), and
  the sum of durations (`TotalMs`). `StartOf(start, tones, k)` is the
  instant tone `k` begins: `start` plus the earlier durations in seconds.
  `StartOf(start, tones, |tones|)` is the stop time.
- `Timeline` (`timeline.dfy`) models the host audio API as a recorder. Every
  call on the context or its nodes is one `Event`. `ScheduledChanges` is the
  closed form of the `setValueAtTime` calls, and `Playback` is the whole
  event log of a successful `beep`. `Heard` reads the host's automation
  timeline: the frequency sounding at time `t`. The lemmas here state what
  the schedule promises.
- `Beeper` (`beep.dfy`) holds the `Beep` class. Its fields are `volume`,
  `waveType`, `audioContext: Option<Ctx>` and the event `log`. `ToneList`
  is the caller's JavaScript array, which `beep` shifts in place.
  `Beep.Beep` is `init().then(executor)`, and `Beep.Play` is the promise
  executor. `Play`'s loop is the `forEach` loop, and its invariant is
  `cumulativeTime == StartOf(startTime, tones, i + 1)`.

Times are exact reals. The context's `currentTime` is the parameter `now`.
The context that `_getAudioContext` would build is the parameter `created`.

Edge cases, as the code handles them:

- An empty array gets no dedicated error. Destructuring the `undefined`
  that `shift()` returns throws a `TypeError` (src/beep.js:46,
  build/beep.js:71-73), so the promise rejects.
- No frequency or duration is validated. A non-positive frequency or a
  negative duration is scheduled as given.
- The volume is passed to the gain node unclamped.

## Model

| member | source | states |
|---|---|---|
| `Tones.MsToS` | src/beep.js:113-115 | The result in seconds times 1000 is the input in milliseconds. It is non-negative exactly when the input is. |
| `Tones.TotalMs` | src/beep.js:47-55 | The sum of the durations is non-negative when every duration is. |
| `Tones.TotalMsAppend` | src/beep.js:52-55 | The duration total of two concatenated lists is the sum of their totals. |
| `Tones.TotalMsSnoc` | build/beep.js:81-87 | Extending a prefix by one pair adds exactly that pair's duration. |
| `Tones.StartOf` | src/beep.js:47-54 | Tone `k` begins the first `k` durations (in ms) divided by 1000 after `startTime`, so tone 0 begins at `startTime`. |
| `Tones.StartOfNext` | build/beep.js:85-86 | The loop step `cumulativeTime += _msToS(time)`: the next tone begins one duration in seconds after the current one. |
| `Tones.EndIsTotal` | src/beep.js:45-63 | The end of the last tone is `startTime` plus the total of all durations in seconds. |
| `Tones.StartOfMonotone` | src/beep.js:52-55 | With non-negative durations, tone start instants are non-decreasing in the index and never before `startTime`. |
| `Timeline.GainSetup` | src/beep.js:89-97 | `_createGainNode` makes exactly two calls: creating a gain node on the context and setting its gain to the given volume. |
| `Timeline.OscillatorSetup` | src/beep.js:73-82 | `_createOscillatorNode` makes exactly two calls: creating an oscillator on the context and setting its wave type. |
| `Timeline.NodeSetup` | src/beep.js:41-42 | Creating both nodes makes exactly four calls: the gain creation, the gain level, the oscillator creation and the wave type. Nothing is connected, started, stopped or scheduled yet. |
| `Timeline.ScheduledChanges` | src/beep.js:52-55 | The `forEach` loop makes one `setValueAtTime` per pair after the first. Change `j` sets pair `j+1`'s frequency, in input order. |
| `Timeline.Playback` | build/beep.js:63-95 | A successful call makes \|tones\|+8 calls on the host: four node-setup calls, the first frequency, \|tones\|−1 changes, two connects, the start and the stop. |
| `Timeline.ChangesSnoc` | src/beep.js:52-55 | One more `forEach` iteration appends exactly the change for the next pair. |
| `Timeline.ChangesAreCumulative` | src/beep.js:47-55 | There is one `setValueAtTime` per pair after the first, and none for a single pair. Change `j` carries pair `j+1`'s frequency at `startTime` plus the sum of pairs `0..j`'s durations divided by 1000. |
| `Timeline.ChangesOrdered` | src/beep.js:47-63 | With non-negative durations, change times are non-decreasing in input order and lie within `[startTime, stopTime]`. |
| `Timeline.PlaybackShape` | build/beep.js:63-87 | The log opens with the gain and oscillator setup (unclamped volume, constructor wave type). Then comes `frequency.value` of the first pair, then exactly the scheduled changes. |
| `Timeline.PlaybackEnds` | build/beep.js:89-95 | The log closes with oscillator→gain, gain→destination, `start(startTime)` and `stop(startTime + total/1000)`. |
| `Timeline.OnlyChangesScheduled` | build/beep.js:77-95 | An event of the log is a `setValueAtTime` exactly when it is one of the \|tones\|−1 scheduled changes. |
| `Timeline.HeardPrefix` | src/beep.js:48-55 | While tone `i` plays, the first `n ≥ i` changes leave the oscillator at tone `i`'s frequency. |
| `Timeline.PlaysBackToBack` | src/beep.js:45-63 | With non-negative durations, between the instant tone `i` begins and the instant it ends, the oscillator sounds tone `i`'s frequency. |
| `Timeline.TwoTones` | src/beep.js:45-63 | For `[[440, 200], [880, 300]]`, one change to 880 Hz happens at start+0.2 s and the stop at start+0.5 s. 440 Hz is heard at the start and 880 Hz at start+0.2 s. |
| `Beeper.Initialized` | src/beep.js:21-28 | After `init` there is always a context. An existing one is kept, and otherwise the newly created one is stored. |
| `Beeper.InitIdempotent` | build/beep.js:39-46 | `init` always leaves a context and keeps an existing one. A second `init` changes nothing. |
| `Beeper.ToneList.Shift` | src/beep.js:46 | `shift()` removes and returns the first pair, leaving the rest in order. On an empty array it returns `undefined` and changes nothing. |
| `Beeper.Beep.constructor` | build/beep.js:20-28 | A missing or `undefined` volume gives 1 and a missing or `undefined` wave type gives `'square'`. Given values are stored unchanged, and there is no context yet. |
| `Beeper.Beep.Init` | src/beep.js:21-28 | The context is created only when it is undefined, and otherwise left unchanged. The result is resolved either way. |
| `Beeper.Beep.CreateGainNode` | build/beep.js:125-134 | Appends the creation of a gain node on the context with gain exactly the given volume. |
| `Beeper.Beep.CreateOscillatorNode` | build/beep.js:107-116 | Appends the creation of an oscillator on the context with the given wave type. |
| `Beeper.Beep.Beep` | src/beep.js:38-66 | Runs `init` and then the executor. The context ends up as `init` leaves it. The array, log and outcome are those of `Play`. |
| `Beeper.Beep.Play` | build/beep.js:62-96 | On an empty array, only the two nodes are created: nothing is connected, started or stopped, and the promise rejects with a `TypeError`. Otherwise exactly the first pair is shifted off the caller's array and the rest stays in order. The log grows by exactly `Playback` of the original pairs at `now`, and the promise resolves on `onended`. |

## Left out

- The Web Audio API itself is not modelled. `window.AudioContext || window.webkitAudioContext` (`_getAudioContext`) becomes the parameter `created`, and `currentTime` becomes the parameter `now`. Sound rendering is summarised by `Heard`.
- `Timeline.Heard` takes the last inserted change whose time is not after `t`. This matches the host's rule (the latest time wins, and ties go to the later insertion) when change times are non-decreasing. That is the case whenever durations are non-negative, and `PlaysBackToBack` assumes it. Negative durations are not given a sound semantics.
- Promise plumbing is not modelled. `Completion` records only whether the promise is resolved, resolves on the host's `onended` callback, or rejects. The asynchronous callback itself is host-driven and real-time.
- The `noteOn`/`noteOff` aliasing of `start`/`stop` on both nodes is a platform shim with no effect on the schedule.
- JavaScript floating-point rounding of `ms / 1000` and of the repeated `+=` is not modelled. All times are exact.
- Babel boilerplate (`_classCallCheck`, `exports.__esModule`) is not modelled.
- Overlapping `beep` calls are not modelled. The `Oscillator` and `Gain` nodes in the log are those of the call that emitted them, and identity across calls is not tracked.
- Array elements that are not two-number pairs (a missing duration, non-numeric entries) are not modelled. `Tone` always has a real frequency and duration.
- Host calls are assumed never to throw. A negative time makes `setValueAtTime` or `stop` throw a `RangeError`, and a host without an `AudioContext` constructor makes `init` throw (src/beep.js:23,105). `Beeper.Beep.Play` reports `ResolvesOnEnded` for every non-empty array, which relies on this assumption.
- `Beeper.Beep.Beep`: its postcondition describes the state after the `.then` callback has run. In the code, the shift and the node creation happen after `beep` has returned its promise (src/beep.js:39-40), and the model does not represent that interleaving.
