# Mood controller of the facial-expression music page

This project models the part of the page script that makes decisions. Every
700 ms, the script asks a face detector which expressions it sees. It
picks the dominant expression ("mood") of the first face. When the mood
changes, it stops the tones that are playing and schedules a short sound cue
for the new mood. When no face is present, it clears the mood and stops the
sound.

The detector is an input: a sequence of faces, each holding its expression
scores. The audio engine is an output, recorded as three things:

- the oscillators scheduled,
- the oscillators on which `stop()` was called,
- the schedule of the shared gain.

Modules:

- `Wrappers`: `Option`, which stands for the script's `null`.
- `Expressions`: the dominant-expression reduction. An expression object is
  modelled as its (label, score) entries in key order. Object keys are
  distinct and come in insertion order.
- `Recipes`: the table from mood to sound recipe. Each recipe is a list of
  oscillators (waveform, pitch, start and stop in whole milliseconds after the
  audio clock's `now`) and a gain envelope (peak time, peak level in
  thousandths, end time).
- `Controller`: the class `MoodController`. Its fields are the script's
  globals `detecting`, `currentMood`, `activeOscs` and the gain node, plus a
  count of started polling loops and a log of stopped oscillators. Its methods
  are `beginDetection`, one tick of the polling loop, `stopSound` and
  `playMoodSound`. The object invariant `Valid()` says three things:
  - at most one polling loop runs, and only once `detecting` is set;
  - the oscillators held are exactly the current mood's recipe, and none when
    there is no mood;
  - the gain follows that recipe's envelope.

A reader might expect a score tie to go to the first key. The reduction
compares with a strict `>`, so a later key that ties the running maximum
replaces it. The model and the lemma `TieGoesToLaterKey` say the **last**
label with the top score is chosen.

## Model

| member | source | states |
|---|---|---|
| `Expressions.DominantIndex` | script.js:80 | The reduction settles on the last position whose score is maximal. Every score is at most that position's score, and every later entry scores strictly less. |
| `Expressions.LastMaxUnique` | script.js:80 | At most one position is the last position of the maximum, so the reduction's result is determined by that property. |
| `Expressions.Dominant` | script.js:79-80 | No label exactly when the expression object has no keys (`reduce` throws). Otherwise the label at the last position of the maximum. |
| `Expressions.DominantIsMaximal` | script.js:80 | The dominant label is the one at the reduction's position, and the score at that position is at least every entry's score. |
| `Expressions.UniqueMaximumChosen` | script.js:80 | When one label strictly outscores all the others, that label is the dominant one. |
| `Expressions.TieGoesToLaterKey` | script.js:80 | Of two entries with equal scores, the earlier one is never chosen, because the comparison is a strict `>`. |
| `Recipes.RecipeFor` | script.js:128-215 | For every label: each oscillator starts before it stops and stops no later than the envelope's return to 0. The envelope peaks before it ends and has a positive peak. There are 3 oscillators for happy and surprised, 2 for neutral and 1 for every other label. |
| `Recipes.HappyRecipe` | script.js:128-141 | happy is sines at 660, 880 and 990 Hz, starting 120 ms apart and lasting 600 ms each. The last stops at 840 ms. The gain ramps to 0.12 at 20 ms and is back at 0 at 1000 ms. |
| `Recipes.SurprisedRecipe` | script.js:164-177 | surprised is sines at 1200, 1500 and 1800 Hz, starting 60 ms apart and lasting 180 ms each. The last stops at 300 ms. The gain ramps to 0.14 at 20 ms and is back at 0 at 800 ms. |
| `Recipes.FearfulDisgustedShareRecipe` | script.js:192-203 | fearful and disgusted get the same recipe: one sawtooth gliding from 180 to 60 Hz, sounding from 0 to 1400 ms. |
| `Recipes.FallbackRecipe` | script.js:204-215 | Any label outside the detector's seven gets the 440 Hz sine beep lasting 180 ms, with an envelope ending at 300 ms. |
| `Controller.MoodController.constructor` | script.js:7-10 | At page load: not detecting, no mood, no gain node, and no oscillators (`activeOscs` starts as `[]` at script.js:108). The invariant holds. |
| `Controller.MoodController.BeginDetection` | script.js:52-54 | Once `detecting` is set, another call changes nothing. Otherwise it sets `detecting` and starts exactly one polling loop. The invariant is kept, so at most one loop ever runs. |
| `Controller.MoodController.StopSound` | script.js:110-116 | Calls `stop()` on every active oscillator in order and empties the list. The gain fades to 0 if the node exists. |
| `Controller.MoodController.PlayMoodSound` | script.js:119-216 | Stops everything first. Afterwards the active oscillators are exactly the mood's recipe, with nothing from before, and the gain follows the recipe's envelope. |
| `Controller.MoodController.Tick` | script.js:61-95 | A paused or ended video, an empty expression object, or a dominant mood equal to the current one changes nothing. With no face: the mood is cleared, every old oscillator is stopped, none is left, and the status reads "No face detected.". With a new dominant mood: the mood becomes it and every old oscillator is stopped. Exactly its recipe is scheduled and the status reads "Detected: " followed by the mood. The invariant is kept. |
| `Controller.SameMoodTwice` | script.js:84-88 | Two ticks with the same dominant mood trigger the sound at most once. The old oscillators are stopped only when the mood actually changed, and the new recipe stays scheduled. |
| `Controller.HappyScenario` | script.js:70-88 | On a freshly started page, scores happy 0.9, sad 0.05 and neutral 0.05 choose happy. The three happy sines are scheduled 120 ms apart and the status is "Detected: happy". |
| `Controller.NoFaceScenario` | script.js:89-94 | Whatever was playing, a frame with no face leaves no mood and no oscillator, and every previously held oscillator has been stopped. |

## Left out

- Model loading from the CDN and its status messages (script.js:12-29): network I/O through a foreign library.
- Camera start-up (`getUserMedia`, `video.play`) and the click handler's button and status handling (script.js:31-50): platform I/O and permissions.
- The detector itself (`detectAllFaces`, `resizeResults`, `matchDimensions`): an opaque machine-learning library. Its result is the `faces` parameter of `Tick`, and whether the video is playing is the `videoPlaying` parameter.
- Canvas drawing, the box toggle and the mood label drawn on the canvas (script.js:55-59, 68, 73-77, 81-82): user interface only. A face's bounding box is therefore not modelled.
- Real audio behaviour is not modelled. This covers the `AudioContext` and its creation (script.js:99-106), `setTargetAtTime` smoothing, exponential frequency ramps beyond their end points, and the sound produced. Only the schedule is recorded.
- Times are relative to `now`. The audio clock is not modelled.
- Times are whole milliseconds and frequencies whole hertz. The script's floating-point seconds are therefore rounded away, for example `0.6 + 2 * 0.12`.
- `Controller.MoodController.StopSound`: does not model the swallowed exception when stopping an oscillator that has already ended. The model records every `stop()` call, because the `try/catch` makes the call harmless either way.
- `setInterval` timing and the overlap of asynchronous ticks (script.js:61, 95): concurrency. A tick is one atomic step, and ticks run only after the loop has started.
- A rejected detector call is not modelled. The tick then simply never completes, which is the same as a tick that changes nothing.
- Confidence scores are reals. Only their order matters, so floating-point rounding is not modelled.
