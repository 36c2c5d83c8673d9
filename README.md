# FartCaster state model

FartCaster is a single React component (`src/App.js`). The user picks a username,
records or uploads short audio clips, and earns "FART tokens" for each clip. Clips
appear in a feed where they can be played and deleted. This project models the
component's non-visual state logic in Dafny and proves properties of it.

- `Feed` (`feed.dfy`): the clip record and the three pure feed transformations the
  handlers write into the `recordings` state:
  - prepend-and-slice to twenty records;
  - the play-count map;
  - the delete filter.
  It also holds lemmas on each transformation.
- `Rewards` (`rewards.dfy`): the token formula `floor(d * 15) + floor(random * 25) + 10`.
  Durations are natural numbers of tenths of a second. The random draw is a parameter
  in [0, 24].
- `Text` (`text.dfy`): JavaScript's `String.prototype.trim`, used by the username gate,
  and the `audio/` media-type test of uploads.
- `App` (`app.dfy`): class `FartCaster`. It has one field per `useState` hook, plus
  `hasRecorder` (the media-recorder ref is set) and `intervalLive` (the recording
  timer is running). Each handler is a method. Its `modifies` clause names exactly the
  fields the handler sets, so every other field is unchanged by construction.
  `Valid()` states that a recording in progress has a recorder and that the timer
  runs exactly while recording.

Randomness, `Date.now()` ids, `toLocaleTimeString()` timestamps, object URLs and the
microphone permission are method parameters.

Three behaviours of the code worth noting:
- Deleting the clip that is playing does not clear `playingId` (src/App.js:172-176).
  `DeleteRecording` leaves it alone.
- Record ids are not checked for uniqueness. Lemmas that need unique ids assume
  `UniqueIds` or a fresh id explicitly.
- Toggling clip A and then clip B adds one play to A (from the first toggle) and one
  to B. `ToggleTwoClips` states this.

## Model

| member | source | states |
|---|---|---|
| Rewards.DurationTokens | src/App.js:130 | `floor(d*15)` for d tenths of a second: the largest t with 10t <= 15d |
| Rewards.EarnedTokens | src/App.js:130 | earned tokens are at least 10, and between floor(d*15)+10 and floor(d*15)+34; what is above floor(d*15)+10 is exactly the draw |
| Rewards.EarnedTokensMonotone | src/App.js:130 | a longer clip never earns fewer tokens for the same draw |
| Rewards.EarnedTokensWholeSeconds | src/App.js:130 | a clip of s whole seconds earns 15s + draw + 10 |
| Rewards.EarnedTokensForThreePointTwoSeconds | src/App.js:130 | a 3.2-second clip earns between 58 and 82 tokens |
| Text.TrimStart | src/App.js:70 | result is the suffix of the name after all leading whitespace and starts with a non-whitespace character |
| Text.TrimEnd | src/App.js:70 | result is the prefix of the name before all trailing whitespace and ends with a non-whitespace character |
| Text.TrimEmptyIffBlank | src/App.js:70 | `name.trim()` is empty exactly when every character is whitespace |
| Feed.Slice | src/App.js:143 | `slice(0, n)` is the prefix of length min(len, n) |
| Feed.Prepend | src/App.js:143 | the new record is first; the rest is the old feed's first min(len, 19) records in order; length is 1..20 |
| Feed.PrependEvictsOnlyTheOldest | src/App.js:143 | below the cap nothing is evicted; at the cap only the last (oldest) record is |
| Feed.PrependKeepsNewestFirst | src/App.js:132-143 | a record with a newer id keeps a newest-first feed newest first |
| Feed.PrependThenRemove | src/App.js:143 | saving a fresh id below the cap and then deleting it gives back the feed |
| Feed.IncrementPlays | src/App.js:164-166 | same length; each record with the id gets plays+1, every other record is unchanged |
| Feed.IncrementPlaysAbsent | src/App.js:164-166 | incrementing an absent id leaves the feed unchanged |
| Feed.IncrementPlaysChangesExactlyOne | src/App.js:164-166 | with unique ids, exactly the record with the id changes, and only in its play count |
| Feed.IncrementPlaysTotal | src/App.js:164-166 | the total play count rises by the number of records carrying the id |
| Feed.IncrementPlaysKeepsOrder | src/App.js:164-166 | id uniqueness and newest-first order survive the play-count map |
| Feed.RemoveId | src/App.js:173 | the kept records are exactly those of the feed with another id; the length drops by the number with the id |
| Feed.RemoveIdAppend | src/App.js:173 | the filter distributes over concatenation, so kept records keep their relative order |
| Feed.RemoveIdAbsent | src/App.js:173 | deleting an absent id leaves the feed unchanged |
| Feed.RemoveIdIdempotent | src/App.js:173 | deleting the same id twice equals deleting it once |
| Feed.CountPositiveIffPresent | src/App.js:173 | some record is removed exactly when the id is in the feed |
| App.FartCaster.constructor | src/App.js:5-13 | the initial hook values: not recording, empty feed, 0 tokens, nothing playing, empty name, prompt shown, loading |
| App.FartCaster.LoadData | src/App.js:26-48 | stored values that are present replace their fields, a stored name hides the prompt, a failed read or unparsable feed stops the later loads, loading ends |
| App.FartCaster.EditUsername | src/App.js:203 | the typed text becomes the username |
| App.FartCaster.HandleUsernameSubmit | src/App.js:69-74 | the prompt is hidden exactly when the name is not all whitespace; otherwise nothing changes |
| App.FartCaster.ChangeUsername | src/App.js:369-372 | the prompt is shown and the name cleared; feed, tokens and playing clip untouched |
| App.FartCaster.StartRecording | src/App.js:76-103 | with the microphone granted: recorder set, recording on, timer reset to 0 and running; denied: an alert and no change |
| App.FartCaster.Tick | src/App.js:97-99 | each timer firing advances the counter by a tenth of a second |
| App.FartCaster.StopRecording | src/App.js:105-113 | acts only with a recorder and a recording in progress; afterwards not recording and the timer cleared |
| App.FartCaster.SaveRecording | src/App.js:129-152 | new record first with 0 plays and the current name; rest is the old feed's first min(len, 19); at most 20; balance rises by exactly the earned tokens (at least 10) |
| App.FartCaster.OnRecorderStop | src/App.js:86-91 | a finished recording is saved with the timer's duration |
| App.FartCaster.HandleFileUpload | src/App.js:115-127 | a missing or non-`audio/` file gives an alert and leaves feed, tokens and banner unchanged; an audio file gives no alert and is saved like a recording when its metadata loads, otherwise nothing changes |
| App.FartCaster.TogglePlay | src/App.js:154-170 | toggling the playing clip clears `playingId` and keeps the feed; any other clip becomes the playing one and gains a play; tokens never change |
| App.FartCaster.OnPlaybackEnded | src/App.js:179 | when the audio ends nothing is playing |
| App.FartCaster.DeleteRecording | src/App.js:172-176 | the feed is filtered by id; no record with the id remains; an absent id leaves the feed unchanged; tokens and `playingId` untouched |
| App.FartCaster.DismissSuccess | src/App.js:151 | the success banner is hidden |
| App.ToggleTwoClips | src/App.js:154-170 | toggling a then b from idle leaves b playing with one more play each on a and b |

## Left out

- Rendering and styling (src/App.js:186-380) are presentation only. The model keeps only the handlers those lines bind.
- Storage I/O (`window.storage` get and set, `saveData`, `saveUsername`) is an asynchronous foreign call. `LoadData` takes the stored values as parameters. The writes after each change are not modelled. A failed write only logs and does not roll back, so the in-memory state is the same.
- `JSON.parse` and `parseInt` are not modelled. A stored feed is either parsed clips or malformed. A stored balance is an integer or absent, so the `NaN` of an unparsable balance is not represented.
- `MediaRecorder`, `getUserMedia`, `Blob`, `URL.createObjectURL`, the `Audio` element and its `src`, `play` and `pause` are browser device plumbing. The microphone's answer is the `micGranted` parameter. URLs are opaque string parameters.
- `OnRecorderStop`: the source's `onstop` closure was created when recording started, so it sees that render's `recordingDuration`, `recordings` and `userTokens`. The model saves over the current state with the current timer value and does not reproduce the stale closure.
- `HandleFileUpload`: the `loadedmetadata` event that triggers the save is asynchronous. The model performs the save in the same step, using the duration that event reports; a file whose metadata never loads is a missing duration and changes nothing.
- Floating point: durations are exact tenths of a second. This leaves out the 0.1 tick accumulation, the rounding of `duration * 15` before `floor`, upload durations that are not whole tenths, and the `toFixed(1)` formatting.
- The rating is drawn from `Math.random()` and formatted with `toFixed(1)`. It is an opaque string parameter.
- `setTimeout` and `setInterval` are not modelled as timers. A firing is the `Tick` or `DismissSuccess` method. Clearing the interval on unmount (src/App.js:180-183) is not modelled.
- `StartRecording` requires that no recording is in progress, as the start button renders only then (src/App.js:247). In the source the flag is set only after the awaited microphone request (src/App.js:78, 94), so a second click while that request is pending starts a second recorder and overwrites the interval handle (src/App.js:97), and `stopRecording` then clears only one interval (src/App.js:110). The model does not capture this: each handler is one atomic step, with no pending request in between.
- `EditUsername` and `HandleUsernameSubmit` do not model the `Enter` key binding or the disabled state of the submit button. Both only decide when the handler is called.
