# UniSom adaptive player — a verified model of its player and Guardian logic

UniSom is a browser music player for listeners with hearing loss in one ear. It
plays a playlist through a small audio graph. It also offers "Guardian" mode,
which streams the microphone to a hosted speech service. When a transcript
contains the user's name, the player pauses and shows an alert. When it hears
nearby speech, it ducks the volume for a few seconds.

This project models the part of that behaviour that can be stated precisely.
Each module follows one source file:

- `types.dfy` (`Types`): the records of `types.ts`. These are `Song`, the four-valued
  `GuardianStatus` and the `GuardianConfig` settings record.
- `format.dfy` (`Format`): the two pure helpers of `App.tsx`.
  - `FormatTime` renders whole seconds as `m:ss`. `FormatTimeReadsBack` proves the label reads
    back as minutes and seconds with `60 * minutes + seconds == time` and `seconds < 60`.
  - `StripExtension` models `name.replace(/\.[^/.]+$/, "")`. It is a right-to-left
    scan, proved against `ExtensionAt`, a direct statement of where the regular
    expression matches.
- `settings.dfy` (`Settings`): the settings panel of `components/SettingsModal.tsx`.
  - Each control returns a new configuration that differs from the old one in only
    the field it is wired to. Pressing a switch twice restores the configuration.
  - No run of panel actions changes `sensitivity`. A closed panel offers no update.
- `guardian.dfy` (`Guardian`): the client of `services/geminiService.ts`.
  - `Dispatch` is the `onmessage` rule. A message with an input transcription
    always fires the voice callback with the lower-cased text. If the lower-cased
    name occurs in that text, the name callback fires first. A message without a
    transcription fires nothing. Neither does a transcription without `text`: the
    unguarded `text.toLowerCase()` throws before either callback runs. `Includes` is proved equal to a substring predicate.
  - `FloatTo16BitPCM` converts each sample exactly, as ECMAScript does. The value is
    clamped, scaled, truncated toward zero and stored with ToInt16. Output i depends
    only on input i.
  - `EncodeBinary` is the loop of `encode`. It writes one character per byte, in order,
    and each character's code is the byte value. `EncodeChunk` composes both steps
    through the Int16-to-byte view of the buffer.
- `player.dfy` (`Player`): the state and handlers of the `App` component, as the
  class `Player`.
  - Its fields are the playlist, the current index, `isPlaying`, the Guardian status,
    the output volume (`Normal` or `Ducked`), the last transcript, the configuration,
    and whether the settings panel is open. Two more fields hold the user name given
    to the Guardian service and the `setTimeout` continuations that have not run yet.
  - `Valid()` holds in every state. The playlist is non-empty and the index is in
    range. Monitoring has started exactly when the status is no longer IDLE.
  - `Valid()` also says that a ducked volume, the voice banner and the name alert
    each have a pending timer that will end them.

One consequence of the source is stated in `Player.Player.OnMessage`. A transcript
can name the user and also be long enough to duck while adaptive volume is on. Then
the name alert is raised first and the voice callback replaces it: the status ends in
VOICE_DETECTION, not ALERTING. Playback stays paused, and both timers are pending.

## Model

| member | source | states |
|---|---|---|
| `Format.Decimal` | App.tsx:137 | The string conversion of a whole number below 10^21 (as `mins` and `secs` are for times below 2^53) is a non-empty string of decimal digits. |
| `Format.DecimalRoundTrip` | App.tsx:137 | The decimal rendering of a number is all digits, has no leading zero, is one digit exactly below 10, and reads back as the number. |
| `Format.PadStart` | App.tsx:137 | `padStart(width, fill)`: the result is `width` long, or unchanged if already longer; it ends with the input, preceded only by fill characters. |
| `Format.TwoDigitField` | App.tsx:136-137 | A seconds value below 100, padded to two places with '0', is exactly two digits that read back as the value. |
| `Format.FormatTime` | App.tsx:134-138 | The label is at least four characters long, with the colon third from the end, before the two-character seconds field. |
| `Format.FormatTimeReadsBack` | App.tsx:134-138 | For whole seconds `time`, the label is digits, ':', two digits. The fields read back as minutes and seconds with `60*m + s == time` and `s < 60`. Minutes have no leading zero. |
| `Format.ExtensionStart` | App.tsx:122 | A right-to-left scan returns a position exactly where the extension pattern matches, and none when the pattern matches nowhere. |
| `Format.StripExtension` | App.tsx:122 | The title is the name cut at the match of `/\.[^/.]+$/`, or the whole name when that pattern matches nowhere. |
| `Format.StripExtensionExamples` | App.tsx:122 | "a.b.mp3" becomes "a.b" and ".mp3" becomes "". "notes", "demo." and "v1.0/take" are unchanged. |
| `Settings.SetUserName` | components/SettingsModal.tsx:31 | The name edit sets `userName` to the entered text and leaves every other field unchanged. |
| `Settings.ToggleMonoMix` | components/SettingsModal.tsx:43 | The mono switch flips `monoMix` and leaves every other field unchanged. |
| `Settings.ToggleVoiceHighlight` | components/SettingsModal.tsx:56 | The voice-highlight switch flips `voiceHighlight` and leaves every other field unchanged. |
| `Settings.ToggleAdaptiveVolume` | components/SettingsModal.tsx:69 | The adaptive-volume switch flips `adaptiveVolume` and leaves every other field unchanged. |
| `Settings.Apply` | components/SettingsModal.tsx:28-73 | Any control changes only its own field and never `sensitivity`. A switch always changes the configuration. The name box sets the typed text. |
| `Settings.Offer` | components/SettingsModal.tsx:13-75 | The panel offers an update exactly when it is open. That update changes only the control's own field and never `sensitivity`. The name box offers the typed text as the name, and a switch offers a configuration different from the current one. |
| `Settings.SwitchTwice` | components/SettingsModal.tsx:42-73 | Applying the same switch twice gives back the original configuration. |
| `Settings.NameLastWriteWins` | components/SettingsModal.tsx:31 | Two name edits in a row are equal to the last one alone. |
| `Settings.ApplyAll` | components/SettingsModal.tsx:25-75 | After a run of panel actions, the name is unchanged when none of them edits it, and a run ending in a name edit leaves exactly that text as the name. |
| `Settings.NameFromLastEdit` | components/SettingsModal.tsx:25-75 | Over any run of panel actions, the final name is the text of the last name edit in the run, even when switches follow it. |
| `Settings.SensitivityNeverChanges` | components/SettingsModal.tsx:25-75 | No sequence of panel actions changes `sensitivity`. |
| `Settings.SwitchesCommute` | components/SettingsModal.tsx:42-73 | Two switch presses give the same configuration in either order. |
| `Guardian.Lower` | services/geminiService.ts:41 | `toLowerCase` keeps the length and maps each character on its own. |
| `Guardian.LowerIdempotent` | services/geminiService.ts:41-42 | Lower-casing twice equals lower-casing once. The result holds no ASCII capital. |
| `Guardian.Includes` | services/geminiService.ts:42 | `includes` is true exactly when the searched text occurs at some position. |
| `Guardian.Dispatch` | services/geminiService.ts:39-47 | A message without a transcription, or with a transcription that has no text, fires nothing. Otherwise the voice callback fires last, with the lower-cased text. The name callback fires, and fires first, iff the lower-cased name occurs in the lower-cased text. |
| `Guardian.EmptyNameAlwaysMatches` | services/geminiService.ts:42 | With an empty user name, every transcript fires the name callback and then the voice callback. |
| `Guardian.DispatchIgnoresNameCase` | services/geminiService.ts:42 | Lower-casing the user name beforehand changes no dispatch decision. |
| `Guardian.Truncate` | services/geminiService.ts:82 | Truncation toward zero: a non-negative value lies in [r, r+1), a negative one in (r-1, r]. |
| `Guardian.ToInt16` | services/geminiService.ts:82 | The value stored in an Int16Array is in the 16-bit range and congruent to the truncated value modulo 2^16. |
| `Guardian.ToInt16InRange` | services/geminiService.ts:82 | Storing a value in the 16-bit range into an Int16Array is truncation toward zero, with no wrap-around. |
| `Guardian.Clamp` | services/geminiService.ts:81 | `Math.max(-1, Math.min(1, x))` lies in [-1, 1], keeps values already there, and saturates at 1 above and at -1 below. |
| `Guardian.SampleToPcm` | services/geminiService.ts:81-82 | Input at or above full scale gives 32767 and at or below negative full scale gives -32768. The sign is kept. |
| `Guardian.SampleToPcmMonotone` | services/geminiService.ts:81-82 | A larger sample never gives a smaller PCM value. |
| `Guardian.FloatTo16BitPCM` | services/geminiService.ts:78-85 | The output is a newly allocated array of the input's length. Entry i is the conversion of input i alone. |
| `Guardian.LittleEndianBytes` | services/geminiService.ts:62 | The byte view of a sample buffer has two bytes per sample. |
| `Guardian.LittleEndianRoundTrip` | services/geminiService.ts:62 | Reading the byte view back as little-endian samples gives the original samples. |
| `Guardian.BytesOfSample` | services/geminiService.ts:62 | Bytes 2i and 2i+1 of the view are sample i's low and high byte. |
| `Guardian.EncodeBinary` | services/geminiService.ts:87-91 | The binary string has one character per byte, in byte order, and each character's code is that byte's value. |
| `Guardian.EncodeChunk` | services/geminiService.ts:59-62 | A microphone buffer becomes a string of two characters per sample. Each pair reads back as that sample's PCM value. |
| `Player.NextIndex` | App.tsx:98 | The next index is below the playlist length, whatever index it starts from. |
| `Player.PrevIndex` | App.tsx:106 | The previous index is below the playlist length. |
| `Player.NextIndexStep` | App.tsx:98 | From a valid index, "next" moves one song on, and from the last song back to the first. |
| `Player.PrevIndexStep` | App.tsx:106 | From a valid index, "previous" moves one song back, and from the first song to the last. |
| `Player.PrevUndoesNext` | App.tsx:97-110 | For a valid index, "previous" after "next", and "next" after "previous", return to the same index. |
| `Player.SkipForwardWraps` | App.tsx:97-103 | Pressing "next" k times from a valid index lands on `(i + k) % n`. Pressing it any multiple of n times returns to the starting song. |
| `Player.CoverUrl` | App.tsx:127 | The cover locator is the title between a fixed 27-character prefix and a fixed 8-character suffix, so the title can be read back from it. |
| `Player.LocalSong` | App.tsx:118-129 | The song made for one file has the drawn id, the file's object URL, the artist "Biblioteca Local", the extension-stripped title and the cover seeded by that title. |
| `Player.LocalSongs` | App.tsx:118-130 | One song per file, in file order. Each has the drawn id, the extension-stripped title, the artist "Biblioteca Local", the file's object URL and a cover seeded by the title. |
| `Player.Player.constructor` | App.tsx:9-32 | Starts with the three default songs, index 0, paused, IDLE, normal volume, no transcript, the default settings, the panel closed and no timers. |
| `Player.Player.CurrentSong` | App.tsx:35 | The current song is an entry of the playlist. |
| `Player.Player.TogglePlay` | App.tsx:50-77 | Flips `isPlaying`. The status moves IDLE to LISTENING, and monitoring starts with the current user name, only when playback starts from IDLE. Otherwise the status is unchanged. |
| `Player.Player.PlaybackFailed` | App.tsx:55-58 | A rejected `play()` leaves playback stopped. |
| `Player.Player.SkipNext` | App.tsx:97-103 | Sets the index to `NextIndex` of the old index and starts playback. Nothing else changes. |
| `Player.Player.SkipPrev` | App.tsx:105-110 | Sets the index to `PrevIndex` of the old index and starts playback. Nothing else changes. |
| `Player.Player.SelectSong` | App.tsx:112-116 | Sets the index to exactly the chosen one and starts playback. |
| `Player.Player.AddLocalFiles` | App.tsx:118-132 | The new playlist is the old one followed by one song per file. The index and the current song are unchanged. |
| `Player.Player.OpenSettings` | App.tsx:150 | The settings button opens the panel. |
| `Player.Player.CloseSettings` | App.tsx:256 | Closing the panel marks it closed. |
| `Player.Player.EditSettings` | App.tsx:254-259 | An open panel applies the control to the configuration. A closed panel changes nothing. `sensitivity` never changes. |
| `Player.Player.HandleDucking` | App.tsx:79-86 | Sets VOICE_DETECTION and a ducked volume, and schedules the volume-restore timer. |
| `Player.Player.HandleNameAlert` | App.tsx:88-95 | Sets ALERTING, pauses playback and schedules the alert-clear timer. |
| `Player.Player.OnVoice` | App.tsx:64-69 | Records the transcript. It ducks exactly when adaptive volume is on and the text is longer than five characters; otherwise nothing else changes. |
| `Player.Player.OnMessage` | services/geminiService.ts:39-47 | Runs the dispatched callbacks in order on the player. A transcript naming the user pauses playback. Ducking, when it happens, leaves the status at VOICE_DETECTION even after a name alert. |
| `Player.Player.FireTimer` | App.tsx:82-94 | A pending timer runs once and is removed. Either timer sets LISTENING whatever the status; only the ducking timer restores the volume. |

## Left out

- `services/audioService.ts` (the Web Audio graph, gain ramps, the filter for voice
  highlight, the mono stub) and `components/Visualizer.tsx` (canvas drawing) are not
  part of this model. Their volume becomes the two-valued `Volume`, not 0.3 and 1.0.
- `components/Library.tsx` is rendering only. Its list passes only playlist indices to
  `selectSong`, which is why `SelectSong` requires an index in range. Its guard
  against an empty file list is not needed, because appending no files is harmless.
- The live session (`ai.live.connect`), `getUserMedia`, the ScriptProcessor stream, the
  `sendRealtimeInput` call and `btoa` are foreign calls and I/O. The model stops at
  the binary string handed to `btoa`.
- `Math.random` ids and `URL.createObjectURL` locators are inputs to `AddLocalFiles`.
- Real time is not modelled. A pending timer may fire at any moment and in any
  order, which allows more orders than the 4 s and 5 s delays do. The
  `setTimeout(play, 0)` after a skip and the audio element's own play/pause are I/O.
- `currentTime`, `duration` and their media-element events are not modelled.
  Neither is the effect that pushes `voiceHighlight` and `monoMix` into the audio engine.
- A failed `startMonitoring` only logs. The model records the name it was started
  with; no message arrives afterwards.
- The callbacks capture the configuration from the render that started monitoring.
  The model reads the current configuration instead, so a later change to adaptive
  volume takes effect at once.
- `Format.FormatTimeReadsBack`: only whole, non-negative seconds below 2^53 are meant. NaN and fractional times are not modelled. Above 2^53, `time / 60` on doubles is rounded before `Math.floor`, so `60*m + s == time` can fail in JavaScript. An example is t = 1152921504606847744, which gives one minute fewer than the model's exact division. The model divides exactly for every natural.
- `Format.Decimal`: models `toString` of a whole number below 10^21, where it prints plain decimal digits. From 10^21 on, JavaScript prints exponent form ("1e+21"). The model still prints digits there. Minutes computed from times below 2^53 stay far below 10^21.
- `Guardian.Lower`: maps ASCII capitals only. Unicode case mapping is not modelled.
- `Player.Player.OnVoice`: counts characters as code points. JavaScript's `length` counts UTF-16 units, which differ outside the Basic Multilingual Plane.
- `Guardian.SampleToPcm`: samples are exact reals. NaN and infinite samples are not modelled. Scaling a float32 sample by 0x8000 or 0x7FFF is exact in double precision, so finite inputs lose nothing.
- `Guardian.LittleEndianBytes`: assumes a little-endian platform, as every mainstream browser is. The source itself does not fix the byte order.
- `Player.Player.PlaybackFailed`: may fire in any state. In `App.tsx` only the `play()` in `togglePlay` has a rejection handler (lines 55-58). The `play()` calls scheduled by a skip or a selection (lines 102, 109 and 115) have none, so when they fail `isPlaying` stays true. The model does not record which `play()` failed.
- `AlertLog` in `types.ts` is declared and never used.
