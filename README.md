# Eilo companion core in Dafny

Eilo is a browser chat companion with an animated face. This project models
the logic of its single component, `src/App.jsx`:

- **`speak`'s audio path** (`wav.dfy`, `little_endian.dfy`). The guard skips
  speech when muted or without an API key. The 44-byte canonical RIFF/WAVE
  header (PCM, mono, 24000 Hz, 16 bits) is written through a `DataView` in
  front of the decoded PCM. `DataView` is a class over a byte `array`; its
  `setUint8`, `setUint16` and `setUint32` apply the JavaScript ToUint8,
  ToUint16 and ToUint32 wrap-around explicitly. The per-character helper `s`
  is a loop.
- **The chat turn of `handleSend`** (`chat.dfy`). The class `Companion` holds
  the component's state: input, mood, `isThinking`, the signed-in flag, the
  API key and the transcript. Ghost logs record the stored messages, the
  `speak` calls and the speech requests. A count records the armed
  return-to-neutral timers. `handleSend` is split at each `await` into event
  methods, and each running invocation is a `Turn` in a map.
- **The message snapshot handler** (`transcript.dfy`). It is a stable sort by
  timestamp, and a non-empty snapshot replaces the transcript.
- **`String.prototype.trim`** (`js_string.dfy`), which the send guard applies.
- **`renderEyes`' choice of face** (`face.dfy`).

### How the code behaves across awaits

- **`isThinking` does not stop a second turn.** The guard at line 81 reads
  `isThinking`, but line 89 only sets it after the first `await`. A second
  send before the user message is stored therefore starts a second turn.
  `Chat.TwoTurnsInFlight` proves this, and the model keeps a map of running
  turns.
- **Nothing is re-checked after an await.** The response path does not look
  at the awake or signed-in state again.
- **Return timers are never tracked or cancelled** (line 116). The timer of
  an earlier turn can set the mood to neutral while a later turn is thinking.

## Model

| member | source | states |
|---|---|---|
| LittleEndian.ToUint16 | src/App.jsx:71-73 | the value `setUint16` stores is below 2^16 and congruent to its argument modulo 2^16 |
| LittleEndian.ToUint32 | src/App.jsx:70 | the value `setUint32` stores is below 2^32 and congruent to its argument modulo 2^32 |
| LittleEndian.ReadUint16LeOfUint16Le | src/App.jsx:71-73 | the two bytes `setUint16(o, v, true)` writes read back little-endian as `v` modulo 2^16, whatever surrounds them |
| LittleEndian.ReadUint32LeOfUint32Le | src/App.jsx:70-73 | the four bytes `setUint32(o, v, true)` writes read back little-endian as `v` modulo 2^32, whatever surrounds them |
| LittleEndian.Uint16LeOfReadUint16Le | src/App.jsx:71-73 | the converse: encoding the 16-bit value read at an offset gives back the same two bytes |
| LittleEndian.Uint32LeOfReadUint32Le | src/App.jsx:70-73 | the converse: encoding the 32-bit value read at an offset gives back the same four bytes |
| Wav.DataView.SetUint8 | src/App.jsx:69 | stores ToUint8(v), the argument modulo 256, at the offset, leaves every other byte unchanged and records the offset as written |
| Wav.DataView.SetUint16Le | src/App.jsx:71-73 | stores the two little-endian bytes of ToUint16(v) at the offset, and leaves every other byte unchanged |
| Wav.DataView.SetUint32Le | src/App.jsx:70-73 | stores the four little-endian bytes of ToUint32(v) at the offset, and leaves every other byte unchanged |
| Wav.WriteTag | src/App.jsx:69 | the helper `s` writes the low byte of each character code from the offset on, in order, and changes nothing else |
| Wav.WriteHeader | src/App.jsx:67-73 | the fresh 44-byte buffer ends up holding the canonical header for `n` PCM bytes, and the returned view's record of stores is offsets 0..43, each once, in increasing order |
| Wav.HeaderSlices | src/App.jsx:70-73 | each of the thirteen fields sits at its offset in the header |
| Wav.HeaderTags | src/App.jsx:70-73 | the ASCII tags `RIFF`, `WAVE`, `fmt ` and `data` sit at offsets 0, 8, 12 and 36 |
| Wav.HeaderFields | src/App.jsx:70-73 | the fields read back as RIFF size 36 + n and data size n (both modulo 2^32), fmt size 16, format 1, channels 1, rate 24000, byte rate 48000, block align 2 and 16 bits |
| Wav.HeaderConsistent | src/App.jsx:71-73 | byte rate = sample rate × block align, and block align = channels × bits per sample / 8 |
| Wav.WavFileLayout | src/App.jsx:73-74 | the blob is 44 + n bytes with the PCM after the header; RIFF size = blob length − 8 and data size = n, both modulo 2^32 |
| Wav.SpeechRequested | src/App.jsx:50 | muted gives no speech request, an empty key gives none, and unmuted with a non-empty key gives one |
| Wav.Speak | src/App.jsx:50-75 | audio is played exactly when the guard `SpeechRequested` passes and the response held PCM; the blob is the header for the PCM length followed by the PCM |
| Transcript.Insert | src/App.jsx:43 | inserting into a sorted transcript keeps it sorted and adds exactly the one message |
| Transcript.SortByTimestamp | src/App.jsx:43 | the sorted snapshot is a permutation of the documents, non-decreasing by timestamp |
| Transcript.NextTranscript | src/App.jsx:43-44 | a non-empty snapshot gives its documents sorted by timestamp (as a permutation); an empty one leaves the transcript unchanged |
| Transcript.InsertWithTimestamp | src/App.jsx:43 | inserting adds the message in front of those with its timestamp, and leaves every other timestamp's messages as they were |
| Transcript.SortIsStable | src/App.jsx:43 | for every timestamp, the messages carrying it keep their snapshot order |
| Transcript.WithTimestampNonEmpty | src/App.jsx:43 | every timestamp present in a sequence selects at least one message |
| Transcript.WithTimestampMembers | src/App.jsx:43 | the messages selected for a timestamp come from the sequence and carry that timestamp |
| Transcript.SortedStableUnique | src/App.jsx:43 | two sequences that are sorted and agree on the order within every timestamp are equal |
| Transcript.NextTranscriptIsStableSort | src/App.jsx:43-44 | the handler's result is the unique stable ascending sort of the snapshot, so it does not depend on the engine's sorting algorithm |
| JsString.TrimStart | src/App.jsx:81-82 | the result is a suffix of the input, everything removed is white space, and it does not start with white space |
| JsString.TrimEnd | src/App.jsx:81-82 | the result is a prefix of the input, everything removed is white space, and it does not end with white space |
| JsString.Trim | src/App.jsx:81-82 | the trimmed input neither starts nor ends with white space |
| JsString.TrimIsInfix | src/App.jsx:81-82 | the trimmed input is the slice between a white-space prefix and a white-space suffix of the input |
| JsString.TrimEmptyIff | src/App.jsx:81 | `input.trim()` is empty exactly when every character of the input is white space |
| JsString.TrimFixedIff | src/App.jsx:81-82 | trim leaves a string unchanged exactly when it neither starts nor ends with white space |
| JsString.TrimIdempotent | src/App.jsx:81-82 | trimming twice gives the same as trimming once |
| Face.EyesFor | src/App.jsx:120-141 | the moon exactly when asleep; when awake, pulsing exactly when thinking, bouncing exactly when happy, blinking exactly when neutral |
| Face.EyesRevealMood | src/App.jsx:122-140 | while awake the eyes determine the mood; asleep they show none |
| Chat.ReplyText | src/App.jsx:93-104 | the model's text when it is present and non-empty, otherwise the canned reply; never empty |
| Chat.AfterUserMessage | src/App.jsx:94-105 | after the user message a turn asks the model exactly when its captured key is non-empty, and otherwise goes on with the canned reply |
| Chat.Companion.constructor | src/App.jsx:25-32 | the initial state is an empty input, neutral mood, not thinking, signed out, unmuted, awake, the stored key, and no messages, turns or timers |
| Chat.Companion.AuthChanged | src/App.jsx:36 | the signed-in flag follows the auth callback |
| Chat.Companion.InputEdited | src/App.jsx:190 | the input box takes the typed text |
| Chat.Companion.ApiKeyEdited | src/App.jsx:202 | the key takes the typed text |
| Chat.Companion.SnapshotArrived | src/App.jsx:42-45 | the transcript becomes the next transcript of the snapshot, and stays sorted |
| Chat.Companion.Send | src/App.jsx:81-84 | a turn starts exactly when the trimmed input is non-empty, nothing is thinking and a user is signed in; it captures the trimmed text and the key; input, `isThinking`, mood and the stored messages are unchanged |
| Chat.Companion.UserMessageStored | src/App.jsx:84-91 | one `'user'` message with the trimmed text is stored, then the input is cleared, `isThinking` is set and the mood becomes thinking |
| Chat.Companion.UserMessageFailed | src/App.jsx:84 | the turn ends; nothing else changes and no timer is armed |
| Chat.Companion.ReplyArrived | src/App.jsx:103-104 | the turn goes on to store the reply text |
| Chat.Companion.ReplyFailed | src/App.jsx:95-116 | mood neutral, `isThinking` cleared, one timer armed, nothing stored or spoken |
| Chat.Companion.ReplyStored | src/App.jsx:107-116 | exactly one `'eilo'` message with the reply is stored, the mood becomes happy, and `speak` is called once with the reply (a speech request only when unmuted with a key); `isThinking` is cleared and one timer armed |
| Chat.Companion.ReplyStoreFailed | src/App.jsx:107-116 | mood neutral, `isThinking` cleared, one timer armed, nothing stored or spoken |
| Chat.Companion.TimerFired | src/App.jsx:116 | the mood becomes neutral and one armed timer is used up |
| Chat.Companion.Eyes | src/App.jsx:120-141 | while awake, the face drawn shows the current mood |
| Chat.TwoTurnsInFlight | src/App.jsx:81-89 | from any state where the send guard passes, two sends in a row (before the first user message is stored) both start a turn, with the same text and key |

Every `Companion` event method keeps `Valid()`. Under `Valid()`, turn ids are
never reused and the transcript is sorted. `isThinking` is set only while the
turn that set it is running. A mood other than neutral always has a way back:
an armed timer, or a running turn whose `finally` will arm one.

## Left out

- The network calls to the Gemini text and speech endpoints (lines 52-63 and 95-103). Their outcomes are event parameters: a reply candidate, PCM bytes, or failure.
- Firestore and Auth (`addDoc`, `collection`, `onSnapshot`, `onAuthStateChanged`). Stored documents are a ghost log, and the auth state and snapshots arrive as events.
- Sign-in (lines 145-157), sign-out (line 204), the settings dialog's `localStorage.setItem` (line 203) and the rest of the JSX. These are UI.
- `atob` and `Uint8Array.from` (line 66). The PCM is taken as decoded bytes. An absent or empty base64 string is `None`, since both are falsy at line 65. So is an invalid one: `atob` throws, and line 77 catches the error.
- `Blob`, `URL.createObjectURL` and `Audio.play` (lines 74-75). The blob is the byte sequence `Speak` returns.
- `Date.now`. A timestamp is an integer parameter of a store event: the value read when the write was issued (lines 85 and 108).
- `setTimeout`'s 3000 ms wall-clock delay. Timers are a count of armed, unfired timers, and firing is an event.
- React's re-rendering and stale closures, beyond what affects the result. A turn keeps the API key its closure captured. `speak` uses that key and `isMuted`, which is never changed in this component (nor is `isAwake`).
- The scroll effect (line 143). It is presentation only.
- `src/firebase.js`, `src/main.jsx` and `vite.config.js` are not part of this model. They are SDK initialisation and page and build configuration.
- Chat.Companion.ReplyStored: the speech request is recorded, but the asynchronous outcome of `speak` (the audio played, or an error logged) is not tied to the turn. `Wav.Speak` models that outcome separately.
