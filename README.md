# Streaming transcription engine — Dafny model

This project models the core of the speech-to-text back end:

- **Audio storage** (`AudioChunk`, `AudioStorage`): a chunked, time-indexed store of mono samples.
  - Frames are appended to the last chunk.
  - A new chunk is opened once the last one reaches `max_chunk_duration`.
  - Range queries in seconds or milliseconds clamp the window, cut every chunk down to its overlap and concatenate the pieces in chunk order.
- **Incremental transcript** (`WhisperCore`). Each `update_stream` cycle:
  - picks the start of the reprocessing window from the segment history;
  - fetches the audio from there to the end of the buffer and runs the recognizer on it;
  - shifts the answer into stream time and updates the activity tracker;
  - overwrites the tail of the history with the first segment and appends the rest.
  `has_new_phrases` is the inactivity test; `reset_stream` clears everything.
- **Microphone queue** (`AsyncMicrophone`): frames are put by the capture loop and drained in FIFO order.
- **Audio format getters** (`AudioConfig`): bytes per sample, bytes per second, samples per second.
- **`Message`**: a chat message with a length-checked text and a dictionary round trip.

How the model represents things:

- Samples and microphone frames are opaque type parameters.
- Seconds are exact `real`s. Python's `int(...)` is `Timebase.Trunc`, which equals `Floor` on the non-negative times the engine uses.
- The recognizer is a function parameter `seq<S> -> seq<Segment>` that answers in milliseconds.
- The clock is a parameter `now`.
- `AudioStorage` carries ghost state:
  - `Contents`: every sample appended since creation or the last reset;
  - `Parts` and `Offsets`: each chunk's samples and where they start in `Contents`.

  Its invariant says that the chunks tile `Contents` and that each chunk starts at the time of its first sample.
- Every range query is proved equal to `Audio.WindowOf`: the clamped request, then the samples whose index lies in `[Floor(start·rate), Floor(end·rate))`.
- One update cycle on values is `Transcript.Advance`. `Engine.WhisperCore.UpdateStream` is proved to perform exactly that cycle on its fields.

Modules:

| file | module | contents |
|---|---|---|
| `wrappers.dfy` | `Wrappers` | `Option`, `Result` |
| `audio_config.dfy` | `AudioFormat` | `AudioConfig` and its byte-rate getters |
| `timebase.dfy` | `Timebase` | second/millisecond/sample-index conversions |
| `text.dfy` | `Text` | `str.strip()` |
| `audio.dfy` | `Audio` | `AudioChunk`, `AudioStorage`, `WindowOf` |
| `transcript.dfy` | `Transcript` | segments, history entries, activity tracker, one update cycle as a function |
| `engine.dfy` | `Engine` | `WhisperCore` |
| `microphone.dfy` | `Microphone` | the frame queue of `AsyncMicrophone` |
| `batch_stats.dfy` | `BatchStats` | the size and duration statistics of a drained batch |
| `message.dfy` | `Messages` | `Message`, `to_dict`, `from_dict` |

## Model

| member | source | states |
|---|---|---|
| AudioFormat.SampleSize | backend/source/whispercore_main.py:62-63 | a sample size exists exactly for the six PortAudio formats, and it is 1 to 4 bytes |
| AudioFormat.BytesPerSample | backend/source/whispercore_main.py:53-54 | bytes per sample exist exactly for the six PortAudio formats, and are 1 to 4 |
| AudioFormat.SamplesPerSecond | backend/source/whispercore_main.py:68-69 | samples per second carry no byte factor: for mono audio it is the sample rate, and with at least one channel it is never below the sample rate |
| AudioFormat.BytesPerSecond | backend/source/whispercore_main.py:65-66 | the byte rate is defined exactly when the sample size is; it equals samples per second times bytes per sample, so it lies between one and four times the samples per second |
| BatchStats.BatchSize | backend/source/whispercore_main.py:985 | the batch size is at least the length of each of its frames |
| BatchStats.AppendedDuration | backend/source/whispercore_main.py:470-473 | what appending the frames adds to the storage's total duration is never negative |
| BatchStats.BatchTime | backend/source/whispercore_main.py:986 | the statistic as written exists exactly when the byte rate does and is non-zero, and times the byte rate it gives back the sample count |
| BatchStats.BatchSeconds | backend/source/whispercore_main.py:984-986 | the corrected statistic exists exactly for a positive sample rate, and times the rate it gives back the sample count |
| BatchStats.BatchSecondsIsAppendedDuration | backend/source/whispercore_main.py:984-990 | the corrected duration of a drained batch is exactly what appending its frames adds to the storage's total duration |
| BatchStats.BatchTimeScaled | backend/source/whispercore_main.py:984-986 | for frames of the given lengths, the statistic as written is that duration divided by the channel count times the sample size |
| BatchStats.BatchTimeMono | backend/source/whispercore_main.py:984-986 | for the mono batches the capture paths produce, the statistic as written is the batch's duration divided by the sample size |
| BatchStats.BatchTimeHalved | backend/source/whispercore_main.py:984-986 | one second of the engine's 16 kHz mono 16-bit audio is reported as 0.5 s; the corrected statistic gives 1.0 s |
| AudioFormat.Int16MonoRate | backend/source/whispercore_main.py:899-906 | the engine's 16 kHz mono 16-bit configuration gives 32000 bytes and 16000 samples per second |
| Timebase.Trunc | backend/source/whispercore_main.py:413-414 | `int(x)` truncates toward zero: it is the integer within 1 of `x` on the side toward 0 |
| Timebase.SecondsToMillis | backend/source/whispercore_main.py:517-519 | `int(seconds * 1000)`: the millisecond count lies within one millisecond of the exact value, below it for non-negative times and above it for negative ones |
| Timebase.MillisToSeconds | backend/source/whispercore_main.py:521-523 | `millis / 1000.0`: the seconds value times 1000 is exactly the milliseconds, with the same sign |
| Timebase.MillisRoundTrip | backend/source/whispercore_main.py:517-523 | milliseconds → seconds → milliseconds gives back the same integer |
| Timebase.SecondsRoundTrip | backend/source/whispercore_main.py:517-523 | non-negative seconds → milliseconds → seconds rounds down by less than 1 ms |
| Timebase.SecsToMillisIsDivision | backend/source/whispercore_main.py:513-519 | the millisecond duration of `n` samples is `n·1000 div rate` |
| Timebase.StartIndex | backend/source/whispercore_main.py:409-417 | the chunk's start index (start clamped to the chunk, truncated, clamped to the samples) is the timeline index minus the chunk's offset, clamped |
| Timebase.EndIndex | backend/source/whispercore_main.py:410-418 | the same for the end index, clamped between the start index and the chunk length |
| Text.Strip | backend/source/whispercore_main.py:691 | `str.strip()` never lengthens a text; `StripSound` states that it cuts off only whitespace and keeps none at either end |
| Text.StripSound | backend/source/whispercore_main.py:691 | `strip` removes only whitespace, on both sides, and leaves no whitespace at either end |
| Text.StripTrimmed | backend/source/whispercore_main.py:691 | a string with no whitespace at either end strips to itself |
| Text.StripIdempotent | backend/source/whispercore_main.py:712 | stripping twice is stripping once, so the merge's re-strip of stored texts changes nothing |
| Audio.AudioChunk.constructor | backend/source/whispercore_main.py:368-385 | a new chunk holds the given samples from the given start time, and its end time is start plus their duration |
| Audio.AudioChunk.AppendAudioData | backend/source/whispercore_main.py:387-394 | an empty frame leaves the chunk untouched; otherwise the samples are extended by the frame and the count and end time follow |
| Audio.AudioChunk.Duration | backend/source/whispercore_main.py:423-425 | the duration is end time minus start time, never negative |
| Audio.AudioChunk.GetAudioFromTime | backend/source/whispercore_main.py:396-421 | a request disjoint from the chunk gives nothing; every answer is a contiguous slice `samples[i..j]` with `0 <= i <= j <= n` |
| Audio.AlignedSlice | backend/source/whispercore_main.py:404-421 | for a chunk whose first sample is timeline index `offset`, the answer is exactly the samples whose timeline index is in `[Floor(start·rate), Floor(end·rate))` |
| Audio.WindowOf | backend/source/whispercore_main.py:475-499 | an empty or reversed request (other than `end == -1`) returns nothing; `GetAudioRangeSeconds`, `WholeWindow` and `WindowsStitch` state the rest |
| Audio.WholeWindow | backend/source/whispercore_main.py:480-499 | a request from 0 (or earlier) to the end (or `-1`) returns every appended sample in append order |
| Audio.WindowsStitch | backend/source/whispercore_main.py:480-499 | splitting a request at any time and concatenating the two answers gives the answer to the whole request |
| Audio.TwoChunkQuery | backend/source/whispercore_main.py:449-499 | three one-second appends into a store with two-second chunks give two chunks spanning `[0, 2)` and `[2, 3)`, and the request `[0.5, 2.5)` across their boundary returns the 32000 samples from index 8000 on |
| Audio.HalfSecondWindow | backend/source/whispercore_main.py:475-499 | with three seconds at 16 kHz, `[0.5, 2.5)` returns the 32000 samples from index 8000 on |
| Audio.AudioStorage.constructor | backend/source/whispercore_main.py:439-447 | a new store has no chunks, no samples and zero duration |
| Audio.AudioStorage.AppendAudio | backend/source/whispercore_main.py:449-473 | an empty frame changes nothing. Otherwise the frame lands at the end of `Contents` and the total grows by `len/rate`. A first chunk at time 0 is opened only when there is none. A new chunk is opened only when the last one has reached the maximum, and it starts at the old total. The last chunk then holds just the frame, or its old samples followed by the frame when no chunk was opened. Every earlier chunk keeps its samples. The invariant (contiguous tiling, full chunks before the last) is kept |
| Audio.AudioStorage.OpenChunk | backend/source/whispercore_main.py:456-466 | a fresh empty chunk is added at the current total duration; older chunks and the samples are unchanged |
| Audio.AudioStorage.AppendToLast | backend/source/whispercore_main.py:468-473 | the last chunk's samples and `Contents` are each extended by exactly the frame. The chunk list and the other chunks' samples are unchanged, and the total duration grows by the frame's length over the rate |
| Audio.AudioStorage.GetAudioRangeSeconds | backend/source/whispercore_main.py:475-499 | the answer is `WindowOf(Contents, …)`: `-1` means the end, the request is clamped to `[0, total]`, empty when start ≥ end, otherwise the samples of the window in order |
| Audio.AudioStorage.CollectPieces | backend/source/whispercore_main.py:491-499 | the per-chunk pieces of a clamped request, concatenated in chunk order and skipping empty ones, are exactly the window |
| Audio.AudioStorage.PieceExtends | backend/source/whispercore_main.py:492-496 | what chunk `i` returns continues the window exactly where the pieces of the chunks before it stop |
| Audio.AudioStorage.GetAudioRangeMillis | backend/source/whispercore_main.py:501-506 | the millisecond query is the seconds query on `ms/1000`, with `-1` kept as "end of buffer" |
| Audio.AudioStorage.TotalDurationMillis | backend/source/whispercore_main.py:508-515 | the total in milliseconds is the sample count times 1000 divided by the rate, rounded down |
| Audio.AudioStorage.Reset | backend/source/whispercore_main.py:525-529 | no chunks, no samples, zero duration, invariant kept |
| Audio.AudioStorage.ChunksContiguous | backend/source/whispercore_main.py:449-473 | the first chunk starts at 0, each chunk starts where the previous ends, and the last ends at the total duration |
| Transcript.NextActivity | backend/source/whispercore_main.py:693-703 | the tracker is kept exactly when its recorded text equals the last phrase and is non-empty; otherwise it becomes `(now, last phrase)` |
| Transcript.ShiftAll | backend/source/whispercore_main.py:687-691 | the shifted answer has one segment per recognizer segment, each moved by the offset and stripped, in the same order |
| Transcript.ShiftProperties | backend/source/whispercore_main.py:688-691 | shifting moves both ends by the offset, keeps the segment's length and leaves its text stripped |
| Transcript.Merge | backend/source/whispercore_main.py:705-722 | the merged history is one entry shorter than history plus answer. It keeps the entries before the tail. The tail takes the first segment and keeps its timestamp only when the stripped texts agree. Every other segment follows in order, stamped `now` |
| Transcript.Advance | backend/source/whispercore_main.py:682-722 | an empty answer leaves history and tracker unchanged. A non-empty one grows the history by `len(results)-1` and keeps the entries before the tail. The tracker then records the stripped last phrase |
| Transcript.NextWindowStart | backend/source/whispercore_main.py:664-666 | after a cycle, the next window starts at 0 when the history has one entry and otherwise at the shifted `t0` of the last segment of the answer |
| Transcript.AdvanceHistory | backend/source/whispercore_main.py:705-722 | on a non-empty answer, the history grows by `len(results)-1` and the entries before the tail are unchanged. The tail takes the first shifted segment and is re-stamped only if its stripped text changed. The other segments follow in order, stamped `now` |
| Transcript.AdvanceActivity | backend/source/whispercore_main.py:693-703 | the tracker then records the last phrase. It is left exactly as it was when it already held that phrase and the phrase is non-empty. Otherwise it becomes `(now, last phrase)` |
| Transcript.FreshActivity | backend/source/whispercore_main.py:821-837 | right after the last phrase changes, `has_new_phrases(timeout)` holds exactly for positive timeouts |
| Transcript.AdvanceTrimmed | backend/source/whispercore_main.py:688-722 | if every text in the history is stripped before a cycle, every text in it is stripped after the cycle |
| Transcript.RepeatedPhraseGoesQuiet | backend/source/whispercore_main.py:693-722 | when the same non-empty single phrase comes back twice, the second cycle keeps the tail's timestamp and the tracker, so `has_new_phrases` fails once `timeout` has passed |
| Engine.ShiftResults | backend/source/whispercore_main.py:687-691 | the loop yields every segment moved by the offset and stripped, in order (`ShiftAll`) |
| Engine.MergeResults | backend/source/whispercore_main.py:705-722 | the merge loop yields `Merge`, whose properties are `AdvanceHistory` |
| Engine.WhisperCore.constructor | backend/source/whispercore_main.py:614-633 | empty history, tracker `(now, None)` |
| Engine.WhisperCore.UpdateStream | backend/source/whispercore_main.py:638-722 | An empty history is seeded with the placeholder stamped `now`. The window starts at 0 with at most one entry, and at the tail's `t0` with more. The clip is the window up to the end of the stored samples. An empty clip leaves the seeded history and the tracker. Otherwise the fields become exactly `Advance` of the recognizer's answer |
| Engine.WhisperCore.ProcessClip | backend/source/whispercore_main.py:670-722 | after the fetch: an empty clip or answer changes nothing; otherwise shift, tracker update and merge give `Advance` |
| Engine.WhisperCore.ResetStream | backend/source/whispercore_main.py:786-806 | history and storage are emptied and the tracker becomes `(now, None)` |
| Engine.WhisperCore.HasNewPhrases | backend/source/whispercore_main.py:821-837 | true exactly when `now - lastTime < timeout` |
| Microphone.AsyncMicrophone.constructor | backend/source/whispercore_main.py:89 | the queue starts empty |
| Microphone.AsyncMicrophone.Put | backend/source/whispercore_main.py:202-204 | a frame joins the back of the queue |
| Microphone.AsyncMicrophone.Get | backend/source/whispercore_main.py:353-354 | the front frame leaves the queue |
| Microphone.AsyncMicrophone.GetAudioData | backend/source/whispercore_main.py:347-356 | the drain returns every queued frame in FIFO order and leaves the queue empty |
| Microphone.AsyncMicrophone.ClearAudioData | backend/source/whispercore_main.py:358-362 | the queue ends empty |
| Messages.NewMessage | backend/models/message.py:17-36 | a string of at most 16392 characters is accepted and stored unchanged. A longer one raises `ValueError` with its length. A value with no length raises `TypeError`. The id is kept, and a falsy date becomes `now` |
| Messages.ToDict | backend/models/message.py:38-40 | exactly the keys `id`, `date`, `message`, holding the fields |
| Messages.ShortTextAccepted | backend/models/message.py:31-36 | any text up to the limit is accepted unchanged, whatever the date and id |
| Messages.Defaults | backend/models/message.py:28-29 | without id and date, the id is `None` and the date is the clock reading |
| Messages.FromDict | backend/models/message.py:42-47 | a dictionary is accepted exactly when its `message` is a string within the limit. A missing or non-string `message` raises `TypeError`. The text and `id` are taken from it, with `None` for a missing `id`, and a missing or falsy `date` becomes `now` |
| Messages.RoundTrip | backend/models/message.py:38-47 | `from_dict(to_dict(m))` gives back `m` for every message the constructor can build |
| Messages.FromDictRejectsLong | backend/models/message.py:42-47 | `from_dict` re-runs the length check: an over-long text raises `ValueError` |
| Messages.ConstructRoundTrip | backend/models/message.py:42-47 | constructing, then converting to a dictionary and back, gives the constructed message whatever the second clock reading |

## Left out

- `AsyncMicrophone.run`, the constructor's device setup and `stop`: PortAudio device I/O, WAV and ffmpeg reading, the wake-word detector, pacing sleeps and the thread lifecycle. Only the queue those loops feed is modelled.
- Float conversion of samples (`/ 32768.0`) and channel averaging: samples are opaque values.
- `transcribe_audio` / `transcribe_file`: calls into the whisper model. The recognizer is a parameter that already answers in milliseconds, so the fixed ×10 scaling of its timestamps is not modelled.
- `WhisperCoreSave`, `get_save`, `restore_save`, and `reset_stream(save=True)`: pickling to a file and swapping references. Only `reset_stream` without a save is modelled.
- `run_whisper_core`: an orchestration loop over threads, toggles, sleeps and process exit. Only the size and duration statistics of each drained batch (`BatchStats`) are modelled.
- Locks and concurrency: every operation is modelled as atomic.
- `AudioConfig.get_config_from_wav`: reads a WAV header from a file.
- `MessageRepository`: Postgres I/O.
- `AudioChunk.get_samples` and `__len__`, `AudioStorage.get_total_duration_seconds`: plain field reads (`samples`, `numSamples`, `totalDuration`).
- Engine.WhisperCore.UpdateStream: `time.time()` is called several times in one cycle in the source. The model uses one clock reading `now` for all of them.
- Floating point: times and durations are exact reals. Rounding is not modelled in the float sums of `_total_duration` (whispercore_main.py:473), in the chunk start and end times, or in the `int(...)` index and millisecond conversions (whispercore_main.py:413-414, :515 and :519). In binary64 these conversions can lose a sample or a millisecond:
  - `1001 / 1000.0 * 1000` is `1000.9999999999999`, so `int` gives 1000. Likewise `16016 / 16000 * 1000` truncates to 1000, not 1001.
  - Ten 1600-sample frames at 16 kHz sum `_total_duration` to `0.9999999999999999`. `int(0.9999999999999999 * 16000)` is 15999, so `get_audio_range_seconds(0)` returns 15999 of the 16000 samples.
  - With the engine's 4096-sample frames and ten-second chunks, after 44 frames the same query returns 180223 of 180224 samples. From then on the clip `update_stream` passes to the recognizer can miss trailing samples.

  Timebase.MillisRoundTrip, Timebase.SecsToMillisIsDivision, Audio.AudioStorage.TotalDurationMillis, Audio.AlignedSlice, Audio.WholeWindow, Audio.WindowsStitch, Audio.TwoChunkQuery, Audio.AudioStorage.GetAudioRangeSeconds, Audio.AudioStorage.CollectPieces, Audio.AudioStorage.PieceExtends, Audio.AudioStorage.GetAudioRangeMillis and Engine.WhisperCore.UpdateStream therefore hold of the real-number model only.
- BatchStats.BatchTimeScaled: stated for any channel count, but only its mono case describes the program. With more than one channel both capture paths (whispercore_main.py:196-200 and :269-279) queue a single scalar per frame, so `len(x)` at line 985 raises and the statistic is never computed. BatchStats.BatchTimeMono states the mono case.
- Audio.AudioStorage.Valid: the invariant requires only the last chunk to be distinct from the others, which is all that appending to it needs. Aliasing among earlier chunks is not excluded.
- Audio.AudioStorage.GetAudioRangeMillis: an `end_ms` of exactly `-1000` becomes `-1.0` seconds and so also means "end of buffer". The model keeps this behaviour of the source and states it through `WindowOf`; no separate lemma states it.
- Messages.NewMessage: dictionary and argument values are limited to `None`, integers, strings and datetimes. Other Python types, and strings whose `len` counts something other than code points, are not modelled.

## Findings

| source | as written | input that shows it | evidently intended | confidence | as-written member | corrected member |
|---|---|---|---|---|---|---|
| backend/source/whispercore_main.py:985-986 | `_audio_time = _audio_size / mic.get_bytes_per_second()`, where `_audio_size` sums the lengths of the queued float arrays, one element per mono sample | one drained second of the engine's 16 kHz mono paInt16 audio: 16000 samples over 32000 bytes per second | the sample count over the sample rate, 1.0 s; for every mono batch the statistic is off by a factor of the sample size | high, not executed | BatchStats.BatchTimeHalved | BatchStats.BatchSecondsIsAppendedDuration |
