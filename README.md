# pawire core in Dafny

pawire is a small Python extension that wires the default audio input to the
default audio output through PortAudio. It has three parts:

- **The real-time callback `wireCallback`.** It counts the PortAudio status
  flags of every buffer tick in the stream's statistics block. It then copies
  each input channel, converted and scaled by a global gain, to the output
  channels. Input and output channels advance in lockstep, and each side
  holds its last channel once it runs out.
- **`startPlayback`.** It allocates a stream context with the default
  configuration: one non-interleaved input channel, one non-interleaved output
  channel, 64 frames per callback. It initialises PortAudio, resolves the
  default devices and picks the highest supported rate from
  {44100, 48000, 96000}. It then opens and starts the stream and returns the
  context's address as an integer handle.
- **`stopPlayback`.** It closes the stream behind a handle, frees the context
  and reports the counters. On a failed close it reports the positive flag
  counters; otherwise it reports the callback count.

The project is organised as follows:

- `wire_stats.dfy` (module `WireStats`) holds the configuration, the status
  flags with their PortAudio masks, and the counters. It also holds the
  context, a class whose statistics the callback updates in place, and the
  flag report of a failed stop.
- `wire_callback.dfy` (module `WireCallback`) is the callback. Buffers are
  either one flat interleaved array or one array per channel. The copy is the
  source's nested loop with an advancing position and a stride. The callback
  is proved against an addressing view `At(n, f, c, i)` and against the
  hold-last-channel pass schedule.
- `rate_selection.dfy` (module `RateSelection`) is the descending rate probe,
  with its `break`.
- `lifecycle.dfy` (module `Lifecycle`) has a `Controller` class that keeps
  the process-wide resources:
  - the contexts that are allocated, indexed by handle;
  - the streams that are open, and those that are running;
  - the count of successful `Pa_Initialize` calls.

  `StartPlayback` and `StopPlayback` model the source as written, defects
  included. `StartPlaybackCorrected` and `StopPlaybackCorrected` model the
  behaviour the code evidently intends.
- `scenarios.dfy` (module `Scenarios`) has concrete runs:
  - one per defect, each next to the same run of the corrected operation;
  - the default session of 100 clean callbacks;
  - repeated start/stop cycles that leak nothing.

Every PortAudio answer is an input to the model, gathered in
`Lifecycle.Backend`: allocation, initialisation, the default devices, format
support per rate, open and start. The close result is a parameter of the stop.
The sample types are type parameters. The conversion `CONVERT_IN_TO_OUT` is a
function parameter that takes the sample and the scaler `gInOutScaler`.

In four places the code falls short of what it evidently intends.
`StartPlayback` and `StopPlayback` follow the code; the corrected operations
follow the intent:

- A failed start should release everything it acquired. The code leaks the
  context when `Pa_Initialize` fails, and leaks the opened stream when
  `Pa_StartStream` fails.
- A start for which no candidate rate is supported should fail with an
  unsupported-format error. The code has no such error: it opens the stream
  anyway.
- Stopping an integer that names no live context should fail with an
  invalid-handle error and release nothing. The code dereferences the handle.
- A stop should report the counters of the context it stops. The code reads
  them after freeing the context.

These gaps are listed under "## Findings".

## Model

| member | source | states |
|---|---|---|
| WireStats.CountFlags | _pawire.c:147-153 | Each of the five status bits that is set in the mask adds exactly one to its own counter. A clear bit leaves its counter unchanged. The callback counter always grows by one. |
| WireStats.RunCallbacksCounts | _pawire.c:147-153 | After a run of callbacks, each flag counter has grown by the number of masks in the run that carry that flag. The callback counter has grown by the length of the run. |
| WireStats.CleanRunCounts | _pawire.c:147-153 | From zeroed counters, n callbacks with a clear mask leave every flag counter at 0 and the callback counter at n. |
| WireStats.FlagReport | _pawire.c:342-349 | The report after a failed close has one entry per flag whose counter is positive, and only those flags. Each entry carries that counter's value. Entries follow the source's test order, and the callback counter is never listed. |
| WireCallback.CountStatus | _pawire.c:147-153 | The five independent tests and the unconditional increment, applied in place to the context's counters, equal `CountFlags` of the old counters. |
| WireCallback.Store | _pawire.c:182 | Writing through the output pointer changes exactly the addressed frame of the addressed channel. For an interleaved buffer that is flat index c + i*n. Every other sample stays unchanged. |
| WireCallback.CopyPass | _pawire.c:158-185 | One pass copies frames 0..framesPerBuffer-1 of the selected output channel from the selected input channel through the conversion. It uses stride n for an interleaved buffer and stride 1 for a per-channel array. Every other channel, and every position beyond the frames, is unchanged. |
| WireCallback.SourceChannelIsLastWrite | _pawire.c:155-156 | Under the hold-last-channel schedule, every output channel is written by some pass below max(a, b). The last pass that writes channel c reads input channel `SourceChannel(a, b, c)`: c itself, capped at a-1, except that the last output channel ends with the last input channel. |
| WireCallback.Callback | _pawire.c:127-193 | A null input returns 0 and changes no counter and no output sample. Otherwise the counters become `CountFlags` of the old ones, and the loop makes exactly max(a, b) passes. Pass k uses channels (min(k, a-1), min(k, b-1)). Each output frame ends as the converted input frame of `SourceChannel`, positions beyond the frames are unchanged, and the result is always 0. |
| RateSelection.SelectSampleRate | _pawire.c:290-298 | Candidates are probed from index 2 down to 0, stopping at the first supported rate. The chosen rate is the highest supported candidate, and only a listed, supported rate is chosen. `None` is returned exactly when no candidate is supported, after all three were probed. |
| Lifecycle.Controller.StartPlayback | _pawire.c:211-322 | As written, the first failing call decides the error, in call order. Each successful `Pa_Initialize` is counted. Device, open and start failures free the context. An init failure leaves the fresh context allocated under the new handle, with every other handle keeping its context. A start failure leaves the stream open. On success there is one fresh context with the default configuration and zeroed counters, bound to one new running stream of 64 frames per buffer at the highest supported rate. |
| Lifecycle.Controller.StartPlaybackCorrected | _pawire.c:211-322 | Each successful `Pa_Initialize` is counted, as in `StartPlayback`. Every failure leaves contexts, streams and running streams exactly as they were. That includes init failure, start failure, and a rate search that finds nothing. Success is as in `StartPlayback`, with a definite rate. |
| Lifecycle.Controller.StopPlayback | _pawire.c:324-356 | As written, a live handle has its context removed exactly once whatever the close answered. Its stream is closed only when the close succeeds. The report is built from the counters read after the free. Any other integer is undefined access. |
| Lifecycle.Controller.StopPlaybackCorrected | _pawire.c:324-356 | An unknown handle gives `InvalidHandle` and releases nothing. A live handle is released as above, and the report is built from the live context's counters. |
| Scenarios.InitFailureLeaksContext | _pawire.c:237-240 | A failed `Pa_Initialize` returns the init error with one context still allocated. |
| Scenarios.CorrectedInitFailureFreesContext | _pawire.c:237-240 | The same failure in the corrected start leaves no context allocated. |
| Scenarios.StartFailureLeavesStreamOpen | _pawire.c:314-317 | A failed `Pa_StartStream` frees the context but leaves one stream open. |
| Scenarios.CorrectedStartFailureClosesStream | _pawire.c:314-317 | The same failure in the corrected start leaves no stream open and no context allocated. |
| Scenarios.NoSupportedRateStillOpens | _pawire.c:290-308 | With no supported candidate, the start as written succeeds and the stream was opened without a determined rate. |
| Scenarios.CorrectedNoSupportedRateFails | _pawire.c:290-308 | The corrected start reports the unsupported format and opens nothing. |
| Scenarios.UnknownHandleIsUndefined | _pawire.c:335-340 | Stopping an integer that was never returned by a start is undefined access in the source. |
| Scenarios.CorrectedUnknownHandleIsRejected | _pawire.c:335-340 | The corrected stop rejects that integer with `InvalidHandle` and releases nothing. |
| Scenarios.ReadAfterFreeMisreports | _pawire.c:339-354 | 100 callbacks ran, but the stop as written reports 0 when the freed block no longer holds the counters. |
| Scenarios.CleanCallbacks | _pawire.c:127-193 | On the default layout, n callbacks with a clear mask leave every flag counter at 0 and the callback counter at n. After the first callback every output frame is the input frame scaled by the gain. |
| Scenarios.DefaultSession | _pawire.c:211-356 | The start as written, on devices that support every candidate, runs at 96000 Hz. After 100 clean callbacks the counters are all 0 except the callback count. The corrected stop, which reads the counters before the free, reports exactly 100 callbacks when the close succeeds. |
| Scenarios.RepeatedSessionsReleaseEverything | _pawire.c:211-356 | For any backend and any sequence of close answers, one start/stop cycle per answer, the corrected operations leave no context allocated, even when closes fail. When every close succeeds, no stream is left open or running either. |

## Left out

- The Python glue (`makeException`, argument parsing, handle boxing, the module table) is outside the model, and so is `pawire.py`. These are foreign runtime calls with no logic of their own. Python errors appear as `StartError` values and their messages.
- Diagnostic printing (`describeDevices`, `enumerateAPIs`, `enumerate`, every `printf`) is not modelled. It is I/O only. The report a stop prints appears as its `StopOutcome` value.
- Device discovery (`getApiInfo`, `getInputDevice`, `getOutputDevice`) is replaced by the device index it yields, a backend input that may be `paNoDevice` (-1). The undefined behaviour inside those helpers is not modelled:
  - the missing return in `getApiInfo`;
  - the name passed as a device index in `getOutputDevice`;
  - the dereference of `Pa_GetDeviceInfo(result.idx)` in both helpers (_pawire.c:104-105, 117). It happens before the `paNoDevice` checks at _pawire.c:262 and 277, and PortAudio returns NULL for that index. So as written, a missing default device is a NULL dereference. The `NoInputDevice` and `NoOutputDevice` errors of `StartPlayback` and `StartFailure` model the checks the code evidently intends, not what it does.
- All PortAudio calls are backend inputs, and so is the WASAPI stream-info setup. `portaudio.h` is not part of this model. The status-flag masks (0x1, 0x2, 0x4, 0x8, 0x10) and `paNoDevice` (-1) are the values PortAudio defines.
- Floating-point arithmetic is not modelled: the conversion `(OUTPUT_SAMPLE)(in * gInOutScaler)` is an arbitrary function parameter, and the scaler is a `real`. The scenarios instantiate it with real multiplication.
- Concurrency between the audio thread and the controlling thread is out of scope. Callbacks run only when a test scenario calls them, and they are not tied to the running set.
- WireStats.CountFlags: the counters are unbounded integers. The C `int` counters overflow, which is undefined behaviour, after 2^31 - 1 increments.
- WireCallback.Callback: `framesPerBuffer` is a `nat`. The source's `unsigned int` frame index would wrap and never terminate for more than 2^32 - 1 frames, which PortAudio never passes.
- WireCallback.Callback requires, whenever the input is non-null, a non-null output buffer sized for the configured channels and frames. The source dereferences the output unconditionally. Two further guarantees of PortAudio's duplex buffers are also preconditions: input and output storage never overlap, and each output channel is its own array.
- The model passes the context itself as the callback's user data. The source passes `&ctx->config`, which is the same address because the configuration is the struct's first member.
- Lifecycle.Controller.StartPlayback: handles are numbered by a counter rather than being heap addresses. So the reuse of a freed address by a later `malloc`, which makes a stale handle alias a new context, is not modelled.
- Lifecycle.Controller.StopPlayback: for an integer that is not a live handle, the contract promises nothing beyond `UndefinedAccess`. The source reads, closes and frees arbitrary memory there.
- `Pa_Terminate` is never called by the source. The model only counts successful initialisations.
- A failed close leaves the stream in the open set. PortAudio's own state after a failed `Pa_CloseStream` is not modelled.

## Findings

| source | as written | input that shows it | evidently intended | confidence | as-written member | corrected member |
|---|---|---|---|---|---|---|
| _pawire.c:237-240 | returns the init error without freeing the context just allocated | `Pa_Initialize` fails | the context is freed before the error is raised | high; not executed | Scenarios.InitFailureLeaksContext | Lifecycle.Controller.StartPlaybackCorrected |
| _pawire.c:314-317 | frees the context but never closes the stream it opened | `Pa_StartStream` fails after a successful open | the stream is closed before the context is freed | high; not executed | Scenarios.StartFailureLeavesStreamOpen | Lifecycle.Controller.StartPlaybackCorrected |
| _pawire.c:290-308 | opens the stream with `actualSampleRate` uninitialised | no candidate rate is supported | the start fails with an unsupported-format error | high; not executed | Scenarios.NoSupportedRateStillOpens | Lifecycle.Controller.StartPlaybackCorrected |
| _pawire.c:335-340 | casts any integer to a context pointer, then closes and frees through it | `stop_playback(7)` | unknown handles are rejected and nothing is released | high; not executed | Scenarios.UnknownHandleIsUndefined | Lifecycle.Controller.StopPlaybackCorrected |
| _pawire.c:339-354 | reads the counters through the context pointer after `free(ctx)` | a stop after 100 callbacks whose freed block reads as zero | the counters are read before the context is freed | high for the use after free; the all-zero read is one possible outcome of undefined behaviour; not executed | Scenarios.ReadAfterFreeMisreports | Lifecycle.Controller.StopPlaybackCorrected |
