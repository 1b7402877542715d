/** The start/stop lifecycle of `startPlayback` and `stopPlayback`. The
    process-wide resources they touch are modelled explicitly: the heap of
    allocated contexts (indexed by the integer handle the caller holds), the
    PortAudio streams that are open and those that are running, and the
    number of successful `Pa_Initialize` calls. Every PortAudio answer is an
    input, gathered in a `Backend`. */
module Lifecycle {
  import opened WireStats
  import opened RateSelection
  import WireCallback

  /** The integer a caller holds for a context (its address in the source). */
  type Handle = nat

  /** `paNoDevice`. */
  const NoDevice: int := -1

  /** The answers of the calls `startPlayback` makes, in call order. */
  datatype Backend = Backend(
    allocates: bool,              // malloc returns a non-null context
    initializes: bool,            // Pa_Initialize() == paNoError
    inputDevice: int,             // default input device of the host API, or paNoDevice
    outputDevice: int,            // default output device of the host API, or paNoDevice
    supported: int -> bool,       // Pa_IsFormatSupported(...) == paFormatIsSupported, per rate
    opens: bool,                  // Pa_OpenStream(...) == paNoError
    starts: bool)                 // Pa_StartStream(...) == paNoError

  datatype StartError =
    | AllocationFailure
    | InitFailure
    | NoInputDevice
    | NoOutputDevice
    | UnsupportedFormat
    | OpenFailed
    | StartFailed
  {
    /** The text of the `RuntimeError` raised to the caller. */
    function Message(): string {
      match this
      case AllocationFailure => "Memory allocation failure."
      case InitFailure => "Failed to initialize portAudio."
      case NoInputDevice => "Error: No default input device."
      case NoOutputDevice => "Error: No default output device."
      case UnsupportedFormat => "No candidate sample rate is supported."
      case OpenFailed => "Failed to open portaudio stream."
      case StartFailed => "Failed to start portaudio stream."
    }
  }

  datatype Result<T, E> = Ok(value: T) | Err(error: E)

  /** A PortAudio stream: the rate it was opened at (`None` when no
      candidate rate was supported and the rate passed was indeterminate),
      its frames per buffer and the context its callback receives. */
  datatype StreamInfo = StreamInfo(rate: Option<int>, framesPerBuffer: int, userData: Handle)

  /** What `stopPlayback` does for the caller. */
  datatype StopOutcome =
    | Stopped(callbacks: int)                   // prints the callback count, returns None
    | CloseFailed(report: seq<(Flag, int)>)     // prints the positive flag counters, raises
    | InvalidHandle                             // the handle names no live context
    | UndefinedAccess                           // the source dereferences and frees a non-context

  const StopFailureMessage := "Failed to stop portaudio stream."

  /** What the caller of a stop sees for counters `stats`: the callback
      count when the close succeeded, the positive flag counters otherwise. */
  function StopReport(closes: bool, stats: Counters): StopOutcome {
    if closes then Stopped(stats.callbacks) else CloseFailed(FlagReport(stats))
  }

  /** The first check of `startPlayback` that fails, as written. */
  function StartFailure(be: Backend): Option<StartError> {
    if !be.allocates then Some(AllocationFailure)
    else if !be.initializes then Some(InitFailure)
    else if be.inputDevice == NoDevice then Some(NoInputDevice)
    else if be.outputDevice == NoDevice then Some(NoOutputDevice)
    else if !be.opens then Some(OpenFailed)
    else if !be.starts then Some(StartFailed)
    else None
  }

  /** The same with a failed rate search reported before the stream is opened. */
  function CorrectedStartFailure(be: Backend): Option<StartError> {
    if !be.allocates then Some(AllocationFailure)
    else if !be.initializes then Some(InitFailure)
    else if be.inputDevice == NoDevice then Some(NoInputDevice)
    else if be.outputDevice == NoDevice then Some(NoOutputDevice)
    else if NoRateSupported(be.supported) then Some(UnsupportedFormat)
    else if !be.opens then Some(OpenFailed)
    else if !be.starts then Some(StartFailed)
    else None
  }

  predicate NoRateSupported(supported: int -> bool) {
    forall j :: 0 <= j < |SampleRateAttempts| ==> !supported(SampleRateAttempts[j])
  }

  /** Freeing a block just allocated under a fresh key restores the heap. */
  lemma FreeUndoesAllocate<K, V>(m: map<K, V>, k: K, v: V)
    requires k !in m
    ensures m[k := v] - {k} == m
  {
  }

  class Controller {
    /** Contexts allocated and not yet freed. */
    var contexts: map<Handle, Context>
    /** Streams opened and not yet closed. */
    var streams: map<StreamId, StreamInfo>
    /** Streams started and not yet closed. */
    var running: set<StreamId>
    /** Successful `Pa_Initialize` calls (the source never terminates). */
    var initCount: nat
    var nextHandle: Handle
    var nextStream: StreamId

    ghost predicate Valid()
      reads this
    {
      && (forall h :: h in contexts ==> h < nextHandle)
      && (forall s :: s in streams ==> s < nextStream)
      && running <= streams.Keys
    }

    constructor ()
      ensures Valid()
      ensures contexts == map[] && streams == map[] && running == {} && initCount == 0
    {
      contexts, streams, running := map[], map[], {};
      initCount, nextHandle, nextStream := 0, 0, 0;
    }

    /** The state a successful start leaves: one fresh context under the
        new handle, zeroed statistics and the default configuration, bound
        to one new running stream opened at the highest supported rate. */
    twostate predicate StartedFresh(be: Backend, h: Handle)
      reads this, contexts.Values
    {
      && h == old(nextHandle)
      && h !in old(contexts)
      && h in contexts
      && contexts == old(contexts)[h := contexts[h]]
      && fresh(contexts[h])
      && contexts[h].config == DefaultConfig
      && contexts[h].stats == Zero
      && contexts[h].stream == old(nextStream)
      && OpenedOne(be, h)
      && running == old(running) + {old(nextStream)}
    }

    /** Exactly one stream was added to the open streams, bound to `h`,
        with 64 frames per buffer, at the highest supported rate. */
    twostate predicate OpenedOne(be: Backend, h: Handle)
      reads this
    {
      && old(nextStream) !in old(streams)
      && old(nextStream) in streams
      && streams == old(streams)[old(nextStream) := streams[old(nextStream)]]
      && streams[old(nextStream)].userData == h
      && streams[old(nextStream)].framesPerBuffer == DefaultConfig.framesPerCallback
      && HighestSupported(be.supported, streams[old(nextStream)].rate)
    }

    /** `startPlayback` as written. Its failures are reported in call order;
        a failed `Pa_Initialize` leaves the context allocated, and a failed
        `Pa_StartStream` leaves the opened stream open. With no supported
        rate the stream is still opened, at an indeterminate rate. */
    method StartPlayback(be: Backend) returns (r: Result<Handle, StartError>)
      requires Valid()
      modifies this
      ensures Valid()
      ensures r.Err? <==> StartFailure(be).Some?
      ensures r.Err? ==> r.error == StartFailure(be).value
      ensures initCount == old(initCount) + (if be.allocates && be.initializes then 1 else 0)
      ensures r == Err(InitFailure) ==>
        && old(nextHandle) !in old(contexts)
        && old(nextHandle) in contexts
        && contexts == old(contexts)[old(nextHandle) := contexts[old(nextHandle)]]
        && fresh(contexts[old(nextHandle)])
        && streams == old(streams) && running == old(running)
      ensures r == Err(StartFailed) ==>
        contexts == old(contexts) && running == old(running) && OpenedOne(be, old(nextHandle))
      ensures r.Err? && r.error != InitFailure && r.error != StartFailed ==>
        contexts == old(contexts) && streams == old(streams) && running == old(running)
      ensures r.Ok? ==> StartedFresh(be, r.value)
    {
      if !be.allocates {
        return Err(AllocationFailure);
      }
      var ctx := new Context.Allocate();
      var h := nextHandle;
      FreeUndoesAllocate(contexts, h, ctx);
      contexts := contexts[h := ctx];
      nextHandle := nextHandle + 1;

      if !be.initializes {
        return Err(InitFailure);
      }
      initCount := initCount + 1;

      ctx.config := DefaultConfig;
      ctx.stats := Zero;

      if be.inputDevice == NoDevice {
        contexts := contexts - {h};
        return Err(NoInputDevice);
      }
      if be.outputDevice == NoDevice {
        contexts := contexts - {h};
        return Err(NoOutputDevice);
      }

      var rate, tried := SelectSampleRate(be.supported);

      if !be.opens {
        contexts := contexts - {h};
        return Err(OpenFailed);
      }
      var s := nextStream;
      nextStream := nextStream + 1;
      streams := streams[s := StreamInfo(rate, ctx.config.framesPerCallback, h)];

      if !be.starts {
        contexts := contexts - {h};
        return Err(StartFailed);
      }
      running := running + {s};
      ctx.stream := s;
      r := Ok(h);
    }

    /** `startPlayback` with the leaks closed: every failure leaves the
        contexts and the streams exactly as they were, and a failed rate
        search is an error instead of an open at an indeterminate rate. */
    method StartPlaybackCorrected(be: Backend) returns (r: Result<Handle, StartError>)
      requires Valid()
      modifies this
      ensures Valid()
      ensures r.Err? <==> CorrectedStartFailure(be).Some?
      ensures r.Err? ==> r.error == CorrectedStartFailure(be).value
      ensures initCount == old(initCount) + (if be.allocates && be.initializes then 1 else 0)
      ensures r.Err? ==> contexts == old(contexts) && streams == old(streams) && running == old(running)
      ensures r.Ok? ==> StartedFresh(be, r.value) && streams[old(nextStream)].rate.Some?
    {
      if !be.allocates {
        return Err(AllocationFailure);
      }
      var ctx := new Context.Allocate();
      var h := nextHandle;
      FreeUndoesAllocate(contexts, h, ctx);
      contexts := contexts[h := ctx];
      nextHandle := nextHandle + 1;

      if !be.initializes {
        contexts := contexts - {h};
        return Err(InitFailure);
      }
      initCount := initCount + 1;

      ctx.config := DefaultConfig;
      ctx.stats := Zero;

      if be.inputDevice == NoDevice {
        contexts := contexts - {h};
        return Err(NoInputDevice);
      }
      if be.outputDevice == NoDevice {
        contexts := contexts - {h};
        return Err(NoOutputDevice);
      }

      var rate, tried := SelectSampleRate(be.supported);
      if rate.None? {
        contexts := contexts - {h};
        return Err(UnsupportedFormat);
      }

      if !be.opens {
        contexts := contexts - {h};
        return Err(OpenFailed);
      }
      var s := nextStream;
      nextStream := nextStream + 1;
      FreeUndoesAllocate(streams, s, StreamInfo(rate, ctx.config.framesPerCallback, h));
      streams := streams[s := StreamInfo(rate, ctx.config.framesPerCallback, h)];

      if !be.starts {
        streams := streams - {s};
        contexts := contexts - {h};
        return Err(StartFailed);
      }
      running := running + {s};
      ctx.stream := s;
      r := Ok(h);
    }

    /** `stopPlayback` as written. For a live handle it closes the stream
        and frees the context exactly once whatever the close answered, and
        only then reads the counters through the freed pointer: what it
        reports is `afterFree`, whatever the released block holds by then.
        For any other integer the source reads, closes and frees memory
        that is not a context: nothing is promised. */
    method StopPlayback(h: Handle, closes: bool, afterFree: Counters) returns (outcome: StopOutcome)
      requires Valid()
      modifies this
      ensures Valid()
      ensures h !in old(contexts) ==> outcome == UndefinedAccess
      ensures h in old(contexts) ==> Released(h, closes) && outcome == StopReport(closes, afterFree)
    {
      if h !in contexts {
        return UndefinedAccess;
      }
      var ctx := contexts[h];
      var stream := ctx.stream;
      if closes {
        streams := streams - {stream};
        running := running - {stream};
      }
      contexts := contexts - {h};
      var stats := afterFree;
      if !closes {
        return CloseFailed(FlagReport(stats));
      }
      outcome := StopOutcome.Stopped(stats.callbacks);
    }

    /** `stopPlayback` with the handle checked first and the counters read
        before the context is freed, so the report is the live context's. */
    method StopPlaybackCorrected(h: Handle, closes: bool) returns (outcome: StopOutcome)
      requires Valid()
      modifies this
      ensures Valid()
      ensures h !in old(contexts) ==>
        outcome == InvalidHandle && contexts == old(contexts) && streams == old(streams) && running == old(running)
      ensures h in old(contexts) ==> Released(h, closes) && outcome == StopReport(closes, old(contexts[h].stats))
    {
      if h !in contexts {
        return InvalidHandle;
      }
      var ctx := contexts[h];
      var stream := ctx.stream;
      var stats := ctx.stats;
      if closes {
        streams := streams - {stream};
        running := running - {stream};
      }
      contexts := contexts - {h};
      if !closes {
        return CloseFailed(FlagReport(stats));
      }
      outcome := StopOutcome.Stopped(stats.callbacks);
    }

    /** What stopping live handle `h` does to the resources: the context is
        removed once, and its stream is closed when the close succeeds and
        kept (still open, now unreachable) when it fails. */
    twostate predicate Released(h: Handle, closes: bool)
      requires h in old(contexts)
      reads this
    {
      var stream := old(contexts[h].stream);
      && contexts == old(contexts) - {h}
      && initCount == old(initCount)
      && (closes ==> streams == old(streams) - {stream} && running == old(running) - {stream})
      && (!closes ==> streams == old(streams) && running == old(running))
    }
  }
}
