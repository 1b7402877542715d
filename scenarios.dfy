/** Concrete runs of the lifecycle: one per defect of the source as written,
    each beside the same run of the corrected operation, and a default
    session from start through 100 clean callbacks to stop. */
module Scenarios {
  import opened WireStats
  import opened RateSelection
  import opened Lifecycle
  import WireCallback

  /** A backend on which every call succeeds and every candidate rate is
      supported, except for the answers the scenario overrides. */
  function Healthy(): Backend {
    Backend(true, true, 0, 1, _ => true, true, true)
  }

  /** `Pa_Initialize` fails right after the context was allocated: the
      source returns the error without freeing it. */
  method InitFailureLeaksContext() returns (err: Result<Handle, StartError>, live: nat)
    ensures err == Err(InitFailure)
    ensures live == 1
  {
    var c := new Controller();
    err := c.StartPlayback(Healthy().(initializes := false));
    live := |c.contexts.Keys|;
  }

  method CorrectedInitFailureFreesContext() returns (err: Result<Handle, StartError>, live: nat)
    ensures err == Err(InitFailure)
    ensures live == 0
  {
    var c := new Controller();
    err := c.StartPlaybackCorrected(Healthy().(initializes := false));
    live := |c.contexts.Keys|;
  }

  /** `Pa_StartStream` fails: the source frees the context but never closes
      the stream it opened, which stays open bound to the freed handle. */
  method StartFailureLeavesStreamOpen() returns (err: Result<Handle, StartError>, open: nat, live: nat)
    ensures err == Err(StartFailed)
    ensures open == 1 && live == 0
  {
    var c := new Controller();
    err := c.StartPlayback(Healthy().(starts := false));
    open := |c.streams.Keys|;
    live := |c.contexts.Keys|;
  }

  method CorrectedStartFailureClosesStream() returns (err: Result<Handle, StartError>, open: nat, live: nat)
    ensures err == Err(StartFailed)
    ensures open == 0 && live == 0
  {
    var c := new Controller();
    assert Healthy().supported(SampleRateAttempts[0]);
    err := c.StartPlaybackCorrected(Healthy().(starts := false));
    open := |c.streams.Keys|;
    live := |c.contexts.Keys|;
  }

  /** No candidate rate is supported: the source still opens and starts the
      stream, passing the uninitialised `actualSampleRate`. */
  method NoSupportedRateStillOpens() returns (r: Result<Handle, StartError>, rate: Option<int>)
    ensures r.Ok? && rate == None
  {
    var c := new Controller();
    var s := c.nextStream;
    r := c.StartPlayback(Healthy().(supported := _ => false));
    rate := c.streams[s].rate;
  }

  method CorrectedNoSupportedRateFails() returns (r: Result<Handle, StartError>, open: nat)
    ensures r == Err(UnsupportedFormat) && open == 0
  {
    var c := new Controller();
    r := c.StartPlaybackCorrected(Healthy().(supported := _ => false));
    open := |c.streams.Keys|;
  }

  /** A handle that was never returned by a start: the source casts it to a
      context pointer, closes and frees whatever it points to. */
  method UnknownHandleIsUndefined() returns (outcome: StopOutcome)
    ensures outcome == UndefinedAccess
  {
    var c := new Controller();
    outcome := c.StopPlayback(7, true, Zero);
  }

  method CorrectedUnknownHandleIsRejected() returns (outcome: StopOutcome, live: nat)
    ensures outcome == InvalidHandle && live == 0
  {
    var c := new Controller();
    outcome := c.StopPlaybackCorrected(7, true);
    live := |c.contexts.Keys|;
  }

  /** `count` callbacks with a clear status mask on one non-interleaved
      input and one non-interleaved output channel of 64 frames, the layout
      of the default configuration. Only the callback counter moves, and
      after the first callback every output frame is the input frame
      scaled by `gain`. */
  method CleanCallbacks(ctx: Context, inChannel: array<real>, outChannel: array<real>, count: nat, gain: real)
    requires ctx.config == DefaultConfig && ctx.stats == Zero
    requires inChannel.Length == 64 && outChannel.Length == 64 && inChannel != outChannel
    modifies ctx`stats, outChannel
    ensures ctx.stats == Counters(0, 0, 0, 0, 0, count)
    ensures count > 0 ==> forall i :: 0 <= i < 64 ==> outChannel[i] == inChannel[i] * gain
  {
    var input := WireCallback.NonInterleaved([inChannel]);
    var output := WireCallback.NonInterleaved([outChannel]);
    assert input.channels[0] == inChannel && output.channels[0] == outChannel;
    assert input.Objects() == {inChannel} && output.Objects() == {outChannel};

    var n := 0;
    while n < count
      invariant 0 <= n <= count
      invariant ctx.config == DefaultConfig
      invariant ctx.stats == RunCallbacks(Zero, seq(n, _ => 0 as StatusFlags))
      invariant n > 0 ==> forall i :: 0 <= i < 64 ==> outChannel[i] == inChannel[i] * gain
    {
      var result, passes := WireCallback.Callback(ctx, input, output, 64, 0, gain, (x: real, g: real) => x * g);
      assert forall i :: 0 <= i < 64 ==> output.At(1, 64, 0, i) == outChannel[i] && input.At(1, 64, 0, i) == inChannel[i];
      assert seq(n + 1, _ => 0 as StatusFlags)[..n] == seq(n, _ => 0 as StatusFlags);
      n := n + 1;
    }
    CleanRunCounts(count);
  }

  /** The default session: the start as written on devices that support
      every candidate rate, 100 clean callbacks, then the corrected stop,
      which reads the counters before freeing the context. The stream runs
      at 96000 Hz, the stop reports exactly 100 callbacks and every flag
      counter is still 0. */
  method DefaultSession() returns (rate: Option<int>, flags: Counters, outcome: StopOutcome)
    ensures rate == Some(96000)
    ensures flags == Counters(0, 0, 0, 0, 0, 100)
    ensures outcome == Stopped(100)
  {
    var c := new Controller();
    assert Healthy().supported(SampleRateAttempts[2]);
    var s := c.nextStream;
    var r := c.StartPlayback(Healthy());
    var h := r.value;
    var ctx := c.contexts[h];
    rate := c.streams[s].rate;

    var inChannel := new real[64](_ => 0.5);
    var outChannel := new real[64](_ => 0.0);
    CleanCallbacks(ctx, inChannel, outChannel, 100, 1.0);
    flags := ctx.stats;
    outcome := c.StopPlaybackCorrected(h, true);
  }

  /** The same session stopped as written: the counters are read after the
      context is freed. When the released block no longer holds them (here:
      it reads as all zero) the stop reports 0 callbacks although 100 ran. */
  method ReadAfterFreeMisreports() returns (ran: int, outcome: StopOutcome)
    ensures ran == 100 && outcome == Stopped(0)
  {
    var c := new Controller();
    var r := c.StartPlayback(Healthy());
    var h := r.value;
    var ctx := c.contexts[h];

    var inChannel := new real[64](_ => 0.5);
    var outChannel := new real[64](_ => 0.0);
    CleanCallbacks(ctx, inChannel, outChannel, 100, 1.0);
    ran := ctx.stats.callbacks;
    outcome := c.StopPlayback(h, true, Zero);
  }

  /** Start/stop cycles of the corrected operations, one per answer in
      `closes`, against any backend, on a fresh process: whatever each start
      and each close answers, no context stays allocated, since a stop frees
      its context exactly once even when the close fails. When every close
      succeeds no stream stays open or running either. */
  method RepeatedSessionsReleaseEverything(be: Backend, closes: seq<bool>) returns (live: nat, open: nat, active: nat)
    ensures live == 0
    ensures (forall k :: 0 <= k < |closes| ==> closes[k]) ==> open == 0 && active == 0
  {
    var c := new Controller();
    var n := 0;
    while n < |closes|
      invariant 0 <= n <= |closes|
      invariant c.Valid() && c.contexts == map[]
      invariant (forall k :: 0 <= k < n ==> closes[k]) ==> c.streams == map[] && c.running == {}
    {
      var r := c.StartPlaybackCorrected(be);
      if r.Ok? {
        var outcome := c.StopPlaybackCorrected(r.value, closes[n]);
      }
      n := n + 1;
    }
    live, open, active := |c.contexts.Keys|, |c.streams.Keys|, |c.running|;
  }
}
