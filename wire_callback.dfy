/** The real-time loopback callback `wireCallback`: it counts the status
    flags of every buffer tick and copies each selected input channel,
    converted, to the selected output channel, walking both channel lists in
    lockstep and holding the last channel of the side that runs out first. */
module WireCallback {
  import opened WireStats

  function Min(x: int, y: int): int { if x <= y then x else y }
  function Max(x: int, y: int): int { if x >= y then x else y }

  /** Flat position of frame `i` of channel `c` in an interleaved buffer of
      `n` channels. */
  function Slot(c: int, i: int, n: int): int { c + i * n }

  lemma MulMonotone(x: int, y: int, n: int)
    requires 0 <= x <= y && 0 <= n
    ensures x * n <= y * n
  {
  }

  /** Advancing a pointer by the stride moves it to the next frame. */
  lemma SlotStep(c: int, i: int, n: int)
    ensures Slot(c, i + 1, n) == Slot(c, i, n) + n
  {
  }

  lemma SlotInRange(c: int, i: int, n: int, f: int)
    requires 0 <= c < n && 0 <= i < f
    ensures 0 <= Slot(c, i, n) < f * n
  {
    MulMonotone(i + 1, f, n);
  }

  /** Different (channel, frame) pairs of an interleaved buffer never share
      a position. */
  lemma SlotsDistinct(c: int, i: int, d: int, j: int, n: int)
    requires 0 <= c < n && 0 <= d < n && 0 <= i && 0 <= j
    requires c != d || i != j
    ensures Slot(c, i, n) != Slot(d, j, n)
  {
    if i < j {
      MulMonotone(i + 1, j, n);
    } else if j < i {
      MulMonotone(j + 1, i, n);
    }
  }

  /** The buffer pointer PortAudio hands to the callback: null, one flat
      interleaved array, or one array per channel. */
  datatype Buffer<T> = Null | Interleaved(samples: array<T>) | NonInterleaved(channels: seq<array<T>>)
  {
    function Objects(): set<object> {
      match this
      case Null => {}
      case Interleaved(s) => {s}
      case NonInterleaved(cs) => set c | 0 <= c < |cs| :: cs[c]
    }

    /** The buffer holds `f` frames of each of `n` channels. */
    ghost predicate Fits(n: int, f: nat) {
      && 1 <= n
      && match this
         case Null => false
         case Interleaved(s) => f * n <= s.Length
         case NonInterleaved(cs) => |cs| == n && forall c :: 0 <= c < n ==> f <= cs[c].Length
    }

    /** No two channels of a non-interleaved buffer share an array. */
    ghost predicate Separate() {
      NonInterleaved? ==> forall c, d :: 0 <= c < d < |channels| ==> channels[c] != channels[d]
    }

    /** Frame `i` of channel `c`: `samples[c + i*n]` when interleaved,
        `channels[c][i]` otherwise. */
    ghost function At(n: int, f: nat, c: int, i: int): T
      reads Objects()
      requires Fits(n, f) && 0 <= c < n && 0 <= i < f
    {
      match this
      case Interleaved(s) => SlotInRange(c, i, n, f); s[Slot(c, i, n)]
      case NonInterleaved(cs) => cs[c][i]
    }
  }

  /** Every array position that lies outside the `f` frames of the `n`
      channels kept its value. */
  twostate predicate OutsideFramesUnchanged<T>(buf: Buffer<T>, n: int, f: nat)
    reads buf.Objects()
    requires buf.Fits(n, f)
  {
    match buf
    case Null => true
    case Interleaved(s) => s[f * n..] == old(s[f * n..])
    case NonInterleaved(cs) => forall c :: 0 <= c < n ==> cs[c][f..] == old(cs[c][f..])
  }

  /** What the stream was opened with: both buffers have the channel counts
      and layouts of `config` and `frames` frames, the output channels are
      separate arrays, and output storage never overlaps input storage. */
  ghost predicate BuffersMatch<I, O>(config: WireConfig, input: Buffer<I>, output: Buffer<O>, frames: nat) {
    && input.Fits(config.numInputChannels, frames)
    && input.Interleaved? == config.isInputInterleaved
    && output.Fits(config.numOutputChannels, frames)
    && output.Interleaved? == config.isOutputInterleaved
    && output.Separate()
    && input.Objects() !! output.Objects()
  }

  /** The input channel that output channel `c` finally holds after the
      `p` first passes, for a channel `c < p` that has been written. */
  function WrittenFrom(a: int, b: int, p: int, c: int): int {
    if c < b - 1 then Min(c, a - 1) else Min(p - 1, a - 1)
  }

  /** The input channel that output channel `c` holds when the callback
      returns: the same-numbered channel, except that the last output
      channel ends with the last input channel. */
  function SourceChannel(a: int, b: int, c: int): int {
    if c < b - 1 then Min(c, a - 1) else a - 1
  }

  /** The (input, output) channels of pass `k`: each side advances with the
      pass number and then stays on its last channel. */
  function PassChannels(a: int, b: int, k: int): (int, int) {
    (Min(k, a - 1), Min(k, b - 1))
  }

  /** Hold-last-channel: the pass schedule (pass `k` copies input channel
      min(k, a-1) to output channel min(k, b-1), for k < max(a, b)) writes
      every output channel, and the last pass that writes channel `c` reads
      input channel `SourceChannel(a, b, c)`. */
  lemma SourceChannelIsLastWrite(a: int, b: int, c: int) returns (k: int)
    requires 1 <= a && 1 <= b && 0 <= c < b
    ensures 0 <= k < Max(a, b)
    ensures PassChannels(a, b, k) == (SourceChannel(a, b, c), c)
    ensures forall k' :: k < k' < Max(a, b) ==> PassChannels(a, b, k').1 != c
  {
    k := if c < b - 1 then c else Max(a, b) - 1;
  }

  /** One pass of the inner `for` loop: `frames` samples of input channel
      `inChannel`, converted, to output channel `outChannel`, each side
      addressed by a base position and a stride (channel offset and channel
      count when interleaved, 0 and 1 in the channel's own array otherwise). */
  method CopyPass<I, O>(input: Buffer<I>, output: Buffer<O>, a: int, b: int, frames: nat,
                        inChannel: int, outChannel: int, scaler: real, convert: (I, real) -> O)
    requires input.Fits(a, frames) && output.Fits(b, frames) && output.Separate()
    requires input.Objects() !! output.Objects()
    requires 0 <= inChannel < a && 0 <= outChannel < b
    modifies output.Objects()
    ensures forall c, i :: 0 <= c < b && 0 <= i < frames ==>
      output.At(b, frames, c, i) ==
        if c == outChannel then convert(input.At(a, frames, inChannel, i), scaler)
        else old(output.At(b, frames, c, i))
    ensures OutsideFramesUnchanged(output, b, frames)
  {
    var inArray: array<I>, inPos: int, inStride: int;
    if input.Interleaved? {
      inArray, inPos, inStride := input.samples, inChannel, a;
    } else {
      inArray, inPos, inStride := input.channels[inChannel], 0, 1;
    }
    var outArray: array<O>, outPos: int, outStride: int;
    if output.Interleaved? {
      outArray, outPos, outStride := output.samples, outChannel, b;
    } else {
      outArray, outPos, outStride := output.channels[outChannel], 0, 1;
    }

    for i := 0 to frames
      invariant inPos == if input.Interleaved? then Slot(inChannel, i, a) else i
      invariant outPos == if output.Interleaved? then Slot(outChannel, i, b) else i
      invariant forall c, k :: 0 <= c < b && 0 <= k < frames ==>
        output.At(b, frames, c, k) ==
          if c == outChannel && k < i then convert(input.At(a, frames, inChannel, k), scaler)
          else old(output.At(b, frames, c, k))
      invariant OutsideFramesUnchanged(output, b, frames)
    {
      if input.Interleaved? {
        SlotInRange(inChannel, i, a, frames);
      }
      assert inArray[inPos] == input.At(a, frames, inChannel, i);
      Store(output, b, frames, outArray, outPos, outChannel, i, convert(inArray[inPos], scaler));
      SlotStep(inChannel, i, a);
      SlotStep(outChannel, i, b);
      inPos := inPos + inStride;
      outPos := outPos + outStride;
    }
  }

  /** `*out = v` where `out` points at frame `i` of channel `c`: that
      sample changes and no other. */
  method Store<O>(output: Buffer<O>, n: int, f: nat, arr: array<O>, pos: int, ghost c: int, ghost i: int, v: O)
    requires output.Fits(n, f) && output.Separate() && 0 <= c < n && 0 <= i < f
    requires output.Interleaved? ==> arr == output.samples && pos == Slot(c, i, n)
    requires output.NonInterleaved? ==> arr == output.channels[c] && pos == i
    modifies arr
    ensures forall d, k :: 0 <= d < n && 0 <= k < f ==>
      output.At(n, f, d, k) == if d == c && k == i then v else old(output.At(n, f, d, k))
    ensures OutsideFramesUnchanged(output, n, f)
  {
    if output.Interleaved? {
      SlotInRange(c, i, n, f);
      forall d, k | 0 <= d < n && 0 <= k < f && (d != c || k != i)
        ensures Slot(d, k, n) != Slot(c, i, n)
      {
        SlotsDistinct(d, k, c, i, n);
      }
    }
    arr[pos] := v;
  }

  /** `wireCallback`. With a null input it returns at once. Otherwise it
      counts the status flags and makes max(a, b) copy passes over the `a`
      input and `b` output channels of the context's configuration. It
      always returns 0 (`paContinue`). */
  method Callback<I, O>(ctx: Context, input: Buffer<I>, output: Buffer<O>, framesPerBuffer: nat,
                        statusFlags: StatusFlags, scaler: real, convert: (I, real) -> O)
    returns (result: int, ghost passes: seq<(int, int)>)
    requires !input.Null? ==> BuffersMatch(ctx.config, input, output, framesPerBuffer)
    modifies ctx`stats, output.Objects()
    ensures result == 0
    ensures input.Null? ==> ctx.stats == old(ctx.stats) && unchanged(output.Objects()) && passes == []
    ensures !input.Null? ==> ctx.stats == CountFlags(old(ctx.stats), statusFlags)
    ensures !input.Null? ==>
      var a, b := ctx.config.numInputChannels, ctx.config.numOutputChannels;
      && |passes| == Max(a, b)
      && (forall k :: 0 <= k < |passes| ==> passes[k] == PassChannels(a, b, k))
      && (forall c, i :: 0 <= c < b && 0 <= i < framesPerBuffer ==>
            output.At(b, framesPerBuffer, c, i)
            == convert(input.At(a, framesPerBuffer, SourceChannel(a, b, c), i), scaler))
      && OutsideFramesUnchanged(output, b, framesPerBuffer)
  {
    result := 0;
    passes := [];
    if input.Null? {
      return;
    }

    CountStatus(ctx, statusFlags);

    var a, b := ctx.config.numInputChannels, ctx.config.numOutputChannels;
    var inChannel, outChannel := 0, 0;
    var inDone, outDone := false, false;
    while !(inDone && outDone)
      invariant |passes| <= Max(a, b)
      invariant forall k :: 0 <= k < |passes| ==> passes[k] == PassChannels(a, b, k)
      invariant inChannel == Min(|passes|, a - 1) && outChannel == Min(|passes|, b - 1)
      invariant inDone <==> |passes| >= a
      invariant outDone <==> |passes| >= b
      invariant ctx.stats == CountFlags(old(ctx.stats), statusFlags)
      invariant forall c, i :: 0 <= c < b && 0 <= i < framesPerBuffer ==>
        output.At(b, framesPerBuffer, c, i) ==
          if c < |passes| then convert(input.At(a, framesPerBuffer, WrittenFrom(a, b, |passes|, c), i), scaler)
          else old(output.At(b, framesPerBuffer, c, i))
      invariant OutsideFramesUnchanged(output, b, framesPerBuffer)
      decreases Max(a, b) - |passes|
    {
      ghost var p := |passes|;
      label BeforePass:
      CopyPass(input, output, a, b, framesPerBuffer, inChannel, outChannel, scaler, convert);
      forall c, i | 0 <= c < b && 0 <= i < framesPerBuffer
        ensures output.At(b, framesPerBuffer, c, i) ==
          if c < p + 1 then convert(input.At(a, framesPerBuffer, WrittenFrom(a, b, p + 1, c), i), scaler)
          else old(output.At(b, framesPerBuffer, c, i))
      {
        assert input.At(a, framesPerBuffer, WrittenFrom(a, b, p + 1, c), i)
            == old@BeforePass(input.At(a, framesPerBuffer, WrittenFrom(a, b, p + 1, c), i));
        if c != outChannel {
          assert output.At(b, framesPerBuffer, c, i) == old@BeforePass(output.At(b, framesPerBuffer, c, i));
          assert c < p ==> WrittenFrom(a, b, p + 1, c) == WrittenFrom(a, b, p, c);
        }
      }
      passes := passes + [(inChannel, outChannel)];
      if inChannel < a - 1 {
        inChannel := inChannel + 1;
      } else {
        inDone := true;
      }
      if outChannel < b - 1 {
        outChannel := outChannel + 1;
      } else {
        outDone := true;
      }
    }
  }

  /** The five independent status-bit tests and the unconditional callback
      count at the head of `wireCallback`. */
  method CountStatus(ctx: Context, statusFlags: StatusFlags)
    modifies ctx`stats
    ensures ctx.stats == CountFlags(old(ctx.stats), statusFlags)
  {
    ghost var s0 := ctx.stats;
    if InputUnderflow.IsSetIn(statusFlags) {
      ctx.stats := ctx.stats.(inputUnderflows := ctx.stats.inputUnderflows + 1);
    }
    if InputOverflow.IsSetIn(statusFlags) {
      ctx.stats := ctx.stats.(inputOverflows := ctx.stats.inputOverflows + 1);
    }
    if OutputUnderflow.IsSetIn(statusFlags) {
      ctx.stats := ctx.stats.(outputUnderflows := ctx.stats.outputUnderflows + 1);
    }
    if OutputOverflow.IsSetIn(statusFlags) {
      ctx.stats := ctx.stats.(outputOverflows := ctx.stats.outputOverflows + 1);
    }
    if PrimingOutput.IsSetIn(statusFlags) {
      ctx.stats := ctx.stats.(primingOutputs := ctx.stats.primingOutputs + 1);
    }
    ctx.stats := ctx.stats.(callbacks := ctx.stats.callbacks + 1);
    assert ctx.stats == Counters(
      Bump(s0.inputUnderflows, InputUnderflow.IsSetIn(statusFlags)),
      Bump(s0.inputOverflows, InputOverflow.IsSetIn(statusFlags)),
      Bump(s0.outputUnderflows, OutputUnderflow.IsSetIn(statusFlags)),
      Bump(s0.outputOverflows, OutputOverflow.IsSetIn(statusFlags)),
      Bump(s0.primingOutputs, PrimingOutput.IsSetIn(statusFlags)),
      s0.callbacks + 1);
  }
}
