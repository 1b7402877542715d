/** The per-stream context: its configuration, its statistics block and
    the PortAudio status flags that the real-time callback counts. */
module WireStats {

  /** `struct WireConfig_s`: the layout the callback assumes for its buffers. */
  datatype WireConfig = WireConfig(
    isInputInterleaved: bool,
    isOutputInterleaved: bool,
    numInputChannels: int,
    numOutputChannels: int,
    framesPerCallback: int)

  /** The configuration `startPlayback` writes into every new context. */
  const DefaultConfig := WireConfig(false, false, 1, 1, 64)

  /** `PaStreamCallbackFlags`, an `unsigned long` bit mask. */
  type StatusFlags = bv64

  /** The five status bits the callback tests, in the order it tests them. */
  datatype Flag = InputUnderflow | InputOverflow | OutputUnderflow | OutputOverflow | PrimingOutput
  {
    /** The PortAudio mask of this flag (paInputUnderflow = 0x1 ... paPrimingOutput = 0x10). */
    function Mask(): StatusFlags {
      match this
      case InputUnderflow => 0x01
      case InputOverflow => 0x02
      case OutputUnderflow => 0x04
      case OutputOverflow => 0x08
      case PrimingOutput => 0x10
    }

    predicate IsSetIn(flags: StatusFlags) {
      flags & Mask() != 0
    }

    /** Position of the flag in the report printed on a failed close. */
    function Rank(): nat {
      match this
      case InputUnderflow => 0
      case InputOverflow => 1
      case OutputUnderflow => 2
      case OutputOverflow => 3
      case PrimingOutput => 4
    }
  }

  /** `pawireStats`: the six counters, kept by value inside a context. */
  datatype Counters = Counters(
    inputUnderflows: int,
    inputOverflows: int,
    outputUnderflows: int,
    outputOverflows: int,
    primingOutputs: int,
    callbacks: int)
  {
    /** The counter that belongs to one status flag. */
    function Count(f: Flag): int {
      match f
      case InputUnderflow => inputUnderflows
      case InputOverflow => inputOverflows
      case OutputUnderflow => outputUnderflows
      case OutputOverflow => outputOverflows
      case PrimingOutput => primingOutputs
    }
  }

  const Zero := Counters(0, 0, 0, 0, 0, 0)

  function Bump(n: int, flagged: bool): int {
    if flagged then n + 1 else n
  }

  /** What one callback with a non-null input does to the counters: every
      status bit that is set adds one to its own counter, independently of
      the others, and the callback counter always goes up by one. */
  function CountFlags(s: Counters, flags: StatusFlags): (r: Counters)
    ensures r.callbacks == s.callbacks + 1
    ensures forall f: Flag :: f.IsSetIn(flags) ==> r.Count(f) == s.Count(f) + 1
    ensures forall f: Flag :: !f.IsSetIn(flags) ==> r.Count(f) == s.Count(f)
  {
    Counters(
      Bump(s.inputUnderflows, InputUnderflow.IsSetIn(flags)),
      Bump(s.inputOverflows, InputOverflow.IsSetIn(flags)),
      Bump(s.outputUnderflows, OutputUnderflow.IsSetIn(flags)),
      Bump(s.outputOverflows, OutputOverflow.IsSetIn(flags)),
      Bump(s.primingOutputs, PrimingOutput.IsSetIn(flags)),
      s.callbacks + 1)
  }

  /** The counters after a run of callbacks, all with non-null input, whose
      status masks are `history`, oldest first. */
  function RunCallbacks(s: Counters, history: seq<StatusFlags>): Counters
  {
    if history == [] then s
    else CountFlags(RunCallbacks(s, history[..|history| - 1]), history[|history| - 1])
  }

  /** How many masks of `history` have flag `f` set. */
  function Occurrences(history: seq<StatusFlags>, f: Flag): nat
  {
    if history == [] then 0
    else Occurrences(history[..|history| - 1], f) + (if f.IsSetIn(history[|history| - 1]) then 1 else 0)
  }

  /** After a run of callbacks each flag counter has grown by the number of
      callbacks that reported that flag, and the callback counter by the
      length of the run. */
  lemma {:induction false} RunCallbacksCounts(s: Counters, history: seq<StatusFlags>)
    ensures RunCallbacks(s, history).callbacks == s.callbacks + |history|
    ensures forall f: Flag :: RunCallbacks(s, history).Count(f) == s.Count(f) + Occurrences(history, f)
  {
    if history != [] {
      RunCallbacksCounts(s, history[..|history| - 1]);
    }
  }

  /** Fresh counters after `n` callbacks with a clear status mask: only the
      callback counter has moved, and it equals `n`. */
  lemma {:induction false} CleanRunCounts(n: nat)
    ensures RunCallbacks(Zero, seq(n, _ => 0 as StatusFlags)) == Counters(0, 0, 0, 0, 0, n)
  {
    var history := seq(n, _ => 0 as StatusFlags);
    RunCallbacksCounts(Zero, history);
    forall f: Flag ensures Occurrences(history, f) == 0 {
      NoOccurrenceInClearRun(n, f);
    }
    var r := RunCallbacks(Zero, history);
    assert r.Count(InputUnderflow) == 0 && r.Count(InputOverflow) == 0;
    assert r.Count(OutputUnderflow) == 0 && r.Count(OutputOverflow) == 0;
    assert r.Count(PrimingOutput) == 0;
  }

  lemma {:induction false} NoOccurrenceInClearRun(n: nat, f: Flag)
    ensures Occurrences(seq(n, _ => 0 as StatusFlags), f) == 0
  {
    if n > 0 {
      var history := seq(n, _ => 0 as StatusFlags);
      assert history[..n - 1] == seq(n - 1, _ => 0 as StatusFlags);
      NoOccurrenceInClearRun(n - 1, f);
    }
  }

  /** An opaque `PaStream*`. */
  type StreamId = nat

  /** `pawireExportedContext`: what `startPlayback` allocates and hands to
      the caller as an integer handle. The statistics block is embedded by
      value, as in the C struct, so the callback updates it in place. */
  class Context {
    var config: WireConfig
    var stream: StreamId
    var stats: Counters

    /** `malloc`: the contents are indeterminate until assigned. */
    constructor Allocate()
    {
      config := *;
      stream := *;
      stats := *;
    }
  }

  /** The flags in the order `stopPlayback` tests them. */
  const ReportOrder: seq<Flag> := [InputUnderflow, InputOverflow, OutputUnderflow, OutputOverflow, PrimingOutput]

  /** The lines `stopPlayback` prints after a failed close: one entry per
      flag counter that is positive, in the order the source tests them.
      The callback counter is never part of it. */
  function FlagReport(c: Counters): (r: seq<(Flag, int)>)
    ensures forall k :: 0 <= k < |r| ==> r[k].1 == c.Count(r[k].0) && r[k].1 > 0
    ensures forall f: Flag :: c.Count(f) > 0 <==> (f, c.Count(f)) in r
    ensures forall j, k :: 0 <= j < k < |r| ==> r[j].0.Rank() < r[k].0.Rank()
  {
    var r := ReportFrom(c, ReportOrder);
    assert forall f: Flag :: f in ReportOrder by {
      forall f: Flag ensures f in ReportOrder {
        assert ReportOrder[f.Rank()] == f;
      }
    }
    r
  }

  /** The report lines for the flags `fs`, tested in that order. */
  function ReportFrom(c: Counters, fs: seq<Flag>): (r: seq<(Flag, int)>)
    ensures forall k :: 0 <= k < |r| ==> r[k].0 in fs && r[k].1 == c.Count(r[k].0) && r[k].1 > 0
    ensures forall f :: f in fs && c.Count(f) > 0 ==> (f, c.Count(f)) in r
    ensures RankIncreasing(fs) ==> forall j, k :: 0 <= j < k < |r| ==> r[j].0.Rank() < r[k].0.Rank()
  {
    if fs == [] then []
    else
      var line := if c.Count(fs[0]) > 0 then [(fs[0], c.Count(fs[0]))] else [];
      line + ReportFrom(c, fs[1..])
  }

  predicate RankIncreasing(fs: seq<Flag>) {
    forall j, k :: 0 <= j < k < |fs| ==> fs[j].Rank() < fs[k].Rank()
  }
}
