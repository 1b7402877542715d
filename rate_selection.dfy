/** The sample-rate fallback inside `startPlayback`: probe a fixed table of
    candidate rates from the last entry down and keep the first one the
    backend accepts for the input/output parameter pair. */
module RateSelection {

  datatype Option<T> = None | Some(value: T)

  /** `sampleRateAttemps`, in ascending order. */
  const SampleRateAttempts: seq<int> := [44100, 48000, 96000]

  /** `rate` is the highest candidate the backend supports, or `None`
      exactly when it supports none of them. `supported` stands for
      `Pa_IsFormatSupported(&inputParameters, &outputParameters, r) ==
      paFormatIsSupported` with the two parameter sets fixed. */
  ghost predicate HighestSupported(supported: int -> bool, rate: Option<int>) {
    match rate
    case None => forall j :: 0 <= j < |SampleRateAttempts| ==> !supported(SampleRateAttempts[j])
    case Some(r) =>
      && r in SampleRateAttempts
      && supported(r)
      && forall j :: 0 <= j < |SampleRateAttempts| && supported(SampleRateAttempts[j]) ==> SampleRateAttempts[j] <= r
  }

  /** The loop `for (i = 2; i >= 0; --i)` with its `break`. `tried` lists the
      rates probed, in probing order: the table read backwards, stopping at
      the first supported rate. `rate` is `None` where the source leaves
      `actualSampleRate` uninitialised. */
  method SelectSampleRate(supported: int -> bool) returns (rate: Option<int>, tried: seq<int>)
    ensures HighestSupported(supported, rate)
    ensures 1 <= |tried| <= |SampleRateAttempts|
    ensures forall k :: 0 <= k < |tried| ==> tried[k] == SampleRateAttempts[|SampleRateAttempts| - 1 - k]
    ensures forall k :: 0 <= k < |tried| - 1 ==> !supported(tried[k])
    ensures rate.Some? ==> rate.value == tried[|tried| - 1]
    ensures rate.None? ==> |tried| == |SampleRateAttempts|
  {
    rate := None;
    tried := [];
    var i := 2;
    while i >= 0
      invariant -1 <= i <= 2
      invariant |tried| == 2 - i
      invariant forall k :: 0 <= k < |tried| ==> tried[k] == SampleRateAttempts[2 - k] && !supported(tried[k])
      invariant forall j :: i < j < |SampleRateAttempts| ==> !supported(SampleRateAttempts[j])
      invariant rate == None
    {
      tried := tried + [SampleRateAttempts[i]];
      if supported(SampleRateAttempts[i]) {
        rate := Some(SampleRateAttempts[i]);
        break;
      }
      i := i - 1;
    }
  }
}
