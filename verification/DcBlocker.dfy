/**
 The fixed-point DC blocker (esphome/components/voip_stack/audio_core_audio_utils.h): for which inputs its 32-bit
 arithmetic is defined over unbounded runs, and what the output can reach.
 */
module DcBlocker {
  type i16 = x: int | -0x8000 <= x < 0x8000

  predicate FitsInt32(x: int) {
    -0x8000_0000 <= x < 0x8000_0000
  }

  /** Previous input and output, with 16 fraction bits. */
  datatype Filter = Filter(input: int, output: int)

  const RESET := Filter(0, 0)

  /** `x >> n` on a signed value: rounds towards minus infinity, which is what `/` does here. */
  function Shift10(x: int): int {
    x / 1024
  }

  function Next(f: Filter, sample: i16): Filter {
    var input := sample * 0x1_0000;
    Filter(input, input - f.input + f.output - Shift10(f.output))
  }

  /** Every intermediate value of the step fits 32 bits; otherwise its C++ behaviour is undefined. */
  predicate Defined(f: Filter, sample: i16) {
    var input := sample * 0x1_0000;
    && FitsInt32(input) && FitsInt32(input - f.input) && FitsInt32(input - f.input + f.output)
    && FitsInt32(Next(f, sample).output)
  }

  class DcBlockerState {
    var prevInputQ16: int
    var prevOutputQ16: int

    function Value(): Filter
      reads this
    {
      Filter(prevInputQ16, prevOutputQ16)
    }

    constructor ()
      ensures Value() == RESET
    {
      prevInputQ16, prevOutputQ16 := 0, 0;
    }

    /** `process`. */
    method Process(sample: i16) returns (out: i16)
      requires Defined(Value(), sample)
      modifies this
      ensures Value() == Next(old(Value()), sample) && out == Value().output / 0x1_0000
    {
      var input := sample * 0x1_0000;
      var output := input - prevInputQ16 + prevOutputQ16 - Shift10(prevOutputQ16);
      prevInputQ16 := input;
      prevOutputQ16 := output;
      out := output / 0x1_0000;
    }
  }

  // ---------- Runs ----------

  function Run(samples: seq<i16>, n: nat): Filter
    requires n <= |samples|
  {
    if n == 0 then RESET else Next(Run(samples, n - 1), samples[n - 1])
  }

  /** The filter's implied estimate of the DC component. */
  function Estimate(f: Filter): int {
    f.input - f.output
  }

  predicate Within(x: int, lo: int, hi: int) {
    lo * 0x1_0000 <= x <= hi * 0x1_0000
  }

  /** The samples and 0 lie in `[lo, hi]`. */
  predicate InRange(samples: seq<i16>, lo: int, hi: int) {
    lo <= 0 <= hi && forall i :: 0 <= i < |samples| ==> lo <= samples[i] <= hi
  }

  /** The estimate moves towards the previous input and never past it. */
  lemma EstimateApproaches(f: Filter, sample: i16)
    ensures Estimate(Next(f, sample)) == Estimate(f) + Shift10(f.input - Estimate(f))
    ensures f.input >= Estimate(f) ==> Estimate(f) <= Estimate(Next(f, sample)) <= f.input
    ensures f.input <= Estimate(f) ==> f.input <= Estimate(Next(f, sample)) <= Estimate(f)
  {
  }

  /** Over every run, the estimate stays between the smallest and the largest input so far, 0 included. */
  lemma {:induction false} EstimateStays(samples: seq<i16>, lo: int, hi: int, n: nat)
    requires n <= |samples| && InRange(samples, lo, hi)
    ensures Within(Run(samples, n).input, lo, hi) && Within(Estimate(Run(samples, n)), lo, hi)
  {
    if n > 0 {
      EstimateStays(samples, lo, hi, n - 1);
      EstimateApproaches(Run(samples, n - 1), samples[n - 1]);
    }
  }

  /** So the output never leaves the spread of the inputs: at most twice the peak for inputs of that magnitude. */
  lemma OutputBound(samples: seq<i16>, lo: int, hi: int, n: nat)
    requires n <= |samples| && InRange(samples, lo, hi)
    ensures -(hi - lo) * 0x1_0000 <= Run(samples, n).output <= (hi - lo) * 0x1_0000
    ensures forall peak: int :: -peak <= lo && hi <= peak ==> -2 * peak * 0x1_0000 <= Run(samples, n).output <= 2 * peak * 0x1_0000
  {
    EstimateStays(samples, lo, hi, n);
  }

  lemma NarrowRunsDefined(samples: seq<i16>, lo: int, hi: int, n: nat)
    requires n < |samples| && InRange(samples, lo, hi) && hi - lo <= 0x7FFF
    ensures Defined(Run(samples, n), samples[n])
  {
    EstimateStays(samples, lo, hi, n);
    EstimateStays(samples, lo, hi, n + 1);
  }

  ghost predicate AlwaysDefined(lo: int, hi: int) {
    forall samples: seq<i16>, n: nat :: n < |samples| && InRange(samples, lo, hi) ==> Defined(Run(samples, n), samples[n])
  }

  /**
   No run over samples in `[lo, hi]` overflows exactly when the range, 0 included, spans at most 32767. In particular
   magnitudes up to 16383 are safe, and 16384 of both signs are not.
   */
  lemma DefinedIff(lo: i16, hi: i16)
    requires lo <= 0 <= hi
    ensures AlwaysDefined(lo, hi) <==> hi - lo <= 0x7FFF
  {
    if hi - lo <= 0x7FFF {
      forall samples: seq<i16>, n: nat | n < |samples| && InRange(samples, lo, hi)
        ensures Defined(Run(samples, n), samples[n])
      {
        NarrowRunsDefined(samples, lo, hi, n);
      }
    } else {
      var samples: seq<i16> := [lo, hi];
      assert Run(samples, 1).input == lo * 0x1_0000;
      assert InRange(samples, lo, hi) && !Defined(Run(samples, 1), samples[1]);
    }
  }
}
