/**
 * `arrayDelta`: turns a series of cumulative-counter samples into
 * per-second rates. The accessor `f` of the source is applied up front,
 * so a sample here is the pair (`ElapsedMS`, `f(sample)`).
 */
module Rates {
  datatype Sample = Sample(elapsedMS: int, counter: int)

  /**
   * The JavaScript number one rate step yields: `NaN`, `+Infinity`
   * (a positive delta over a zero time difference) or a finite value,
   * computed here in exact real arithmetic.
   */
  datatype Rate = NaN | Infinity | Finite(perSecond: real)

  /** The rate between two consecutive samples (the loop body of `arrayDelta`). */
  function RateBetween(prev: Sample, curr: Sample): (r: Rate)
    // a finite rate exactly when the counter did not go backwards and time moved forward
    ensures r.Finite? <==> curr.counter >= prev.counter && curr.elapsedMS > prev.elapsedMS
    // a counter reset or time going backwards gives NaN, whatever the other difference
    ensures curr.counter < prev.counter || curr.elapsedMS < prev.elapsedMS ==> r == NaN
    // the unguarded zero time difference: Infinity for growth, NaN (0 * Infinity) otherwise
    ensures curr.elapsedMS == prev.elapsedMS && curr.counter >= prev.counter ==>
              r == (if curr.counter > prev.counter then Infinity else NaN)
    // a finite rate times the interval gives back the counter delta, in bytes per 1000 ms
    ensures r.Finite? ==>
              r.perSecond >= 0.0 &&
              r.perSecond * (curr.elapsedMS - prev.elapsedMS) as real
                == (curr.counter - prev.counter) as real * 1000.0
  {
    var delta := curr.counter - prev.counter;
    var timediff := curr.elapsedMS - prev.elapsedMS;
    if delta < 0 || timediff < 0 then NaN
    else if timediff == 0 then (if delta > 0 then Infinity else NaN)
    else
      var scale := 1000.0 / timediff as real;
      assert scale * timediff as real == 1000.0;
      Finite(delta as real * scale)
  }

  /**
   * The rate series of `samples`: `NaN` first, then one rate per
   * consecutive pair. An empty input still yields `[NaN]`.
   */
  function Deltas(samples: seq<Sample>): (r: seq<Rate>)
    ensures |r| == if |samples| == 0 then 1 else |samples|
    ensures r[0] == NaN
    ensures forall i :: 0 < i < |samples| ==> r[i] == RateBetween(samples[i - 1], samples[i])
  {
    if |samples| <= 1 then [NaN]
    else
      var n := |samples|;
      Deltas(samples[..n - 1]) + [RateBetween(samples[n - 2], samples[n - 1])]
  }

  /** `arrayDelta(f)(array)`, building the result with `push` as the source does. */
  method ArrayDelta(samples: seq<Sample>) returns (r: seq<Rate>)
    ensures r == Deltas(samples)
  {
    r := [NaN];
    var i := 1;
    while i < |samples|
      invariant 1 <= i <= if |samples| == 0 then 1 else |samples|
      invariant |r| == i && r[0] == NaN
      invariant forall j :: 0 < j < i ==> r[j] == RateBetween(samples[j - 1], samples[j])
    {
      var prev := samples[i - 1];
      var curr := samples[i];
      r := r + [RateBetween(prev, curr)];
      i := i + 1;
    }
    var spec := Deltas(samples);
    assert |r| == |spec| && r[0] == spec[0];
    forall j | 0 < j < |r| ensures r[j] == spec[j] {
      assert j < |samples|;
      assert r[j] == RateBetween(samples[j - 1], samples[j]);
      assert spec[j] == RateBetween(samples[j - 1], samples[j]);
    }
  }

  /** Counters never decrease and time strictly increases between consecutive samples. */
  ghost predicate WellOrdered(samples: seq<Sample>)
  {
    forall i :: 0 < i < |samples| ==>
      samples[i - 1].counter <= samples[i].counter && samples[i - 1].elapsedMS < samples[i].elapsedMS
  }

  /** The bytes a rate series accounts for: the sum of rate times interval over its finite entries. */
  ghost function Transferred(samples: seq<Sample>, rates: seq<Rate>): real
    requires |rates| == |samples| > 0
  {
    var n := |samples|;
    if n == 1 then 0.0
    else
      var step := match rates[n - 1]
        case Finite(v) => v * (samples[n - 1].elapsedMS - samples[n - 2].elapsedMS) as real / 1000.0
        case _ => 0.0;
      Transferred(samples[..n - 1], rates[..n - 1]) + step
  }

  /**
   * For a well-ordered series every rate after the first is finite and
   * integrating the rates over time gives back exactly the counter's growth.
   */
  lemma {:induction false} DeltasIntegrate(samples: seq<Sample>)
    requires |samples| > 0 && WellOrdered(samples)
    ensures forall i :: 0 < i < |samples| ==> Deltas(samples)[i].Finite?
    ensures Transferred(samples, Deltas(samples))
              == (samples[|samples| - 1].counter - samples[0].counter) as real
  {
    var n := |samples|;
    if n > 1 {
      var front := samples[..n - 1];
      assert WellOrdered(front) by {
        forall i | 0 < i < |front| ensures front[i - 1].counter <= front[i].counter {
          assert front[i - 1] == samples[i - 1] && front[i] == samples[i];
        }
      }
      DeltasIntegrate(front);
      var r := Deltas(samples);
      assert r == Deltas(front) + [RateBetween(samples[n - 2], samples[n - 1])];
      assert r[..n - 1] == Deltas(front);
      StepTransferred(samples[n - 2], samples[n - 1]);
    }
  }

  /** One finite step accounts for exactly the counter's growth over it. */
  lemma StepTransferred(prev: Sample, curr: Sample)
    requires prev.counter <= curr.counter && prev.elapsedMS < curr.elapsedMS
    ensures RateBetween(prev, curr).Finite?
    ensures RateBetween(prev, curr).perSecond * (curr.elapsedMS - prev.elapsedMS) as real / 1000.0
              == (curr.counter - prev.counter) as real
  {
  }

  /** Samples `(t=0, c=100), (t=1000, c=40)`: a counter reset, so both rates are NaN. */
  lemma CounterResetExample()
    ensures Deltas([Sample(0, 100), Sample(1000, 40)]) == [NaN, NaN]
  {
  }

  /** Samples `(t=1000, c=10), (t=500, c=20)`: time went backwards, so the second rate is NaN. */
  lemma ClockSkewExample()
    ensures Deltas([Sample(1000, 10), Sample(500, 20)])[1] == NaN
  {
  }
}
