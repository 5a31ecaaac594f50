/** The sample averager: fifty raw ADC reads of one channel reduced to their integer mean. */
module Sampling {
  import opened Config

  /** Sum of the readings, folded from the last one. */
  function Sum(s: seq<int>): int
  {
    if |s| == 0 then 0 else Sum(s[..|s| - 1]) + s[|s| - 1]
  }

  predicate AllWithin(s: seq<int>, lo: int, hi: int)
  {
    forall i :: 0 <= i < |s| ==> lo <= s[i] <= hi
  }

  /** Integer division as C performs it: the quotient is truncated toward zero. */
  function TruncDiv(a: int, b: int): (q: int)
    requires b > 0
    ensures 0 <= a ==> 0 <= q && q * b <= a < q * b + b
    ensures a < 0 ==> q <= 0 && q * b - b < a <= q * b
  {
    if a >= 0 then a / b else -((-a) / b)
  }

  /** Every reading within [lo, hi] bounds the sum by |s| copies of each bound. */
  lemma {:induction false} SumWithin(s: seq<int>, lo: int, hi: int)
    ensures AllWithin(s, lo, hi) ==> |s| * lo <= Sum(s) <= |s| * hi
  {
    if |s| > 0 && AllWithin(s, lo, hi) {
      var init := s[..|s| - 1];
      assert AllWithin(init, lo, hi) by {
        forall i | 0 <= i < |init| ensures lo <= init[i] <= hi {
          assert init[i] == s[i];
        }
      }
      SumWithin(init, lo, hi);
      assert s == init + [s[|s| - 1]];
      MulSucc(|init|, lo);
      MulSucc(|init|, hi);
    }
  }

  lemma MulSucc(n: nat, x: int)
    ensures (n + 1) * x == n * x + x
  {
  }

  /** The mean one call of averageADC returns for the given fifty reads. */
  function AverageOf(samples: seq<int>): (avg: int)
    requires |samples| == NumReadings
    ensures 0 <= Sum(samples) ==> avg * NumReadings <= Sum(samples) < avg * NumReadings + NumReadings
    ensures AllWithin(samples, 0, Resolution) ==> 0 <= avg <= Resolution
  {
    SumWithin(samples, 0, Resolution);
    TruncDiv(Sum(samples), NumReadings)
  }

  /** averageADC itself: accumulate the reads in a running sum, then divide by their count. */
  method AverageADC(samples: seq<int>) returns (avg: int)
    requires |samples| == NumReadings
    ensures avg == AverageOf(samples)
  {
    var sum := 0;
    var i := 0;
    while i < NumReadings
      invariant 0 <= i <= NumReadings
      invariant sum == Sum(samples[..i])
    {
      assert samples[..i + 1][..i] == samples[..i];
      sum := sum + samples[i];
      i := i + 1;
    }
    assert samples[..NumReadings] == samples;
    avg := TruncDiv(sum, NumReadings);
  }

  /** Fifty reads of a 16-bit int cannot overflow the 32-bit long accumulator, and their
      mean fits back into the 16-bit int result; so unbounded integers model both exactly. */
  lemma AverageFitsSourceTypes(samples: seq<int>)
    requires |samples| == NumReadings
    requires AllWithin(samples, -32768, 32767)
    ensures -0x8000_0000 <= Sum(samples) < 0x8000_0000
    ensures -32768 <= AverageOf(samples) <= 32767
  {
    SumWithin(samples, -32768, 32767);
  }
}
