/** Arithmetic shared by every sketch that averages raw ADC counts: the sum,
    the mean, the smallest and largest read, and the counts-to-volts scale of
    the 12-bit converter against its 3.3 V reference. */
module Adc {

  /** Full-scale count of the 12-bit converter. */
  const MAX_COUNT: int := 4095
  /** Reference voltage of the converter. */
  const V_REF: real := 3.3
  /** Volts per count, the `3.3 / 4095.0` factor of every sketch. */
  const VOLTS_PER_COUNT: real := V_REF / MAX_COUNT as real
  /** Largest value of a 32-bit signed `long`, the accumulator type. */
  const LONG_MAX: int := 0x7FFF_FFFF

  /** Sum of the reads, accumulated front to back as the sampling loops do. */
  function Sum(s: seq<int>): int
  {
    if |s| == 0 then 0 else Sum(s[..|s| - 1]) + s[|s| - 1]
  }

  /** Arithmetic mean of a non-empty run of reads. */
  function Mean(s: seq<int>): (m: real)
    requires |s| > 0
    ensures m * |s| as real == Sum(s) as real
  {
    Sum(s) as real / |s| as real
  }

  function Min(s: seq<int>): (m: int)
    requires |s| > 0
    ensures m in s
    ensures forall i :: 0 <= i < |s| ==> m <= s[i]
  {
    if |s| == 1 then s[0]
    else
      var rest := Min(s[..|s| - 1]);
      assert rest in s[..|s| - 1];
      if s[|s| - 1] < rest then s[|s| - 1] else rest
  }

  function Max(s: seq<int>): (m: int)
    requires |s| > 0
    ensures m in s
    ensures forall i :: 0 <= i < |s| ==> s[i] <= m
  {
    if |s| == 1 then s[0]
    else
      var rest := Max(s[..|s| - 1]);
      assert rest in s[..|s| - 1];
      if s[|s| - 1] > rest then s[|s| - 1] else rest
  }

  /** Converts a (mean) count to volts. */
  function ToVolts(count: real): (v: real)
    ensures count == 0.0 ==> v == 0.0
    ensures count == MAX_COUNT as real ==> v == V_REF
  {
    count * VOLTS_PER_COUNT
  }

  /** More counts never read as fewer volts. */
  lemma ToVoltsMonotone(a: real, b: real)
    requires a <= b
    ensures ToVolts(a) <= ToVolts(b)
  {
  }

  /** Extending a prefix by one read adds that read to the sum: the step of
      every accumulating loop. */
  lemma SumSnoc(s: seq<int>, i: nat)
    requires i < |s|
    ensures Sum(s[..i + 1]) == Sum(s[..i]) + s[i]
  {
    assert s[..i + 1][..i] == s[..i];
  }

  /** If every read lies in [lo, hi], the sum lies in [n * lo, n * hi]. */
  lemma {:induction false} SumBounds(s: seq<int>, lo: int, hi: int)
    requires forall i :: 0 <= i < |s| ==> lo <= s[i] <= hi
    ensures |s| * lo <= Sum(s) <= |s| * hi
  {
    if |s| > 0 {
      var init := s[..|s| - 1];
      SumBounds(init, lo, hi);
      assert |s| * lo == |init| * lo + lo;
      assert |s| * hi == |init| * hi + hi;
    }
  }

  /** The mean of the reads lies between the smallest and the largest read. */
  lemma MeanWithinReads(s: seq<int>)
    requires |s| > 0
    ensures Min(s) as real <= Mean(s) <= Max(s) as real
  {
    MeanBounds(s, Min(s), Max(s));
  }

  /** If every read lies in [lo, hi], so does their mean. */
  lemma MeanBounds(s: seq<int>, lo: int, hi: int)
    requires |s| > 0
    requires forall i :: 0 <= i < |s| ==> lo <= s[i] <= hi
    ensures lo as real <= Mean(s) <= hi as real
  {
    var total := Sum(s);
    SumBounds(s, lo, hi);
    CastBounds(|s|, lo, hi, total);
    QuotientBounds(total as real, |s| as real, lo as real, hi as real);
  }

  /** The integer bounds n * lo <= x <= n * hi survive the cast to real. */
  lemma CastBounds(n: int, lo: int, hi: int, x: int)
    requires n * lo <= x <= n * hi
    ensures n as real * lo as real <= x as real <= n as real * hi as real
  {
  }

  /** Dividing by a positive count preserves the bounds n * lo <= x <= n * hi. */
  lemma QuotientBounds(x: real, n: real, lo: real, hi: real)
    requires n > 0.0
    requires n * lo <= x <= n * hi
    ensures lo <= x / n <= hi
  {
  }

  /** Reads inside the converter's range can be accumulated in a 32-bit
      `long` without overflow for up to 524416 samples, far more than any
      sketch takes. */
  lemma SumFitsInLong(s: seq<int>)
    requires forall i :: 0 <= i < |s| ==> 0 <= s[i] <= MAX_COUNT
    requires |s| <= 524416
    ensures 0 <= Sum(s) <= LONG_MAX
  {
    SumBounds(s, 0, MAX_COUNT);
  }
}
