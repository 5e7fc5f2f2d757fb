/**
  The volume monitor of App.tsx (`updateVolume`): one animation frame reads the
  analyser's byte frequency data and publishes the mean bin magnitude divided
  by 255, the largest value a bin can hold.
*/
module Volume {

  /** One entry of a `Uint8Array`. */
  newtype byte = x: int | 0 <= x < 256

  /** The analyser is created with `fftSize = 256`, so it has 128 frequency bins. */
  const FFT_SIZE: nat := 256
  const BIN_COUNT: nat := FFT_SIZE / 2

  /** The largest magnitude a byte bin can report. */
  const MAX_MAGNITUDE: real := 255.0

  /** Sum of the bins, accumulated from the left as the source's loop does. */
  function Sum(bins: seq<byte>): int
  {
    if bins == [] then 0 else Sum(bins[..|bins| - 1]) + bins[|bins| - 1] as int
  }

  lemma {:induction false} SumBounds(bins: seq<byte>)
    ensures 0 <= Sum(bins) <= 255 * |bins|
  {
    if bins != [] {
      SumBounds(bins[..|bins| - 1]);
    }
  }

  /** Every bin equal to `b` sums to `b` times the number of bins. */
  lemma {:induction false} SumOfConstant(bins: seq<byte>, b: byte)
    requires forall i :: 0 <= i < |bins| ==> bins[i] == b
    ensures Sum(bins) == b as int * |bins|
  {
    if bins != [] {
      SumOfConstant(bins[..|bins| - 1], b);
    }
  }

  lemma MeanBounds(total: real, n: real)
    requires n > 0.0 && 0.0 <= total <= 255.0 * n
    ensures 0.0 <= total / n / MAX_MAGNITUDE <= 1.0
  {
    assert total / n <= 255.0 by {
      assert (total / n) * n == total;
    }
  }

  /** The normalised loudness of one frame: `(sum / length) / 255`. */
  function Level(bins: seq<byte>): (v: real)
    requires |bins| > 0
    ensures 0.0 <= v <= 1.0
  {
    SumBounds(bins);
    MeanBounds(Sum(bins) as real, |bins| as real);
    Sum(bins) as real / |bins| as real / MAX_MAGNITUDE
  }

  /** An all-zero spectrum is silence. */
  lemma SilenceIsZero(bins: seq<byte>)
    requires |bins| > 0 && forall i :: 0 <= i < |bins| ==> bins[i] == 0
    ensures Level(bins) == 0.0
  {
    SumOfConstant(bins, 0);
  }

  /** A spectrum with every bin at 255 is full scale. */
  lemma FullScaleIsOne(bins: seq<byte>)
    requires |bins| > 0 && forall i :: 0 <= i < |bins| ==> bins[i] == 255
    ensures Level(bins) == 1.0
  {
    SumOfConstant(bins, 255);
    var n := |bins| as real;
    assert Sum(bins) as real == 255.0 * n;
    assert 255.0 * n / n == 255.0;
  }

  /** The loop of `updateVolume` over the filled `Uint8Array`. */
  method MeasureLevel(data: array<byte>) returns (v: real)
    requires data.Length > 0
    ensures v == Level(data[..])
    ensures 0.0 <= v <= 1.0
  {
    var sum := 0;
    var i := 0;
    while i < data.Length
      invariant 0 <= i <= data.Length
      invariant sum == Sum(data[..i])
    {
      assert data[..i + 1][..i] == data[..i];
      sum := sum + data[i] as int;
      i := i + 1;
    }
    assert data[..i] == data[..];
    var avg := sum as real / data.Length as real;
    v := avg / MAX_MAGNITUDE;
  }
}
