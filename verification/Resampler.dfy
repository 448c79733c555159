/** The average-decimating resampler of static/audio-capture.js, in exact real arithmetic. */
module Resampler {
  import opened Wrappers

  function Floor(x: real): int { x.Floor }

  // Position in the input where output sample i begins.
  function Start(i: int, ratio: real): int { Floor(i as real * ratio) }

  function OutLength(n: nat, ratio: real): int
    requires ratio > 0.0
  {
    Floor(n as real / ratio)
  }

  function Sum(xs: seq<real>): real {
    if xs == [] then 0.0 else Sum(xs[..|xs| - 1]) + xs[|xs| - 1]
  }

  function Clamp(x: real): real {
    if x < -1.0 then -1.0 else if x > 1.0 then 1.0 else x
  }

  // Storing a number in an Int16Array: truncated toward zero, then taken modulo 2^16.
  function Truncate(x: real): int {
    if x < 0.0 then -Floor(-x) else Floor(x)
  }

  function Wrap16(v: int): int {
    (v + 0x8000) % 0x1_0000 - 0x8000
  }

  function Scaled(sample: real): real {
    var clamped := Clamp(sample);
    if clamped < 0.0 then clamped * 32768.0 else clamped * 32767.0
  }

  function Window(input: seq<real>, i: nat, ratio: real): seq<real>
    requires 0 <= Start(i, ratio) <= Start(i + 1, ratio) <= |input|
  {
    input[Start(i, ratio)..Start(i + 1, ratio)]
  }

  // The mean of the window, or the sample it would begin with when the window is empty.
  function Sample(input: seq<real>, i: nat, ratio: real): real
    requires 0 <= Start(i, ratio) <= Start(i + 1, ratio) <= |input| && Start(i, ratio) < |input|
  {
    var w := Window(input, i, ratio);
    if w != [] then Sum(w) / |w| as real else input[Start(i, ratio)]
  }

  // ---------------------------------------------------------------- the windows

  // What the code stores for output sample i.
  function Output(input: seq<real>, i: nat, ratio: real): int
    requires ratio > 0.0 && i < OutLength(|input|, ratio)
  {
    InBounds(|input|, ratio, i);
    Wrap16(Truncate(Scaled(Sample(input, i, ratio))))
  }

  lemma FloorMonotone(x: real, y: real)
    requires x <= y
    ensures Floor(x) <= Floor(y)
  {
  }

  lemma TimesMonotone(x: real, y: real, r: real)
    requires x <= y && r >= 0.0
    ensures x * r <= y * r
  {
    assert (y - x) * r >= 0.0;
  }

  // The same with the products given names, strictly where the factors are.
  lemma ProductsMonotone(x: real, xr: real, y: real, yr: real, r: real)
    requires r > 0.0 && xr == x * r && yr == y * r && x <= y
    ensures xr <= yr && (x < y ==> xr < yr)
  {
    assert (y - x) * r >= 0.0 && (x < y ==> (y - x) * r > 0.0);
  }

  /** Every output index below OutLength has its window, and the index it falls back on, inside the input;
      and the bound the code takes for the window's end is redundant. */
  lemma InBounds(n: nat, ratio: real, i: nat)
    requires ratio > 0.0 && i < OutLength(n, ratio)
    ensures 0 <= Start(i, ratio) <= Start(i + 1, ratio) <= n
    ensures Start(i, ratio) < n
  {
    var q := n as real / ratio;
    assert q * ratio == n as real;
    StartsWithin(n, q, i, ratio);
  }

  lemma StartsWithin(n: nat, q: real, i: nat, ratio: real)
    requires ratio > 0.0 && q * ratio == n as real && (i + 1) as real <= q
    ensures 0 <= Start(i, ratio) <= Start(i + 1, ratio) <= n
    ensures Start(i, ratio) < n
  {
    var begin, next := i as real * ratio, (i + 1) as real * ratio;
    ProductsMonotone(0.0, 0.0, i as real, begin, ratio);
    ProductsMonotone((i + 1) as real, next, q, n as real, ratio);
    NextStart(i, ratio);
  }

  lemma NextStart(i: nat, ratio: real)
    requires ratio > 0.0
    ensures (i + 1) as real * ratio == i as real * ratio + ratio
    ensures Start(i, ratio) <= Start(i + 1, ratio)
    ensures ratio >= 1.0 ==> Start(i, ratio) < Start(i + 1, ratio)
  {
    assert (i + 1) as real == i as real + 1.0;
  }

  function Windows(input: seq<real>, k: nat, ratio: real): seq<real>
    requires ratio > 0.0 && k <= OutLength(|input|, ratio)
  {
    if k == 0 then [] else
    InBounds(|input|, ratio, k - 1);
    Windows(input, k - 1, ratio) + Window(input, k - 1, ratio)
  }

  /** The windows tile the input from its first sample: laid end to end they are exactly the samples before
      the start of the next window, so none is skipped and none is averaged twice. */
  lemma {:induction false} WindowsTile(input: seq<real>, k: nat, ratio: real)
    requires ratio > 0.0 && k <= OutLength(|input|, ratio)
    ensures 0 <= Start(k, ratio) <= |input| && Windows(input, k, ratio) == input[..Start(k, ratio)]
  {
    if k == 0 {
      assert 0 as real * ratio == 0.0;
    } else {
      InBounds(|input|, ratio, k - 1);
      WindowsTile(input, k - 1, ratio);
    }
  }

  /** Decimating never meets an empty window. */
  lemma NoEmptyWindow(input: seq<real>, i: nat, ratio: real)
    requires ratio >= 1.0 && i < OutLength(|input|, ratio)
    ensures 0 <= Start(i, ratio) <= Start(i + 1, ratio) <= |input| && Window(input, i, ratio) != []
  {
    InBounds(|input|, ratio, i);
    NextStart(i, ratio);
  }

  /** Fewer than ratio + 1 samples at the end of the input are left out. */
  lemma TailIsShort(n: nat, ratio: real)
    requires ratio > 0.0
    ensures 0 <= n - Start(OutLength(n, ratio), ratio)
    ensures (n - Start(OutLength(n, ratio), ratio)) as real < ratio + 1.0
  {
    var q := n as real / ratio;
    assert q * ratio == n as real;
    LengthNonNegative(n, ratio);
    TailOf(n, q, OutLength(n, ratio), ratio);
  }

  lemma TailOf(n: nat, q: real, k: nat, ratio: real)
    requires ratio > 0.0 && q * ratio == n as real && k as real <= q < (k + 1) as real
    ensures 0 <= n - Start(k, ratio)
    ensures (n - Start(k, ratio)) as real < ratio + 1.0
  {
    var begin, next := k as real * ratio, (k + 1) as real * ratio;
    ProductsMonotone(k as real, begin, q, n as real, ratio);
    ProductsMonotone(q, n as real, (k + 1) as real, next, ratio);
    NextStart(k, ratio);
  }

  /** Which input sample goes into which output, without rounding: sample j into output i exactly if j + 1 lies in
      (i * ratio, (i + 1) * ratio]. */
  lemma WindowTells(i: nat, j: int, ratio: real)
    ensures Start(i, ratio) <= j < Start(i + 1, ratio)
            <==> i as real * ratio < (j + 1) as real <= (i + 1) as real * ratio
  {
    FloorTells(i as real * ratio, j);
    FloorTells((i + 1) as real * ratio, j);
  }

  lemma FloorTells(x: real, j: int)
    ensures Floor(x) <= j <==> x < (j + 1) as real
  {
  }

  /** How many outputs there are: as many windows of `ratio` samples as the input holds whole. */
  lemma LengthTells(n: nat, ratio: real, k: int)
    requires ratio > 0.0
    ensures OutLength(n, ratio) == k <==> k as real * ratio <= n as real < (k + 1) as real * ratio
  {
    var q := n as real / ratio;
    assert q * ratio == n as real;
    ProductsKeepOrder(k as real, k as real * ratio, q, n as real, ratio);
    ProductsKeepOrder((k + 1) as real, (k + 1) as real * ratio, q, n as real, ratio);
  }

  lemma ProductsKeepOrder(x: real, xr: real, y: real, yr: real, r: real)
    requires r > 0.0 && xr == x * r && yr == y * r
    ensures x <= y <==> xr <= yr
  {
    if x <= y {
      ProductsMonotone(x, xr, y, yr, r);
    } else {
      ProductsMonotone(y, yr, x, xr, r);
    }
  }

  // ---------------------------------------------------------------- the samples

  function Total(xs: seq<real>): real {
    if xs == [] then 0.0 else xs[0] + Total(xs[1..])
  }

  lemma {:induction false} TotalSnoc(xs: seq<real>, x: real)
    ensures Total(xs + [x]) == Total(xs) + x
  {
    if xs == [] {
      assert xs + [x] == [x] && [x][1..] == [];
    } else {
      TotalSnoc(xs[1..], x);
      assert (xs + [x])[1..] == xs[1..] + [x];
    }
  }

  lemma {:induction false} SumIsTotal(xs: seq<real>)
    ensures Sum(xs) == Total(xs)
  {
    if xs != [] {
      SumIsTotal(xs[..|xs| - 1]);
      TotalSnoc(xs[..|xs| - 1], xs[|xs| - 1]);
      assert xs == xs[..|xs| - 1] + [xs[|xs| - 1]];
    }
  }

  /** The value quantized: the mean of the window's samples, or the sample an empty window stands before. */
  lemma SampleTells(input: seq<real>, i: nat, ratio: real)
    requires 0 <= Start(i, ratio) <= Start(i + 1, ratio) <= |input| && Start(i, ratio) < |input|
    ensures var a, b := Start(i, ratio), Start(i + 1, ratio);
            if a < b then Sample(input, i, ratio) == Total(input[a..b]) / (b - a) as real
            else Sample(input, i, ratio) == input[a]
  {
    hide Start;
    SumIsTotal(input[Start(i, ratio)..Start(i + 1, ratio)]);
  }

  /** Quantizing is linear on either side of silence, up to the rounding toward zero. */
  lemma QuantizedTells(x: real)
    ensures 0.0 <= x <= 1.0 ==> var v := Truncate(Scaled(x)); v as real <= x * 32767.0 < (v + 1) as real
    ensures -1.0 <= x <= 0.0 ==> var v := Truncate(Scaled(x)); (v - 1) as real < x * 32768.0 <= v as real
  {
  }

  /** Quantizing never wraps around: clamping keeps every scaled sample within Int16. */
  lemma NoWraparound(sample: real)
    ensures -0x8000 <= Truncate(Scaled(sample)) <= 0x7fff
    ensures Wrap16(Truncate(Scaled(sample))) == Truncate(Scaled(sample))
  {
  }

  /** The whole range is used, and only by full-scale samples: silence is 0, -1 and below the least, +1 and
      above the greatest Int16. */
  lemma FullScaleExactly(sample: real)
    ensures Truncate(Scaled(0.0)) == 0
    ensures Truncate(Scaled(sample)) == -0x8000 <==> sample <= -1.0
    ensures Truncate(Scaled(sample)) == 0x7fff <==> sample >= 1.0
  {
    if -1.0 < sample < 0.0 {
      TimesMonotone(-1.0, sample, 32768.0);
      FloorMonotone(-Scaled(sample), 32768.0);
    }
  }

  /** Louder input never gives a smaller output sample. */
  lemma QuantizingIsMonotone(x: real, y: real)
    requires x <= y
    ensures Truncate(Scaled(x)) <= Truncate(Scaled(y))
  {
    var cx, cy := Clamp(x), Clamp(y);
    if cx < 0.0 <= cy {
    } else if cy < 0.0 {
      TimesMonotone(cx, cy, 32768.0);
      FloorMonotone(-Scaled(y), -Scaled(x));
    } else {
      TimesMonotone(cx, cy, 32767.0);
      FloorMonotone(Scaled(x), Scaled(y));
    }
  }

  lemma {:induction false} SumBounds(xs: seq<real>, lo: real, hi: real)
    requires forall k :: 0 <= k < |xs| ==> lo <= xs[k] <= hi
    ensures |xs| as real * lo <= Sum(xs) <= |xs| as real * hi
  {
    if xs != [] {
      SumBounds(xs[..|xs| - 1], lo, hi);
      assert |xs| as real == (|xs| - 1) as real + 1.0;
    }
  }

  lemma SampleBounds(input: seq<real>, i: nat, ratio: real, lo: real, hi: real)
    requires 0 <= Start(i, ratio) <= Start(i + 1, ratio) <= |input| && Start(i, ratio) < |input|
    requires forall k :: 0 <= k < |input| ==> lo <= input[k] <= hi
    ensures lo <= Sample(input, i, ratio) <= hi
  {
    hide Start;
    var w := Window(input, i, ratio);
    if w != [] {
      SumBounds(w, lo, hi);
      MeanBounds(Sum(w), |w| as real, lo, hi);
    }
  }

  /** Each output lies between the quantized bounds of the input: the filter never overshoots. */
  lemma NoOvershoot(input: seq<real>, i: nat, ratio: real, lo: real, hi: real)
    requires ratio > 0.0 && i < OutLength(|input|, ratio)
    requires forall k :: 0 <= k < |input| ==> lo <= input[k] <= hi
    ensures Truncate(Scaled(lo)) <= Output(input, i, ratio) <= Truncate(Scaled(hi))
    ensures -0x8000 <= Output(input, i, ratio) <= 0x7fff
  {
    hide Truncate, Scaled;
    InBounds(|input|, ratio, i);
    SampleBounds(input, i, ratio, lo, hi);
    var sample := Sample(input, i, ratio);
    NoWraparound(sample);
    QuantizingIsMonotone(lo, sample);
    QuantizingIsMonotone(sample, hi);
  }

  lemma MeanBounds(sum: real, n: real, lo: real, hi: real)
    requires n > 0.0 && n * lo <= sum <= n * hi
    ensures lo <= sum / n <= hi
  {
    var m := sum / n;
    assert m * n == sum;
    assert (m - lo) * n >= 0.0 && (hi - m) * n >= 0.0;
  }

  // ---------------------------------------------------------------- the method

  // The inner loop: sum and number of the samples from `start` up to `end`.
  method SumWindow(input: seq<real>, start: nat, end: int) returns (sum: real, count: int)
    requires start <= end <= |input|
    ensures count == end - start && sum == Sum(input[start..end])
  {
    sum, count := 0.0, 0;
    for j := start to end
      invariant count == j - start && sum == Sum(input[start..j])
    {
      assert input[start..j + 1][..j - start] == input[start..j];
      sum := sum + input[j];
      count := count + 1;
    }
  }

  /** Reads only inside the input and stores, for each output index, the quantized mean of its window. */
  method DownsampleToPcm16(input: seq<real>, inputRate: real, targetRate: real) returns (pcm: array<int>)
    requires inputRate > 0.0 && targetRate > 0.0
    ensures inputRate / targetRate > 0.0 && pcm.Length == OutLength(|input|, inputRate / targetRate)
    ensures forall i :: 0 <= i < pcm.Length ==> pcm[i] == Output(input, i, inputRate / targetRate)
  {
    var ratio := inputRate / targetRate;
    QuotientPositive(inputRate, targetRate);
    var outLength := OutLength(|input|, ratio);
    LengthNonNegative(|input|, ratio);
    pcm := new int[outLength];
    var pos := 0;
    for i := 0 to outLength
      invariant pos == i
      invariant forall k :: 0 <= k < i ==> pcm[k] == Output(input, k, ratio)
    {
      InBounds(|input|, ratio, i);
      var start := Start(i, ratio);
      var end := Min(Start(i + 1, ratio), |input|);
      var sum, count := SumWindow(input, start, end);
      var sample := if count != 0 then sum / count as real else input[start];
      pcm[pos] := Wrap16(Truncate(Scaled(sample)));
      assert sample == Sample(input, i, ratio);
      pos := pos + 1;
    }
  }

  lemma QuotientPositive(x: real, y: real)
    requires x > 0.0 && y > 0.0
    ensures x / y > 0.0
  {
    assert x / y * y == x;
    if x / y <= 0.0 {
      TimesMonotone(x / y, 0.0, y);
    }
  }

  lemma LengthNonNegative(n: nat, ratio: real)
    requires ratio > 0.0
    ensures OutLength(n, ratio) >= 0
  {
    if n > 0 {
      QuotientPositive(n as real, ratio);
    }
  }
}
