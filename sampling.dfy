/** Stride downsampling, shared by the chart's `sampledData` and the worker's
    `sampleChartData`: every `stride`-th record, starting at index 0. */
module Sampling {

  /** `Math.ceil(n / d)` for a natural `n` and a positive `d`. */
  function CeilDiv(n: nat, d: nat): (c: nat)
    requires d > 0
    ensures n <= c * d < n + d
  {
    (n + d - 1) / d
  }

  /** The ceiling is the only natural with that property. */
  lemma CeilDivUnique(n: nat, d: nat, c: nat)
    requires d > 0
    requires n <= c * d < n + d
    ensures c == CeilDiv(n, d)
  {
    var e := CeilDiv(n, d);
    if c < e {
      MulMonotone(c + 1, e, d);
    } else if c > e {
      MulMonotone(e + 1, c, d);
    }
  }

  lemma MulMonotone(a: nat, b: nat, d: nat)
    requires a <= b
    ensures a * d <= b * d
  {
  }

  lemma StrideIndexInRange(n: nat, stride: nat, k: nat)
    requires stride > 0 && k < CeilDiv(n, stride)
    ensures k * stride < n
  {
    MulMonotone(k + 1, CeilDiv(n, stride), stride);
  }

  /** The reference definition: `data[0], data[stride], data[2 * stride], ...`, as many
      as there are multiples of `stride` below `|data|`. */
  function Strided<T>(data: seq<T>, stride: nat): seq<T>
    requires stride > 0
  {
    seq(CeilDiv(|data|, stride), k requires 0 <= k < CeilDiv(|data|, stride) =>
      StrideIndexInRange(|data|, stride, k); data[k * stride])
  }

  /** The loop `for (let i = 0; i < data.length; i += sampleRate) sampled.push(data[i])`. */
  method TakeEvery<T>(data: seq<T>, stride: nat) returns (sampled: seq<T>)
    requires stride > 0
    ensures sampled == Strided(data, stride)
  {
    sampled := [];
    var i := 0;
    while i < |data|
      invariant i == |sampled| * stride
      invariant sampled == [] || (|sampled| - 1) * stride < |data|
      invariant forall k :: 0 <= k < |sampled| ==> sampled[k] == data[k * stride]
    {
      sampled := sampled + [data[i]];
      i := i + stride;
    }
    CeilDivUnique(|data|, stride, |sampled|);
  }

  /** With `stride = ceil(n / maxPoints)` and more than `maxPoints` records, the strided
      run has at most `maxPoints` records. */
  lemma StridedWithinBudget<T>(data: seq<T>, maxPoints: nat)
    requires 0 < maxPoints < |data|
    ensures CeilDiv(|data|, maxPoints) > 0
    ensures |Strided(data, CeilDiv(|data|, maxPoints))| <= maxPoints
  {
    var n, s := |data|, CeilDiv(|data|, maxPoints);
    var c := CeilDiv(n, s);
    assert n <= s * maxPoints;
    if c > maxPoints {
      MulMonotone(maxPoints, c - 1, s);
    }
  }

  /** Example: ten thousand records sampled down to at most two thousand
      use a stride of 5 and keep exactly two thousand. */
  lemma TenThousandRecords<T>(data: seq<T>)
    requires |data| == 10000
    ensures CeilDiv(|data|, 2000) == 5
    ensures |Strided(data, 5)| == 2000
  {
  }
}
