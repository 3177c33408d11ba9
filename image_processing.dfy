/** Preparation of the landmark network's input: an interleaved
    height-width-channel image of x*y pixels becomes a planar
    channel-height-width buffer, each value normalised with the per-channel
    ImageNet mean and standard deviation. The source buffer is rewritten in
    place on the way. */
module ImageProcessing {

  const Mean: seq<real> := [0.485, 0.456, 0.406]
  const Std: seq<real> := [0.229, 0.224, 0.225]

  /** The two scaling triples as the static constructor leaves them: the
      mean divided by the deviation, and the deviation times 255. */
  const MeanScaling: seq<real> := [Mean[0] / Std[0], Mean[1] / Std[1], Mean[2] / Std[2]]
  const StdScaling: seq<real> := [Std[0] * 255.0, Std[1] * 255.0, Std[2] * 255.0]

  /** The network's input size, the default of both dimensions. */
  const DefaultSize: int := 224

  /** The per-channel switch on the deviation; any other channel gets 0. */
  function StdScalingForChannel(channel: int): (r: real)
    ensures r != 0.0 <==> 0 <= channel < 3
    ensures 0 <= channel < 3 ==> r == 255.0 * Std[channel]
  {
    if channel == 0 then StdScaling[0]
    else if channel == 1 then StdScaling[1]
    else if channel == 2 then StdScaling[2]
    else 0.0
  }

  /** The per-channel switch on the mean; any other channel gets 0. */
  function MeanScalingForChannel(channel: int): (r: real)
    ensures !(0 <= channel < 3) ==> r == 0.0
    ensures 0 <= channel < 3 ==> r * Std[channel] == Mean[channel]
  {
    if channel == 0 then MeanScaling[0]
    else if channel == 1 then MeanScaling[1]
    else if channel == 2 then MeanScaling[2]
    else 0.0
  }

  /** Divide by the scaled deviation, then subtract the scaled mean. */
  function Normalize(v: real, channel: int): real
    requires 0 <= channel < 3
  {
    v / StdScalingForChannel(channel) - MeanScalingForChannel(channel)
  }

  /** The rescaled constants give the usual per-channel normalisation
      (v / 255 - mean) / std. */
  lemma NormalizeIsStandardScore(v: real, channel: int)
    requires 0 <= channel < 3
    ensures Normalize(v, channel) == (v / 255.0 - Mean[channel]) / Std[channel]
  {
  }

  predicate IsInt32(v: int)
  {
    -0x8000_0000 <= v < 0x8000_0000
  }

  /** Two's-complement wrap-around of a 32-bit multiplication. */
  function Wrap32(v: int): (r: int)
    ensures IsInt32(r)
    ensures IsInt32(v) ==> r == v
    ensures (v - r) % 0x1_0000_0000 == 0
  {
    var m := v % 0x1_0000_0000;
    if m >= 0x8000_0000 then m - 0x1_0000_0000 else m
  }

  /** Number of pixels, as the source's 32-bit product computes it. */
  function Stride(x: int, y: int): int
  {
    Wrap32(x * y)
  }

  lemma DefaultStride()
    ensures Stride(DefaultSize, DefaultSize) == 50176
  {
  }

  /** Position of channel c of pixel p in the interleaved source. */
  function HwcIndex(pixel: int, channel: int): int
  {
    3 * pixel + channel
  }

  /** Position of channel c of pixel p in the planar destination. */
  function ChwIndex(channel: int, pixel: int, stride: int): int
  {
    channel * stride + pixel
  }

  /** Every one of the first 3*stride source positions belongs to exactly
      one (pixel, channel) pair, so the loops transform each of them once. */
  lemma HwcIndexCoversOnce(k: int, stride: int)
    requires 0 <= k < 3 * stride
    ensures 0 <= k / 3 < stride && 0 <= k % 3 < 3 && HwcIndex(k / 3, k % 3) == k
    ensures forall p, c :: 0 <= c < 3 && HwcIndex(p, c) == k ==> p == k / 3 && c == k % 3
  {
  }

  /** The planar positions of distinct (channel, pixel) pairs are distinct
      and lie below 3*stride. */
  lemma ChwIndexInjective(c1: int, p1: int, c2: int, p2: int, stride: int)
    requires 0 <= c1 < 3 && 0 <= p1 < stride && 0 <= c2 < 3 && 0 <= p2 < stride
    ensures 0 <= ChwIndex(c1, p1, stride) < 3 * stride
    ensures ChwIndex(c1, p1, stride) == ChwIndex(c2, p2, stride) ==> c1 == c2 && p1 == p2
  {
    assert c1 == 0 || c1 == 1 || c1 == 2;
    assert c2 == 0 || c2 == 1 || c2 == 2;
  }

  /** Normalises and transposes every pixel of the image; x and y are the
      image's width and height (224 each by default). */
  method NormalizeAndTranspose(data: array<real>, dest: array<real>, x: int := DefaultSize, y: int := DefaultSize)
    requires IsInt32(x) && IsInt32(y)
    requires data != dest
    requires 3 * Stride(x, y) <= data.Length && 3 * Stride(x, y) <= dest.Length
    modifies data, dest
    ensures forall c, p :: 0 <= c < 3 && 0 <= p < Stride(x, y) ==>
      data[HwcIndex(p, c)] == Normalize(old(data[HwcIndex(p, c)]), c) &&
      dest[ChwIndex(c, p, Stride(x, y))] == data[HwcIndex(p, c)]
    ensures forall k :: 0 <= k < 3 * Stride(x, y) ==> data[k] == Normalize(old(data[k]), k % 3)
    ensures forall k :: 0 <= k && 3 * Stride(x, y) <= k < data.Length ==> data[k] == old(data[k])
    ensures forall k :: 0 <= k && 3 * Stride(x, y) <= k < dest.Length ==> dest[k] == old(dest[k])
  {
    var stride := Stride(x, y);
    for channel := 0 to 3
      invariant forall c, p :: 0 <= c < channel && 0 <= p < stride ==>
        data[HwcIndex(p, c)] == Normalize(old(data[HwcIndex(p, c)]), c) &&
        dest[ChwIndex(c, p, stride)] == data[HwcIndex(p, c)]
      invariant forall c, p :: channel <= c < 3 && 0 <= p < stride ==>
        data[HwcIndex(p, c)] == old(data[HwcIndex(p, c)])
      invariant forall k :: 0 <= k && 3 * stride <= k < data.Length ==> data[k] == old(data[k])
      invariant forall k :: 0 <= k && 3 * stride <= k < dest.Length ==> dest[k] == old(dest[k])
    {
      NormalizeChannel(data, dest, channel, stride);
    }
    forall k | 0 <= k < 3 * stride
      ensures data[k] == Normalize(old(data[k]), k % 3)
    {
      HwcIndexCoversOnce(k, stride);
    }
  }

  /** The pixel loop for one channel: rewrites that channel's values in the
      interleaved source and copies them into the channel's plane of dest. */
  method NormalizeChannel(data: array<real>, dest: array<real>, channel: int, stride: int)
    requires 0 <= channel < 3 && data != dest
    requires 3 * stride <= data.Length && 3 * stride <= dest.Length
    modifies data, dest
    ensures forall p :: 0 <= p < stride ==>
      data[HwcIndex(p, channel)] == Normalize(old(data[HwcIndex(p, channel)]), channel) &&
      dest[ChwIndex(channel, p, stride)] == data[HwcIndex(p, channel)]
    ensures forall c, p :: 0 <= c < 3 && c != channel && 0 <= p < stride ==>
      data[HwcIndex(p, c)] == old(data[HwcIndex(p, c)]) &&
      dest[ChwIndex(c, p, stride)] == old(dest[ChwIndex(c, p, stride)])
    ensures forall k :: 0 <= k && 3 * stride <= k < data.Length ==> data[k] == old(data[k])
    ensures forall k :: 0 <= k && 3 * stride <= k < dest.Length ==> dest[k] == old(dest[k])
  {
    var stdScalingForChannel := StdScalingForChannel(channel);
    var meanScalingForChannel := MeanScalingForChannel(channel);

    var i := 0;
    while i < stride
      // A wrapped, negative stride runs no iteration: i stays 0 above it.
      invariant 0 <= i && (i == 0 || i <= stride)
      invariant forall p :: 0 <= p < i ==>
        data[HwcIndex(p, channel)] == Normalize(old(data[HwcIndex(p, channel)]), channel) &&
        dest[ChwIndex(channel, p, stride)] == data[HwcIndex(p, channel)]
      invariant forall p :: i <= p < stride ==>
        data[HwcIndex(p, channel)] == old(data[HwcIndex(p, channel)])
      invariant forall c, p :: 0 <= c < 3 && c != channel && 0 <= p < stride ==>
        data[HwcIndex(p, c)] == old(data[HwcIndex(p, c)]) &&
        dest[ChwIndex(c, p, stride)] == old(dest[ChwIndex(c, p, stride)])
      invariant forall k :: 0 <= k && 3 * stride <= k < data.Length ==> data[k] == old(data[k])
      invariant forall k :: 0 <= k && 3 * stride <= k < dest.Length ==> dest[k] == old(dest[k])
    {
      var from := HwcIndex(i, channel);
      var to := ChwIndex(channel, i, stride);
      forall c, p | 0 <= c < 3 && 0 <= p < stride
        ensures 0 <= ChwIndex(c, p, stride) < 3 * stride
        ensures ChwIndex(c, p, stride) == to ==> c == channel && p == i
      {
        ChwIndexInjective(c, p, channel, i, stride);
      }

      data[from] := data[from] / stdScalingForChannel;
      data[from] := data[from] - meanScalingForChannel;

      dest[to] := data[from];
      i := i + 1;
    }
  }
}
