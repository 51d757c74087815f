/**
 * Pixel statistics of an uploaded logo: one pass over the RGBA bytes of
 * the drawn image accumulates brightness, saturation, a histogram of
 * quantised colours and an edge count, and the result record is
 * assembled from the totals.
 *
 * The histogram is a JavaScript `Map` keyed by the text `"r,g,b"` of the
 * quantised channels; its entries keep insertion order. The model keys it
 * by the three numbers themselves (the text is parsed straight back into
 * them when the dominant colours are written out) and keeps it as a list
 * of entries in insertion order.
 */
module LogoImage {
  import opened Base
  import opened Sorting
  import opened HexColor

  /** `LogoAnalysis` */
  datatype LogoAnalysis = LogoAnalysis(
    width: real, height: real, aspectRatio: real, dominantColors: seq<string>,
    complexity: real, brightness: real, colorfulness: real)

  /** A quantised colour: each channel rounded down to a multiple of 32. */
  datatype Bucket = Bucket(r: int, g: int, b: int)

  /** One histogram entry: a bucket and the number of opaque pixels in it. */
  datatype Entry = Entry(bucket: Bucket, count: nat)

  /** The running totals of the pixel loop. */
  datatype Stats = Stats(totalBrightness: real, totalSaturation: real, colorMap: seq<Entry>, edgeCount: nat)

  /** The canvas's RGBA data: whole pixels of four bytes. */
  predicate IsPixelData(px: seq<int>)
  {
    |px| % 4 == 0 && forall i :: 0 <= i < |px| ==> 0 <= px[i] < 256
  }

  /** `(r + g + b) / (3 * 255)` */
  function Brightness(r: int, g: int, b: int): (v: real)
    requires IsByte(r) && IsByte(g) && IsByte(b)
    ensures 0.0 <= v <= 1.0
  {
    ClosedUnitFraction((r + g + b) as real, 765.0);
    (r + g + b) as real / (3.0 * 255.0)
  }

  function Max3(a: int, b: int, c: int): (m: int)
    ensures m >= a && m >= b && m >= c && (m == a || m == b || m == c)
  {
    if a >= b && a >= c then a else if b >= c then b else c
  }

  function Min3(a: int, b: int, c: int): (m: int)
    ensures m <= a && m <= b && m <= c && (m == a || m == b || m == c)
  {
    if a <= b && a <= c then a else if b <= c then b else c
  }

  /** `max === 0 ? 0 : (max - min) / max` */
  function Saturation(r: int, g: int, b: int): (v: real)
    requires IsByte(r) && IsByte(g) && IsByte(b)
    ensures 0.0 <= v <= 1.0
    ensures Max3(r, g, b) == 0 ==> v == 0.0
    ensures r == g == b ==> v == 0.0
  {
    var mx, mn := Max3(r, g, b), Min3(r, g, b);
    if mx == 0 then 0.0
    else
      ClosedUnitFraction((mx - mn) as real, mx as real);
      (mx - mn) as real / mx as real
  }

  /** `Math.floor(c / 32) * 32` */
  function Quantize(c: int): (q: int)
    requires IsByte(c)
    ensures IsLevel(q)
    ensures q <= c < q + 32
  {
    var k := c / 32;
    assert 0 <= k < 8;
    k * 32
  }

  /** The channel values of the quantised colours: the multiples of 32 from 0 to 224. */
  predicate IsLevel(q: int)
  {
    q in {0, 32, 64, 96, 128, 160, 192, 224}
  }

  predicate IsQuantized(k: Bucket)
  {
    IsLevel(k.r) && IsLevel(k.g) && IsLevel(k.b)
  }

  function BucketOf(e: Entry): Bucket { e.bucket }

  /** The number of pixels counted in a histogram. */
  function Total(es: seq<Entry>): nat
  {
    if es == [] then 0 else es[0].count + Total(es[1..])
  }

  /** The count a histogram holds for one bucket (0 when it has no entry). */
  function CountOf(es: seq<Entry>, k: Bucket): nat
  {
    if es == [] then 0 else (if es[0].bucket == k then es[0].count else 0) + CountOf(es[1..], k)
  }

  /** `colorMap.set(k, (colorMap.get(k) || 0) + 1)` */
  function Bump(es: seq<Entry>, k: Bucket): (r: seq<Entry>)
    ensures Total(r) == Total(es) + 1
  {
    if es == [] then [Entry(k, 1)]
    else if es[0].bucket == k then [Entry(k, es[0].count + 1)] + es[1..]
    else [es[0]] + Bump(es[1..], k)
  }

  /** Bumping raises the count of its bucket by one and leaves every other count. */
  lemma {:induction false} BumpCounts(es: seq<Entry>, k: Bucket, c: Bucket)
    ensures CountOf(Bump(es, k), c) == CountOf(es, c) + (if c == k then 1 else 0)
    decreases |es|
  {
    if es != [] && es[0].bucket != k {
      BumpCounts(es[1..], k, c);
    }
  }

  /** Bumping adds no entry for another bucket. */
  lemma {:induction false} BumpMembers(es: seq<Entry>, k: Bucket)
    ensures forall e :: e in Bump(es, k) ==> e in es || e.bucket == k
    decreases |es|
  {
    if es != [] && es[0].bucket != k {
      BumpMembers(es[1..], k);
      assert forall e :: e in es[1..] ==> e in es;
    }
  }

  /** Bumping keeps one entry per bucket. */
  lemma {:induction false} BumpDistinct(es: seq<Entry>, k: Bucket)
    requires DistinctBy(es, BucketOf)
    ensures DistinctBy(Bump(es, k), BucketOf)
    decreases |es|
  {
    if es != [] && es[0].bucket != k {
      var rest := Bump(es[1..], k);
      var r := [es[0]] + rest;
      assert r == Bump(es, k);
      assert DistinctBy(es[1..], BucketOf);
      BumpDistinct(es[1..], k);
      BumpMembers(es[1..], k);
      forall i, j | 0 <= i < j < |r|
        ensures r[i].bucket != r[j].bucket
      {
        if i == 0 {
          assert r[j] in rest;
          if r[j] in es[1..] {
            var m :| 0 <= m < |es[1..]| && es[1..][m] == r[j];
            assert es[m + 1] == r[j];
          }
        }
      }
    }
  }

  /** A bucket without an entry is appended with count 1 (`Map` insertion order). */
  lemma {:induction false} BumpAppends(es: seq<Entry>, k: Bucket)
    requires forall e :: e in es ==> e.bucket != k
    ensures Bump(es, k) == es + [Entry(k, 1)]
    decreases |es|
  {
    if es != [] {
      BumpAppends(es[1..], k);
      assert es == [es[0]] + es[1..];
    }
  }

  /** A distinct-bucket histogram has no bucket twice, so its first entry is the only one for that bucket. */
  lemma {:induction false} CountOfDistinct(es: seq<Entry>, i: nat)
    requires DistinctBy(es, BucketOf) && i < |es|
    ensures CountOf(es, es[i].bucket) == es[i].count
    decreases |es|
  {
    if i == 0 {
      AbsentCountsZero(es[1..], es[0].bucket);
    } else {
      CountOfDistinct(es[1..], i - 1);
    }
  }

  lemma {:induction false} AbsentCountsZero(es: seq<Entry>, k: Bucket)
    requires forall e :: e in es ==> e.bucket != k
    ensures CountOf(es, k) == 0
    decreases |es|
  {
    if es != [] {
      AbsentCountsZero(es[1..], k);
    }
  }

  /** Whether pixel `p` is opaque enough to count (`a >= 128`). */
  predicate Opaque(px: seq<int>, p: nat)
    requires 4 * p + 4 <= |px|
  {
    px[4 * p + 3] >= 128
  }

  /** The bucket of pixel `p`. */
  function PixelBucket(px: seq<int>, p: nat): (k: Bucket)
    requires IsPixelData(px) && 4 * p + 4 <= |px|
    ensures IsQuantized(k)
  {
    Bucket(Quantize(px[4 * p]), Quantize(px[4 * p + 1]), Quantize(px[4 * p + 2]))
  }

  /**
   * Whether pixel `p` counts as an edge: a next pixel exists and the sum
   * of the absolute channel differences to it exceeds 100. The next
   * pixel's alpha is not looked at.
   */
  predicate EdgeAt(px: seq<int>, p: nat)
    requires |px| % 4 == 0 && 4 * p + 4 <= |px|
  {
    var i := 4 * p;
    i + 4 < |px|
    && (PixelInside(px, p + 1);
        ColorDistance(px[i], px[i + 1], px[i + 2], px[i + 4], px[i + 5], px[i + 6]) > 100.0)
  }

  /** The sum of the absolute channel differences between two colours. */
  function ColorDistance(r: int, g: int, b: int, r2: int, g2: int, b2: int): real
  {
    Abs((r - r2) as real) + Abs((g - g2) as real) + Abs((b - b2) as real)
  }

  /** In whole-pixel data, a pixel that starts inside the data ends inside it. */
  lemma PixelInside(px: seq<int>, p: nat)
    requires |px| % 4 == 0 && 4 * p < |px|
    ensures 4 * p + 4 <= |px|
  {
    var n := |px| / 4;
    assert |px| == 4 * n;
  }

  /** The totals after pixel `p` is visited. */
  function PixelStep(s: Stats, px: seq<int>, p: nat): (r: Stats)
    requires IsPixelData(px) && 4 * p + 4 <= |px|
    ensures !Opaque(px, p) ==> r == s
  {
    var i := 4 * p;
    if px[i + 3] < 128 then s
    else
      Stats(
        s.totalBrightness + Brightness(px[i], px[i + 1], px[i + 2]),
        s.totalSaturation + Saturation(px[i], px[i + 1], px[i + 2]),
        Bump(s.colorMap, PixelBucket(px, p)),
        s.edgeCount + if EdgeAt(px, p) then 1 else 0)
  }

  /** What an opaque pixel adds to the totals. */
  lemma OpaqueStep(s: Stats, px: seq<int>, p: nat)
    requires IsPixelData(px) && 4 * p + 4 <= |px| && Opaque(px, p)
    ensures var r := PixelStep(s, px, p);
      && r.totalBrightness == s.totalBrightness + Brightness(px[4 * p], px[4 * p + 1], px[4 * p + 2])
      && r.totalSaturation == s.totalSaturation + Saturation(px[4 * p], px[4 * p + 1], px[4 * p + 2])
      && r.colorMap == Bump(s.colorMap, PixelBucket(px, p))
      && r.edgeCount == s.edgeCount + (if EdgeAt(px, p) then 1 else 0)
  {
  }

  /** The totals after the first `n` pixels. */
  function StatsUpTo(px: seq<int>, n: nat): Stats
    requires IsPixelData(px) && 4 * n <= |px|
  {
    if n == 0 then Stats(0.0, 0.0, [], 0)
    else PixelStep(StatsUpTo(px, n - 1), px, n - 1)
  }

  /** The number of opaque pixels among the first `n`. */
  function OpaqueCount(px: seq<int>, n: nat): (c: nat)
    requires 4 * n <= |px|
    ensures c <= n
  {
    if n == 0 then 0 else OpaqueCount(px, n - 1) + if Opaque(px, n - 1) then 1 else 0
  }

  /** The number of opaque pixels among the first `n` that fall in bucket `k`. */
  function OpaqueInBucket(px: seq<int>, n: nat, k: Bucket): (c: nat)
    requires IsPixelData(px) && 4 * n <= |px|
    ensures c <= OpaqueCount(px, n)
  {
    if n == 0 then 0
    else OpaqueInBucket(px, n - 1, k) + if Opaque(px, n - 1) && PixelBucket(px, n - 1) == k then 1 else 0
  }

  /**
   * The totals after `n` pixels: each average's numerator lies between 0
   * and the number of pixels seen, at most one edge is counted per opaque
   * pixel, and the histogram counts every opaque pixel once.
   */
  lemma {:induction false} StatsTotals(px: seq<int>, n: nat)
    requires IsPixelData(px) && 4 * n <= |px|
    ensures var s := StatsUpTo(px, n);
      && 0.0 <= s.totalBrightness <= n as real
      && 0.0 <= s.totalSaturation <= n as real
      && s.edgeCount <= OpaqueCount(px, n)
      && Total(s.colorMap) == OpaqueCount(px, n)
    decreases n
  {
    if n > 0 {
      StatsTotals(px, n - 1);
    }
  }

  /**
   * The histogram after `n` pixels holds, for each bucket, exactly the
   * number of opaque pixels that fall in it, has one entry per bucket, and
   * only quantised colours with positive counts.
   */
  lemma {:induction false} StatsHistogram(px: seq<int>, n: nat)
    requires IsPixelData(px) && 4 * n <= |px|
    ensures var s := StatsUpTo(px, n);
      && (forall k :: CountOf(s.colorMap, k) == OpaqueInBucket(px, n, k))
      && DistinctBy(s.colorMap, BucketOf)
      && (forall e :: e in s.colorMap ==> IsQuantized(e.bucket) && e.count > 0)
    decreases n
  {
    if n > 0 {
      StatsHistogram(px, n - 1);
      var s := StatsUpTo(px, n - 1);
      if Opaque(px, n - 1) {
        var k := PixelBucket(px, n - 1);
        var es := Bump(s.colorMap, k);
        assert StatsUpTo(px, n).colorMap == es;
        BumpDistinct(s.colorMap, k);
        BumpMembers(s.colorMap, k);
        forall c
          ensures CountOf(es, c) == OpaqueInBucket(px, n, c)
        {
          BumpCounts(s.colorMap, k, c);
        }
        forall e | e in es
          ensures IsQuantized(e.bucket) && e.count > 0
        {
          if e !in s.colorMap {
            var i :| 0 <= i < |es| && es[i] == e;
            assert e.bucket == k;
            CountOfDistinctBump(s.colorMap, k, i);
          }
        }
      }
    }
  }

  /** A freshly bumped entry holds the bucket's new count, which is positive. */
  lemma CountOfDistinctBump(es: seq<Entry>, k: Bucket, i: nat)
    requires DistinctBy(es, BucketOf)
    requires i < |Bump(es, k)| && Bump(es, k)[i].bucket == k
    ensures Bump(es, k)[i].count > 0
  {
    var r := Bump(es, k);
    BumpDistinct(es, k);
    BumpCounts(es, k, k);
    CountOfDistinct(r, i);
    assert CountOf(r, k) == CountOf(es, k) + 1;
  }

  /** The histogram ordered by non-increasing count, ties in insertion order. */
  function NegCount(e: Entry): real { -(e.count as real) }

  /** `.sort((a, b) => b[1] - a[1]).slice(0, 3)` */
  function TopEntries(es: seq<Entry>): (top: seq<Entry>)
    ensures |top| == if |es| < 3 then |es| else 3
  {
    var sorted := SortBy(es, NegCount);
    sorted[..if |es| < 3 then |es| else 3]
  }

  /**
   * The top entries come out by non-increasing count, are taken from the
   * histogram, and no entry left out has a larger count than one kept.
   */
  lemma TopEntriesFacts(es: seq<Entry>)
    ensures var top := TopEntries(es);
      && (forall i, j :: 0 <= i < j < |top| ==> top[i].count >= top[j].count)
      && (forall e :: e in top ==> e in es)
      && (forall e, t :: e in es && e !in top && t in top ==> e.count <= t.count)
  {
    var sorted := SortBy(es, NegCount);
    SortBySorted(es, NegCount);
    SortByPermutation(es, NegCount);
    var n := if |es| < 3 then |es| else 3;
    var top := sorted[..n];
    assert top == TopEntries(es);
    forall i, j | 0 <= i < j < |top|
      ensures top[i].count >= top[j].count
    {
      assert NegCount(sorted[i]) <= NegCount(sorted[j]);
    }
    forall e | e in top
      ensures e in es
    {
      assert e in multiset(sorted);
    }
    forall e, t | e in es && e !in top && t in top
      ensures e.count <= t.count
    {
      assert e in multiset(sorted);
      var j :| 0 <= j < |sorted| && sorted[j] == e;
      var i :| 0 <= i < n && top[i] == t;
      assert NegCount(sorted[i]) <= NegCount(sorted[j]);
    }
  }

  /** A bucket written as `#rrggbb`. */
  function BucketColor(k: Bucket): (s: string)
    requires IsQuantized(k)
    ensures IsLowerColor(s)
    ensures DecodeColor(s) == Rgb(k.r, k.g, k.b)
  {
    EncodeDecode(Rgb(k.r, k.g, k.b));
    EncodeColor(Rgb(k.r, k.g, k.b))
  }

  /** The dominant colours: the (at most) three most frequent buckets as hex colours. */
  function DominantColors(es: seq<Entry>): (colors: seq<string>)
    requires forall e :: e in es ==> IsQuantized(e.bucket)
    ensures |colors| == |TopEntries(es)| <= 3
    ensures forall i :: 0 <= i < |colors| ==>
      IsLowerColor(colors[i]) && DecodeColor(colors[i]) == Rgb(TopEntries(es)[i].bucket.r, TopEntries(es)[i].bucket.g, TopEntries(es)[i].bucket.b)
  {
    var top := TopEntries(es);
    TopEntriesFacts(es);
    seq(|top|, i requires 0 <= i < |top| => BucketColor(top[i].bucket))
  }

  /** The complexity: the edge count over 30% of the pixel count, capped at 1. */
  function EdgeComplexity(edgeCount: nat, pixelCount: real): real
    requires pixelCount > 0.0
  {
    Min(1.0, edgeCount as real / (pixelCount * 0.3))
  }

  /** The record resolved from the totals over all pixels. */
  function Summary(px: seq<int>, width: nat, height: nat): (a: LogoAnalysis)
    requires IsPixelData(px) && |px| > 0 && height > 0
  {
    var total := (|px| / 4) as real;
    var s := StatsUpTo(px, |px| / 4);
    StatsHistogram(px, |px| / 4);
    LogoAnalysis(
      width as real, height as real, width as real / height as real,
      DominantColors(s.colorMap),
      EdgeComplexity(s.edgeCount, total),
      s.totalBrightness / total,
      s.totalSaturation / total)
  }

  /**
   * The analysis stays in its documented ranges: brightness, colourfulness
   * and complexity in [0, 1] (both averages divide by the number of all
   * pixels, transparent ones included), at most three dominant colours,
   * each a `#rrggbb` colour whose channels are multiples of 32.
   */
  lemma SummaryRanges(px: seq<int>, width: nat, height: nat)
    requires IsPixelData(px) && |px| > 0 && height > 0
    ensures var a := Summary(px, width, height);
      && 0.0 <= a.brightness <= 1.0
      && 0.0 <= a.colorfulness <= 1.0
      && 0.0 <= a.complexity <= 1.0
      && |a.dominantColors| <= 3
      && (forall c :: c in a.dominantColors ==> IsLowerColor(c) && IsQuantized(Bucket(DecodeColor(c).r, DecodeColor(c).g, DecodeColor(c).b)))
      && a.aspectRatio == width as real / height as real
  {
    var n := |px| / 4;
    var total := n as real;
    StatsTotals(px, n);
    StatsHistogram(px, n);
    var s := StatsUpTo(px, n);
    ClosedUnitFraction(s.totalBrightness, total);
    ClosedUnitFraction(s.totalSaturation, total);
    assert 0.0 <= s.edgeCount as real / (total * 0.3) by {
      assert 0.0 < total * 0.3;
    }
    DominantColorsQuantized(s.colorMap);
  }

  /** Every dominant colour decodes to a quantised bucket. */
  lemma DominantColorsQuantized(es: seq<Entry>)
    requires forall e :: e in es ==> IsQuantized(e.bucket)
    ensures forall c :: c in DominantColors(es) ==>
      IsLowerColor(c) && IsQuantized(Bucket(DecodeColor(c).r, DecodeColor(c).g, DecodeColor(c).b))
  {
    var top := TopEntries(es);
    TopEntriesFacts(es);
    forall c | c in DominantColors(es)
      ensures IsLowerColor(c) && IsQuantized(Bucket(DecodeColor(c).r, DecodeColor(c).g, DecodeColor(c).b))
    {
      var i :| 0 <= i < |DominantColors(es)| && DominantColors(es)[i] == c;
      assert top[i] in es;
    }
  }

  /** An opaque pixel's step, written with the index `i` of its first byte as the pixel loop reads it. */
  lemma VisitOpaque(px: seq<int>, p: nat, i: nat, s: Stats)
    requires IsPixelData(px) && i == 4 * p && i + 4 <= |px| && px[i + 3] >= 128
    requires i + 4 < |px| ==> i + 8 <= |px|
    ensures PixelStep(s, px, p) == Stats(
      s.totalBrightness + Brightness(px[i], px[i + 1], px[i + 2]),
      s.totalSaturation + Saturation(px[i], px[i + 1], px[i + 2]),
      Bump(s.colorMap, Bucket(Quantize(px[i]), Quantize(px[i + 1]), Quantize(px[i + 2]))),
      s.edgeCount + if i + 4 < |px|
        && ColorDistance(px[i], px[i + 1], px[i + 2], px[i + 4], px[i + 5], px[i + 6]) > 100.0 then 1 else 0)
  {
    OpaqueStep(s, px, p);
  }

  /** The totals after one more pixel. */
  lemma StatsUpToNext(px: seq<int>, p: nat)
    requires IsPixelData(px) && 4 * p + 4 <= |px|
    ensures StatsUpTo(px, p + 1) == PixelStep(StatsUpTo(px, p), px, p)
  {
  }

  lemma QuarterOf(n: nat, p: nat)
    requires n == 4 * p
    ensures n / 4 == p
  {
  }

  /** The pixel loop of `analyzeLogoImage`: the totals, colour buckets and edge count over every pixel. */
  method AccumulatePixels(pixels: seq<int>) returns (totalBrightness: real, totalSaturation: real, colorMap: seq<Entry>, edgeCount: nat)
    requires IsPixelData(pixels)
    ensures Stats(totalBrightness, totalSaturation, colorMap, edgeCount) == StatsUpTo(pixels, |pixels| / 4)
  {
    colorMap := [];
    totalBrightness := 0.0;
    totalSaturation := 0.0;
    edgeCount := 0;
    var i := 0;
    ghost var p: nat := 0;
    while i < |pixels|
      invariant i == 4 * p <= |pixels|
      invariant Stats(totalBrightness, totalSaturation, colorMap, edgeCount) == StatsUpTo(pixels, p)
    {
      PixelInside(pixels, p);
      ghost var before := Stats(totalBrightness, totalSaturation, colorMap, edgeCount);
      StatsUpToNext(pixels, p);
      var r, g, b, a := pixels[i], pixels[i + 1], pixels[i + 2], pixels[i + 3];
      if a < 128 {
        assert !Opaque(pixels, p);
        assert Stats(totalBrightness, totalSaturation, colorMap, edgeCount) == StatsUpTo(pixels, p + 1);
        i, p := i + 4, p + 1;
        continue;
      }
      if i + 4 < |pixels| {
        PixelInside(pixels, p + 1);
      }
      VisitOpaque(pixels, p, i, before);
      totalBrightness := totalBrightness + Brightness(r, g, b);
      totalSaturation := totalSaturation + Saturation(r, g, b);
      var quantizedColor := Bucket(Quantize(r), Quantize(g), Quantize(b));
      colorMap := Bump(colorMap, quantizedColor);
      if i + 4 < |pixels| {
        var diff := ColorDistance(r, g, b, pixels[i + 4], pixels[i + 5], pixels[i + 6]);
        if diff > 100.0 {
          edgeCount := edgeCount + 1;
        }
      }
      assert Stats(totalBrightness, totalSaturation, colorMap, edgeCount) == StatsUpTo(pixels, p + 1);
      i, p := i + 4, p + 1;
    }
    QuarterOf(|pixels|, p);
  }

  /**
   * `analyzeLogoImage` once the image is drawn: the pixel loop, then the
   * averages over the pixel count, the dominant colours and the edge
   * complexity.
   */
  method AnalyzePixels(pixels: seq<int>, width: nat, height: nat) returns (analysis: LogoAnalysis)
    requires IsPixelData(pixels) && |pixels| > 0 && height > 0
    ensures analysis == Summary(pixels, width, height)
  {
    var totalBrightness, totalSaturation, colorMap, edgeCount := AccumulatePixels(pixels);
    var opaquePixels := (|pixels| / 4) as real;
    var avgBrightness := totalBrightness / opaquePixels;
    var avgSaturation := totalSaturation / opaquePixels;
    StatsHistogram(pixels, |pixels| / 4);
    var sortedColors := DominantColors(colorMap);
    var complexity := EdgeComplexity(edgeCount, opaquePixels);
    analysis := LogoAnalysis(
      width as real, height as real, width as real / height as real,
      sortedColors, complexity, avgBrightness, avgSaturation);
  }
}
