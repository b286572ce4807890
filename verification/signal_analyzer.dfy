/**
 * The browser's band aggregator (js/signal-analyzer.js): a 64-sample FIFO
 * window of raw samples; on every sample it recomputes the mean absolute
 * power of each band over the whole window and the mean quality of the
 * newest eight samples, and dispatches that aggregate.
 */
module SignalAnalyzer {
  import opened Numeric
  import Fifo

  datatype Band = Delta | Theta | Alpha | Beta | Gamma

  /**
   * One raw sample.  `bands` holds the magnitudes the sample carries (they may
   * be negative: the demo source emits sine values); a band it lacks is
   * simply absent.
   */
  datatype Sample = Sample(bands: map<Band, real>, quality: real)

  /** The `avg` record: always exactly the five bands. */
  datatype BandPowers = BandPowers(delta: real, theta: real, alpha: real, beta: real, gamma: real)
  {
    function Get(b: Band): real
    {
      match b
      case Delta => delta
      case Theta => theta
      case Alpha => alpha
      case Beta => beta
      case Gamma => gamma
    }
  }

  /** The `analyzer:data` payload. */
  datatype Aggregate = Aggregate(bands: BandPowers, quality: real)

  const MaxBuf: nat := 64
  const QualityWindow: nat := 8

  /** What one sample adds to a band's running sum: |value|, or nothing if absent. */
  function Magnitude(s: Sample, b: Band): (r: real)
    ensures r >= 0.0
  {
    if b in s.bands then Abs(s.bands[b]) else 0.0
  }

  /** Sum of the magnitudes of band `b` over `buf`. */
  function SumAbs(buf: seq<Sample>, b: Band): (r: real)
    ensures r >= 0.0
  {
    if buf == [] then 0.0 else SumAbs(buf[..|buf| - 1], b) + Magnitude(buf[|buf| - 1], b)
  }

  function MeanAbs(buf: seq<Sample>, b: Band): real
    requires buf != []
  {
    SumAbs(buf, b) / |buf| as real
  }

  /** The five per-band means over the window. */
  function MeanBands(buf: seq<Sample>): (avg: BandPowers)
    requires buf != []
    ensures forall b :: avg.Get(b) == MeanAbs(buf, b) && avg.Get(b) >= 0.0
  {
    BandPowers(MeanAbs(buf, Delta), MeanAbs(buf, Theta), MeanAbs(buf, Alpha),
               MeanAbs(buf, Beta), MeanAbs(buf, Gamma))
  }

  function Sum(xs: seq<real>): real
  {
    if xs == [] then 0.0 else Sum(xs[..|xs| - 1]) + xs[|xs| - 1]
  }

  function Mean(xs: seq<real>): real
    requires xs != []
  {
    Sum(xs) / |xs| as real
  }

  function Qualities(buf: seq<Sample>): (qs: seq<real>)
    ensures |qs| == |buf|
    ensures forall i :: 0 <= i < |buf| ==> qs[i] == buf[i].quality
  {
    if buf == [] then [] else Qualities(buf[..|buf| - 1]) + [buf[|buf| - 1].quality]
  }

  /** The aggregate the handler computes from a (non-empty) window. */
  function Summarize(buf: seq<Sample>): (agg: Aggregate)
    requires buf != []
    ensures agg.bands == MeanBands(buf)
    ensures agg.quality == Mean(Qualities(Fifo.Recent(buf, QualityWindow)))
  {
    Aggregate(MeanBands(buf), Mean(Qualities(Fifo.Recent(buf, QualityWindow))))
  }

  /** Both averaging loops of the handler (`forEach` over the window, then the division). */
  method AverageBands(buf: seq<Sample>) returns (avg: BandPowers)
    requires buf != []
    ensures avg == MeanBands(buf)
  {
    var d, t, a, be, g := 0.0, 0.0, 0.0, 0.0, 0.0;
    for i := 0 to |buf|
      invariant d == SumAbs(buf[..i], Delta) && t == SumAbs(buf[..i], Theta)
      invariant a == SumAbs(buf[..i], Alpha) && be == SumAbs(buf[..i], Beta)
      invariant g == SumAbs(buf[..i], Gamma)
    {
      assert buf[..i + 1][..i] == buf[..i];
      var s := buf[i];
      d := d + Magnitude(s, Delta);
      t := t + Magnitude(s, Theta);
      a := a + Magnitude(s, Alpha);
      be := be + Magnitude(s, Beta);
      g := g + Magnitude(s, Gamma);
    }
    assert buf[..|buf|] == buf;
    var n := |buf| as real;
    avg := BandPowers(d / n, t / n, a / n, be / n, g / n);
  }

  /** `smooth`: the arithmetic mean of a non-empty list (reduce, then divide). */
  method Smooth(xs: seq<real>) returns (m: real)
    requires xs != []
    ensures m == Mean(xs)
  {
    var sum := 0.0;
    for i := 0 to |xs|
      invariant sum == Sum(xs[..i])
    {
      assert xs[..i + 1][..i] == xs[..i];
      sum := sum + xs[i];
    }
    assert xs[..|xs|] == xs;
    m := sum / |xs| as real;
  }

  /** The analyzer's module-level state: the sample window. */
  class Analyzer {
    var buffer: seq<Sample>
    /** Every sample ever ingested, oldest first. */
    ghost var history: seq<Sample>

    ghost predicate Valid()
      reads this
    {
      buffer == Fifo.Recent(history, MaxBuf)
    }

    constructor ()
      ensures Valid() && history == [] && buffer == []
    {
      buffer := [];
      history := [];
    }

    /** The `eeg:data` handler; returns the `analyzer:data` payload it dispatches. */
    method Ingest(d: Sample) returns (agg: Aggregate)
      requires Valid()
      modifies this
      ensures Valid() && history == old(history) + [d]
      ensures buffer == Fifo.Push(old(buffer), d, MaxBuf)
      ensures |buffer| == Min(|history|, MaxBuf) && buffer[|buffer| - 1] == d
      ensures agg == Summarize(buffer)
    {
      buffer := buffer + [d];
      if |buffer| > MaxBuf {
        buffer := buffer[1..];
      }
      Fifo.PushKeepsRecent(history, d, MaxBuf);
      history := history + [d];
      var bands := AverageBands(buffer);
      var quality := Smooth(Qualities(Fifo.Recent(buffer, QualityWindow)));
      agg := Aggregate(bands, quality);
    }
  }

  /** v added to itself n times. */
  function Repeat(n: nat, v: real): real
  {
    if n == 0 then 0.0 else Repeat(n - 1, v) + v
  }

  lemma {:induction false} RepeatIsProduct(n: nat, v: real)
    ensures Repeat(n, v) == n as real * v
  {
    if n > 0 {
      RepeatIsProduct(n - 1, v);
      assert (n - 1) as real * v + v == n as real * v;
    }
  }

  /** A window in which every sample has the same magnitude `v` in band `b` sums to |buf| copies of `v`. */
  lemma {:induction false} SumAbsConstant(buf: seq<Sample>, b: Band, v: real)
    requires forall i :: 0 <= i < |buf| ==> Magnitude(buf[i], b) == v
    ensures SumAbs(buf, b) == Repeat(|buf|, v)
  {
    if buf != [] {
      SumAbsConstant(buf[..|buf| - 1], b, v);
    }
  }

  lemma MeanAbsConstant(buf: seq<Sample>, b: Band, v: real)
    requires buf != []
    requires forall i :: 0 <= i < |buf| ==> Magnitude(buf[i], b) == v
    ensures MeanAbs(buf, b) == v
  {
    SumAbsConstant(buf, b, v);
    RepeatIsProduct(|buf|, v);
  }

  /** Lower and upper bounds on the elements bound the sum. */
  lemma {:induction false} SumBounds(xs: seq<real>, lo: real, hi: real)
    requires forall i :: 0 <= i < |xs| ==> lo <= xs[i] <= hi
    ensures |xs| as real * lo <= Sum(xs) <= |xs| as real * hi
  {
    if xs != [] {
      SumBounds(xs[..|xs| - 1], lo, hi);
    }
  }

  /** The smoothed quality stays within any range all the window's qualities lie in. */
  lemma QualityWithinBounds(buf: seq<Sample>, lo: real, hi: real)
    requires buf != []
    requires forall i :: 0 <= i < |buf| ==> lo <= buf[i].quality <= hi
    ensures lo <= Summarize(buf).quality <= hi
  {
    RecentQualitiesWithin(buf, lo, hi);
    MeanWithin(Qualities(Fifo.Recent(buf, QualityWindow)), lo, hi);
  }

  /** The newest qualities of a window lie in any range all of its qualities lie in. */
  lemma RecentQualitiesWithin(buf: seq<Sample>, lo: real, hi: real)
    requires forall i :: 0 <= i < |buf| ==> lo <= buf[i].quality <= hi
    ensures var qs := Qualities(Fifo.Recent(buf, QualityWindow));
      forall i :: 0 <= i < |qs| ==> lo <= qs[i] <= hi
  {
    var w := Fifo.Recent(buf, QualityWindow);
    forall i | 0 <= i < |w|
      ensures lo <= w[i].quality <= hi
    {
      assert w[i] == buf[|buf| - |w| + i];
    }
  }

  /** The mean of a non-empty list lies in any range all of its elements lie in. */
  lemma MeanWithin(xs: seq<real>, lo: real, hi: real)
    requires xs != []
    requires forall i :: 0 <= i < |xs| ==> lo <= xs[i] <= hi
    ensures lo <= Mean(xs) <= hi
  {
    SumBounds(xs, lo, hi);
    MeanBetween(Sum(xs), |xs| as real, lo, hi);
  }

  /** Dividing n*lo <= s <= n*hi by a positive n. */
  lemma MeanBetween(s: real, n: real, lo: real, hi: real)
    requires n > 0.0 && n * lo <= s <= n * hi
    ensures lo <= s / n <= hi
  {
    var m := s / n;
    assert s == m * n;
    assert n * (m - lo) >= 0.0;
    assert n * (hi - m) >= 0.0;
  }

  /** A list of identical qualities `q` sums to |xs| copies of `q`. */
  lemma {:induction false} SumConstant(xs: seq<real>, q: real)
    requires forall i :: 0 <= i < |xs| ==> xs[i] == q
    ensures Sum(xs) == Repeat(|xs|, q)
  {
    if xs != [] {
      SumConstant(xs[..|xs| - 1], q);
    }
  }

  /** A window of identical qualities `q` smooths to `q`. */
  lemma QualityConstant(buf: seq<Sample>, q: real)
    requires buf != []
    requires forall i :: 0 <= i < |buf| ==> buf[i].quality == q
    ensures Summarize(buf).quality == q
  {
    var w := Fifo.Recent(buf, QualityWindow);
    var qs := Qualities(w);
    forall i | 0 <= i < |qs|
      ensures qs[i] == q
    {
      assert w[i] == buf[|buf| - |w| + i];
    }
    SumConstant(qs, q);
    RepeatIsProduct(|qs|, q);
  }
}
