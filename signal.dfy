/** Sample buffers shared by the three training apps: absolute value, peak,
    conditional peak normalisation ("divide by the peak only when it exceeds
    1.0") and the per-frame channel mean that turns a decoded multi-channel
    file into a mono buffer. Samples are reals; floating point is not modelled. */
module Signal {

  datatype Option<T> = None | Some(value: T)

  /** A file as the audio decoder hands it over: a one-dimensional array of
      samples, or a two-dimensional array of frames with one sample per channel. */
  datatype Decoded = Mono(samples: seq<real>) | Multi(frames: seq<seq<real>>)

  function Abs(x: real): real { if x < 0.0 then -x else x }

  function Max(x: real, y: real): real { if x < y then y else x }

  function Min(x: real, y: real): real { if x < y then x else y }

  /** The largest absolute sample value of a buffer (0.0 for an empty one). */
  function Peak(s: seq<real>): (p: real)
    ensures p >= 0.0
    ensures forall i :: 0 <= i < |s| ==> Abs(s[i]) <= p
    ensures |s| > 0 ==> exists i :: 0 <= i < |s| && Abs(s[i]) == p
    ensures |s| == 0 ==> p == 0.0
  {
    if |s| == 0 then 0.0 else Max(Peak(s[..|s| - 1]), Abs(s[|s| - 1]))
  }

  /** Any value that bounds every sample and is reached by one of them is the peak. */
  lemma PeakUnique(s: seq<real>, p: real, j: int)
    requires 0 <= j < |s| && Abs(s[j]) == p
    requires forall i :: 0 <= i < |s| ==> Abs(s[i]) <= p
    ensures Peak(s) == p
  {
  }

  /** Every sample divided by d, as numpy's in-place `buffer /= d` does. */
  function Divide(s: seq<real>, d: real): (r: seq<real>)
    requires d != 0.0
    ensures |r| == |s|
    ensures forall i :: 0 <= i < |s| ==> r[i] == s[i] / d
  {
    seq(|s|, i requires 0 <= i < |s| => s[i] / d)
  }

  /** Every sample multiplied by g, as numpy's `buffer * g` does. */
  function Scale(s: seq<real>, g: real): (r: seq<real>)
    ensures |r| == |s|
  {
    seq(|s|, i requires 0 <= i < |s| => s[i] * g)
  }

  lemma AbsQuotient(x: real, d: real)
    requires d > 0.0
    ensures Abs(x / d) == Abs(x) / d
  {
    if x < 0.0 {
      assert x / d < 0.0;
      assert -(x / d) == (-x) / d;
    } else {
      assert x / d >= 0.0;
    }
  }

  lemma QuotientMonotone(x: real, y: real, d: real)
    requires d > 0.0 && x <= y
    ensures x / d <= y / d
  {
    assert y / d - x / d == (y - x) / d;
  }

  /** Dividing by a positive d divides the peak by d. */
  lemma {:induction false} PeakDivide(s: seq<real>, d: real)
    requires d > 0.0
    ensures Peak(Divide(s, d)) == Peak(s) / d
  {
    var r := Divide(s, d);
    if |s| == 0 {
      assert r == [];
    } else {
      var j :| 0 <= j < |s| && Abs(s[j]) == Peak(s);
      forall i | 0 <= i < |r|
        ensures Abs(r[i]) <= Peak(s) / d
      {
        AbsQuotient(s[i], d);
        QuotientMonotone(Abs(s[i]), Peak(s), d);
      }
      AbsQuotient(s[j], d);
      PeakUnique(r, Peak(s) / d, j);
    }
  }

  /** Dividing a buffer by its own (positive) peak gives peak exactly 1. */
  lemma PeakDivideBySelf(s: seq<real>)
    requires Peak(s) > 0.0
    ensures Peak(Divide(s, Peak(s))) == 1.0
  {
    var p := Peak(s);
    PeakDivide(s, p);
    SelfQuotient(p);
  }

  lemma SelfQuotient(p: real)
    requires p > 0.0
    ensures p / p == 1.0
  {
  }

  /** Peak normalisation guarded by "only if the peak exceeds 1.0": a loud
      buffer is divided by its peak, one that already fits is returned as is. */
  function NormalizeIfLoud(s: seq<real>): (r: seq<real>)
    ensures |r| == |s|
    ensures Peak(s) <= 1.0 ==> r == s
    ensures Peak(s) > 1.0 ==> forall i :: 0 <= i < |s| ==> r[i] == s[i] / Peak(s)
    ensures Peak(r) <= 1.0
    ensures Peak(s) > 1.0 ==> Peak(r) == 1.0
  {
    if Peak(s) > 1.0 then
      PeakDivideBySelf(s);
      Divide(s, Peak(s))
    else
      s
  }

  /** The sum of a buffer's samples, left to right. */
  function Sum(s: seq<real>): real
  {
    if |s| == 0 then 0.0 else Sum(s[..|s| - 1]) + s[|s| - 1]
  }

  /** The arithmetic mean of one frame's channels, numpy's `mean` over a row. */
  function Mean(frame: seq<real>): (m: real)
    requires |frame| > 0
    ensures m * |frame| as real == Sum(frame)
  {
    Sum(frame) / |frame| as real
  }

  /** A sum of n samples, each at most b in magnitude, is at most n * b in magnitude. */
  lemma {:induction false} SumBounded(s: seq<real>, b: real)
    requires forall i :: 0 <= i < |s| ==> Abs(s[i]) <= b
    ensures Abs(Sum(s)) <= |s| as real * b
  {
    if |s| > 0 {
      var init := s[..|s| - 1];
      SumBounded(init, b);
      var n := |init| as real;
      var x := n * b;
      DistributeOne(n, b);
      assert |s| as real * b == x + b;
    }
  }

  lemma DistributeOne(n: real, b: real)
    ensures (n + 1.0) * b == n * b + b
  {
  }

  /** A sum of n equal samples x is n * x. */
  lemma {:induction false} SumConstant(s: seq<real>, x: real)
    requires forall i :: 0 <= i < |s| ==> s[i] == x
    ensures Sum(s) == |s| as real * x
  {
    if |s| > 0 {
      SumConstant(s[..|s| - 1], x);
    }
  }

  /** The channel mean never exceeds the frame's loudest channel. */
  lemma MeanBounded(frame: seq<real>)
    requires |frame| > 0
    ensures Abs(Mean(frame)) <= Peak(frame)
  {
    MeanBoundedBy(frame, Peak(frame));
  }

  /** The channel mean is bounded by any bound on the channels. */
  lemma MeanBoundedBy(frame: seq<real>, b: real)
    requires |frame| > 0
    requires forall c :: 0 <= c < |frame| ==> Abs(frame[c]) <= b
    ensures Abs(Mean(frame)) <= b
  {
    SumBounded(frame, b);
    QuotientBound(Sum(frame), |frame| as real, b);
  }

  lemma QuotientBound(x: real, n: real, b: real)
    requires n > 0.0 && Abs(x) <= n * b
    ensures Abs(x / n) <= b
  {
    var q := x / n;
    assert x == q * n;
    if q > b {
      assert q * n > b * n;
    } else if -q > b {
      assert -q * n > b * n;
    }
  }

  /** A frame whose channels all carry x has mean x. */
  lemma MeanOfEqualChannels(frame: seq<real>, x: real)
    requires |frame| > 0
    requires forall c :: 0 <= c < |frame| ==> frame[c] == x
    ensures Mean(frame) == x
  {
    SumConstant(frame, x);
  }

  /** Frames of a two-dimensional array: every row has the same, positive width. */
  predicate Rectangular(frames: seq<seq<real>>)
  {
    forall f :: 0 <= f < |frames| ==> |frames[f]| > 0 && |frames[f]| == |frames[0]|
  }

  predicate WellFormed(d: Decoded)
  {
    d.Multi? ==> Rectangular(d.frames)
  }

  /** The buffer the apps work on: a one-dimensional file as it is, a
      two-dimensional one replaced by the mean of its channels, frame by frame. */
  function ToMono(d: Decoded): (mono: seq<real>)
    requires WellFormed(d)
    ensures d.Mono? ==> mono == d.samples
    ensures d.Multi? ==> |mono| == |d.frames|
    ensures d.Multi? ==> forall f :: 0 <= f < |mono| ==> mono[f] == Mean(d.frames[f])
    ensures d.Multi? ==> forall f :: 0 <= f < |mono| ==> Abs(mono[f]) <= Peak(d.frames[f])
  {
    match d
    case Mono(samples) => samples
    case Multi(frames) =>
      var mono := seq(|frames|, f requires 0 <= f < |frames| => Mean(frames[f]));
      assert forall f :: 0 <= f < |mono| ==> Abs(mono[f]) <= Peak(frames[f]) by {
        forall f | 0 <= f < |mono| ensures Abs(mono[f]) <= Peak(frames[f]) {
          MeanBounded(frames[f]);
        }
      }
      mono
  }

  /** A multi-channel file whose channels are identical downmixes to that channel. */
  lemma ToMonoOfIdenticalChannels(frames: seq<seq<real>>, channel: seq<real>)
    requires Rectangular(frames) && |channel| == |frames|
    requires forall f, c :: 0 <= f < |frames| && 0 <= c < |frames[f]| ==> frames[f][c] == channel[f]
    ensures ToMono(Multi(frames)) == channel
  {
    var mono := ToMono(Multi(frames));
    forall f | 0 <= f < |frames| ensures mono[f] == channel[f] {
      MeanOfEqualChannels(frames[f], channel[f]);
    }
  }
}
