/** The panning trainer: a mono clip is placed at a random stereo position
    in [-100, 100] with linear gains, the stereo buffer is peak-normalised only
    when it would clip, and a guess is judged against a configurable margin. */
module Panning {
  import opened Signal
  import opened Clip

  /** One stereo frame; channel order is fixed (left, right). */
  datatype Frame = Frame(left: real, right: real)

  datatype Gains = Gains(left: real, right: real)

  /** A position the slider and the random draw `randint(-100, 101)` produce. */
  predicate ValidPosition(p: int)
  {
    -100 <= p <= 100
  }

  /** The linear pan law `max(0, (100 -+ p) / 100)`: the two gains always add
      up to 2, their difference grows linearly with the position, a fully
      panned side is silent and the centre plays both channels at unit gain. */
  function PanGains(p: int): (g: Gains)
    requires ValidPosition(p)
    ensures 0.0 <= g.left <= 2.0 && 0.0 <= g.right <= 2.0
    ensures g.left + g.right == 2.0
    ensures g.right - g.left == p as real / 50.0
    ensures p == 100 ==> g.left == 0.0
    ensures p == -100 ==> g.right == 0.0
    ensures p == 0 ==> g.left == 1.0 && g.right == 1.0
  {
    Gains(Max(0.0, (100 - p) as real / 100.0), Max(0.0, (100 + p) as real / 100.0))
  }

  /** `np.stack((clip * left_gain, clip * right_gain), axis=-1)`: one frame per
      clip sample; the channels add up to twice the mono sample and their
      difference is the sample scaled by the position. */
  function Pan(clip: seq<real>, p: int): (frames: seq<Frame>)
    requires ValidPosition(p)
    ensures |frames| == |clip|
    ensures forall i :: 0 <= i < |clip| ==> frames[i].left + frames[i].right == 2.0 * clip[i]
    ensures forall i :: 0 <= i < |clip| ==>
              frames[i].right - frames[i].left == clip[i] * (p as real / 50.0)
  {
    var g := PanGains(p);
    var frames := seq(|clip|, i requires 0 <= i < |clip| => Frame(clip[i] * g.left, clip[i] * g.right));
    forall i | 0 <= i < |clip|
      ensures frames[i].left + frames[i].right == 2.0 * clip[i]
      ensures frames[i].right - frames[i].left == clip[i] * (p as real / 50.0)
    {
      Distribute(clip[i], g.left, g.right);
      Distribute(clip[i], -g.left, g.right);
    }
    frames
  }

  lemma Distribute(x: real, a: real, b: real)
    ensures x * a + x * b == x * (a + b)
  {
  }

  /** The stereo buffer as the flat sample array numpy holds: left and right
      samples interleaved, frame by frame. */
  function Samples(frames: seq<Frame>): (s: seq<real>)
    ensures |s| == 2 * |frames|
    ensures forall i :: 0 <= i < |frames| ==> s[2 * i] == frames[i].left && s[2 * i + 1] == frames[i].right
  {
    seq(2 * |frames|, j requires 0 <= j < 2 * |frames| =>
      if j % 2 == 0 then frames[j / 2].left else frames[j / 2].right)
  }

  /** `np.max(np.abs(panned_audio))`, over both channels. */
  function StereoPeak(frames: seq<Frame>): (p: real)
    ensures p >= 0.0
  {
    Peak(Samples(frames))
  }

  /** The stereo peak is the loudest sample of either channel: it bounds
      both channels of every frame and is reached by one of them. */
  lemma StereoPeakIsLoudestChannel(frames: seq<Frame>)
    ensures forall i :: 0 <= i < |frames| ==>
              Abs(frames[i].left) <= StereoPeak(frames) && Abs(frames[i].right) <= StereoPeak(frames)
    ensures |frames| > 0 ==>
              exists i :: 0 <= i < |frames| && (Abs(frames[i].left) == StereoPeak(frames) || Abs(frames[i].right) == StereoPeak(frames))
  {
    var s := Samples(frames);
    forall i | 0 <= i < |frames|
      ensures Abs(frames[i].left) <= Peak(s) && Abs(frames[i].right) <= Peak(s)
    {
      assert s[2 * i] == frames[i].left && s[2 * i + 1] == frames[i].right;
    }
    if |frames| > 0 {
      var j :| 0 <= j < |s| && Abs(s[j]) == Peak(s);
      var i := j / 2;
      assert s[2 * i] == frames[i].left && s[2 * i + 1] == frames[i].right;
      assert j == 2 * i || j == 2 * i + 1;
    }
  }

  function DivideFrames(frames: seq<Frame>, d: real): (r: seq<Frame>)
    requires d != 0.0
    ensures |r| == |frames|
    ensures Samples(r) == Divide(Samples(frames), d)
  {
    var r := seq(|frames|, i requires 0 <= i < |frames| => Frame(frames[i].left / d, frames[i].right / d));
    assert forall j :: 0 <= j < 2 * |frames| ==> Samples(r)[j] == Divide(Samples(frames), d)[j];
    r
  }

  /** `if max_val > 1.0: panned_audio /= max_val` on the stereo buffer: it is
      the conditional normalisation of the interleaved samples. */
  function NormalizeFramesIfLoud(frames: seq<Frame>): (r: seq<Frame>)
    ensures |r| == |frames|
    ensures Samples(r) == NormalizeIfLoud(Samples(frames))
    ensures StereoPeak(frames) <= 1.0 ==> r == frames
    ensures StereoPeak(frames) > 1.0 ==> forall i :: 0 <= i < |frames| ==>
              r[i] == Frame(frames[i].left / StereoPeak(frames), frames[i].right / StereoPeak(frames))
    ensures StereoPeak(r) <= 1.0
  {
    if StereoPeak(frames) > 1.0 then DivideFrames(frames, StereoPeak(frames)) else frames
  }

  /** The panned buffer of one trial: the clip panned to p, normalised only if loud. */
  function PanTrial(clip: seq<real>, p: int): (frames: seq<Frame>)
    requires ValidPosition(p)
    ensures |frames| == |clip|
    ensures StereoPeak(frames) <= 1.0
    ensures StereoPeak(Pan(clip, p)) <= 1.0 ==> frames == Pan(clip, p)
    ensures StereoPeak(Pan(clip, p)) > 1.0 ==> StereoPeak(frames) == 1.0
    ensures StereoPeak(Pan(clip, p)) > 1.0 ==> forall i :: 0 <= i < |clip| ==>
              frames[i] == Frame(Pan(clip, p)[i].left / StereoPeak(Pan(clip, p)),
                                 Pan(clip, p)[i].right / StereoPeak(Pan(clip, p)))
  {
    NormalizeFramesIfLoud(Pan(clip, p))
  }

  /** Panned hard right, the left channel is silent after normalisation too,
      and hard left silences the right channel. */
  lemma HardPanSilencesOtherSide(clip: seq<real>)
    ensures forall i :: 0 <= i < |clip| ==> PanTrial(clip, 100)[i].left == 0.0
    ensures forall i :: 0 <= i < |clip| ==> PanTrial(clip, -100)[i].right == 0.0
  {
    var right, left := Pan(clip, 100), Pan(clip, -100);
    forall i | 0 <= i < |clip| ensures right[i].left == 0.0 && left[i].right == 0.0 {
      assert right[i].left == clip[i] * PanGains(100).left;
      assert left[i].right == clip[i] * PanGains(-100).right;
    }
    SilentChannelStaysSilent(right, true);
    SilentChannelStaysSilent(left, false);
  }

  /** Normalisation keeps a silent channel silent. */
  lemma SilentChannelStaysSilent(frames: seq<Frame>, leftSide: bool)
    requires forall i :: 0 <= i < |frames| ==> (if leftSide then frames[i].left else frames[i].right) == 0.0
    ensures forall i :: 0 <= i < |frames| ==>
              (if leftSide then NormalizeFramesIfLoud(frames)[i].left else NormalizeFramesIfLoud(frames)[i].right) == 0.0
  {
    var r := NormalizeFramesIfLoud(frames);
    if StereoPeak(frames) > 1.0 {
      var p := StereoPeak(frames);
      forall i | 0 <= i < |frames|
        ensures (if leftSide then r[i].left else r[i].right) == 0.0
      {
        ZeroQuotient(p);
      }
    }
  }

  lemma ZeroQuotient(d: real)
    requires d != 0.0
    ensures 0.0 / d == 0.0
  {
  }

  /** At the centre both channels carry the same signal. */
  lemma CentreIsBalanced(clip: seq<real>)
    ensures forall i :: 0 <= i < |clip| ==> PanTrial(clip, 0)[i].left == PanTrial(clip, 0)[i].right
  {
    var frames := Pan(clip, 0);
    forall i | 0 <= i < |clip| ensures frames[i].left == frames[i].right {
      assert frames[i].right - frames[i].left == clip[i] * 0.0;
    }
  }

  function IntAbs(x: int): nat { if x < 0 then -x else x }

  /** `abs(guess - position) <= error_margin`: a guess is right exactly when it
      lies in the closed interval of the margin around the position. */
  function WithinMargin(guess: int, position: int, margin: int): (correct: bool)
    ensures correct <==> position - margin <= guess <= position + margin
  {
    IntAbs(guess - position) <= margin
  }

  /** The trainer's window state. A trial (clip, position, panned buffer)
      exists once a file has been opened. */
  class PanningTrainer {
    var fullAudio: seq<real>
    var sampleRate: nat
    var fileLoaded: bool
    var clipStart: nat
    var audioData: seq<real>
    var originalClip: seq<real>
    var panningPosition: int
    var pannedAudio: seq<Frame>
    var errorMargin: int

    function Window(): nat
      reads this
    {
      WindowLength(sampleRate)
    }

    /** The clip half of a trial: cut from the loaded file at a start the draw rule allows. */
    ghost predicate ClipReady()
      reads this
    {
      && fileLoaded && sampleRate > 0
      && ValidStartDraw(|fullAudio|, Window(), clipStart)
      && clipStart == ClipStart(|fullAudio|, Window(), clipStart)
      && audioData == ExtractClip(fullAudio, Window(), clipStart)
      && originalClip == audioData
    }

    /** A file is loaded and the settings are in range: a trial can be started. */
    ghost predicate Ready()
      reads this
    {
      1 <= errorMargin <= 50 && fileLoaded && sampleRate > 0
    }

    ghost predicate Valid()
      reads this
    {
      && 1 <= errorMargin <= 50
      && (fileLoaded ==>
            && ClipReady()
            && ValidPosition(panningPosition)
            && pannedAudio == PanTrial(audioData, panningPosition))
    }

    constructor ()
      ensures Valid() && !fileLoaded
      ensures errorMargin == 10 && clipStart == 0
    {
      fullAudio, sampleRate, fileLoaded := [], 0, false;
      clipStart, audioData, originalClip := 0, [], [];
      panningPosition, pannedAudio := 0, [];
      errorMargin := 10;
    }

    /** A chosen file: downmix to mono, then start the first trial. */
    method OpenFile(file: Decoded, rate: nat, startDraw: int, panDraw: int)
      requires Valid() && WellFormed(file) && rate > 0
      requires ValidStartDraw(|ToMono(file)|, WindowLength(rate), startDraw)
      requires ValidPosition(panDraw)
      modifies this
      ensures Valid() && fileLoaded
      ensures fullAudio == ToMono(file) && sampleRate == rate
      ensures clipStart == ClipStart(|fullAudio|, Window(), startDraw)
      ensures panningPosition == panDraw
      ensures errorMargin == old(errorMargin)
    {
      fullAudio, sampleRate := ToMono(file), rate;
      fileLoaded := true;
      NewClip(startDraw, panDraw);
    }

    /** Cut a new clip at the drawn start and pan it to the drawn position. */
    method NewClip(startDraw: int, panDraw: int)
      requires Ready()
      requires ValidStartDraw(|fullAudio|, Window(), startDraw)
      requires ValidPosition(panDraw)
      modifies this
      ensures fullAudio == old(fullAudio) && sampleRate == old(sampleRate)
      ensures errorMargin == old(errorMargin)
      ensures Valid() && fileLoaded
      ensures clipStart == ClipStart(|fullAudio|, Window(), startDraw)
      ensures |audioData| == Window()
      ensures audioData == ExtractClip(fullAudio, Window(), clipStart)
      ensures originalClip == audioData
      ensures panningPosition == panDraw
      ensures pannedAudio == PanTrial(audioData, panDraw)
    {
      clipStart := ClipStart(|fullAudio|, Window(), startDraw);
      audioData := ExtractClip(fullAudio, Window(), clipStart);
      originalClip := audioData;
      ApplyRandomPanning(panDraw);
    }

    /** Pan the current clip to the drawn position; normalise only if it would clip. */
    method ApplyRandomPanning(panDraw: int)
      requires ClipReady() && 1 <= errorMargin <= 50
      requires ValidPosition(panDraw)
      modifies this`panningPosition, this`pannedAudio
      ensures Valid() && fileLoaded
      ensures panningPosition == panDraw
      ensures pannedAudio == PanTrial(audioData, panDraw)
      ensures StereoPeak(pannedAudio) <= 1.0
    {
      panningPosition := panDraw;
      pannedAudio := PanTrial(audioData, panningPosition);
    }

    /** The spin box accepts margins from 1 to 50. */
    method UpdateErrorMargin(value: int)
      requires Valid() && 1 <= value <= 50
      modifies this`errorMargin
      ensures Valid() && errorMargin == value
    {
      errorMargin := value;
    }

    /** Judge the slider's value against the current position, then always
        start a new trial. */
    method CheckAnswer(guess: int, startDraw: int, panDraw: int) returns (correct: bool)
      requires Valid() && fileLoaded
      requires ValidPosition(guess)
      requires ValidStartDraw(|fullAudio|, Window(), startDraw)
      requires ValidPosition(panDraw)
      modifies this
      ensures fullAudio == old(fullAudio) && sampleRate == old(sampleRate)
      ensures errorMargin == old(errorMargin)
      ensures correct <==> IntAbs(guess - old(panningPosition)) <= errorMargin
      ensures Valid() && fileLoaded
      ensures clipStart == ClipStart(|fullAudio|, Window(), startDraw)
      ensures audioData == ExtractClip(fullAudio, Window(), clipStart)
      ensures panningPosition == panDraw && pannedAudio == PanTrial(audioData, panDraw)
    {
      correct := WithinMargin(guess, panningPosition, errorMargin);
      NewClip(startDraw, panDraw);
    }
  }
}
