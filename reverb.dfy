/** The reverb trainer: a library of named impulse responses loaded
    tolerantly at start-up, full linear convolution of the loaded file with
    the selected one, conditional peak normalisation, and playback truncated
    to the dry file's length. */
module Reverb {
  import opened Signal

  /** One library entry: the name shown in the selector and its file. */
  datatype IrEntry = IrEntry(name: string, path: string)

  /** The library, in the dictionary's insertion order. */
  const IrLibrary: seq<IrEntry> := [
    IrEntry("Sala Pequena", "small_room_ir.wav"),
    IrEntry("Sala Grande", "large_hall_ir.wav"),
    IrEntry("Igreja", "church_ir.wav")
  ]

  /** Dictionary keys are unique. */
  predicate NamesDistinct(library: seq<IrEntry>)
  {
    forall j, k :: 0 <= j < k < |library| ==> library[j].name != library[k].name
  }

  /** The start-up loading loop. `files` maps each path that can be read to
      its decoded samples; reading any other path raises "file not found",
      which skips that entry (and shows a warning, recorded in `missing`)
      while the loop goes on with the next one. */
  method LoadIrs(library: seq<IrEntry>, files: map<string, seq<real>>)
    returns (loaded: map<string, seq<real>>, missing: seq<string>)
    requires NamesDistinct(library)
    ensures forall name :: name in loaded <==>
              exists k :: 0 <= k < |library| && library[k].name == name && library[k].path in files
    ensures forall k :: 0 <= k < |library| && library[k].path in files ==>
              library[k].name in loaded && loaded[library[k].name] == files[library[k].path]
    ensures forall path :: path in missing <==>
              exists k :: 0 <= k < |library| && library[k].path == path && path !in files
  {
    loaded, missing := map[], [];
    var i := 0;
    while i < |library|
      invariant 0 <= i <= |library|
      invariant forall name :: name in loaded <==>
                  exists k :: 0 <= k < i && library[k].name == name && library[k].path in files
      invariant forall k :: 0 <= k < i && library[k].path in files ==>
                  library[k].name in loaded && loaded[library[k].name] == files[library[k].path]
      invariant forall path :: path in missing <==>
                  exists k :: 0 <= k < i && library[k].path == path && path !in files
    {
      var entry := library[i];
      if entry.path in files {
        loaded := loaded[entry.name := files[entry.path]];
      } else {
        missing := missing + [entry.path];
      }
      i := i + 1;
    }
  }

  /** The i-th term of output sample k of the full convolution of a with h. */
  function ConvTerm(a: seq<real>, h: seq<real>, k: int, i: nat): real
    requires i < |a|
  {
    if 0 <= k - i < |h| then a[i] * h[k - i] else 0.0
  }

  /** The sum of the first n terms of output sample k. */
  function ConvSum(a: seq<real>, h: seq<real>, k: int, n: nat): real
    requires n <= |a|
  {
    if n == 0 then 0.0 else ConvSum(a, h, k, n - 1) + ConvTerm(a, h, k, n - 1)
  }

  /** Full linear convolution, `convolve(a, h, mode='full')`: sample k is the
      sum over i of a[i] * h[k - i] for the indices where both exist; an empty
      operand gives an empty result. */
  function Convolve(a: seq<real>, h: seq<real>): (out: seq<real>)
    ensures |out| == if |a| == 0 || |h| == 0 then 0 else |a| + |h| - 1
    ensures forall k :: 0 <= k < |out| ==> out[k] == ConvSum(a, h, k, |a|)
  {
    if |a| == 0 || |h| == 0 then []
    else seq(|a| + |h| - 1, k requires 0 <= k < |a| + |h| - 1 => ConvSum(a, h, k, |a|))
  }

  /** An impulse response that is silence for d samples and then one tap of gain g. */
  function DelayedTap(d: nat, g: real): (h: seq<real>)
    ensures |h| == d + 1 && h[d] == g
    ensures forall j :: 0 <= j < d ==> h[j] == 0.0
  {
    seq(d, _ => 0.0) + [g]
  }

  lemma {:induction false} ConvSumOfDelayedTap(a: seq<real>, d: nat, g: real, k: int, n: nat)
    requires n <= |a|
    ensures ConvSum(a, DelayedTap(d, g), k, n) == if 0 <= k - d < n then a[k - d] * g else 0.0
  {
    if n > 0 {
      ConvSumOfDelayedTap(a, d, g, k, n - 1);
    }
  }

  /** Convolving with a single delayed tap delays the signal by d samples and
      scales it by g: the echo of a single reflection. */
  lemma ConvolveWithDelayedTap(a: seq<real>, d: nat, g: real)
    requires |a| > 0
    ensures var out := Convolve(a, DelayedTap(d, g));
            && |out| == |a| + d
            && (forall k :: 0 <= k < d ==> out[k] == 0.0)
            && (forall k :: d <= k < |a| + d ==> out[k] == a[k - d] * g)
  {
    var out := Convolve(a, DelayedTap(d, g));
    forall k | 0 <= k < |out| ensures out[k] == if d <= k then a[k - d] * g else 0.0 {
      ConvSumOfDelayedTap(a, d, g, k, |a|);
    }
  }

  /** The unit impulse is the identity of convolution. */
  lemma ConvolveWithUnitImpulse(a: seq<real>)
    ensures Convolve(a, [1.0]) == a
  {
    if |a| > 0 {
      ConvolveWithDelayedTap(a, 0, 1.0);
      assert DelayedTap(0, 1.0) == [1.0];
    }
  }

  lemma {:induction false} ConvSumScaled(a: seq<real>, h: seq<real>, c: real, k: int, n: nat)
    requires n <= |a|
    ensures ConvSum(a, Scale(h, c), k, n) == c * ConvSum(a, h, k, n)
  {
    if n > 0 {
      ConvSumScaled(a, h, c, k, n - 1);
      var i := n - 1;
      if 0 <= k - i < |h| {
        assert ConvTerm(a, Scale(h, c), k, i) == a[i] * (h[k - i] * c);
        Rearrange(a[i], h[k - i], c);
      }
      DistributeSum(c, ConvSum(a, h, k, n - 1), ConvTerm(a, h, k, i));
    }
  }

  lemma Rearrange(x: real, y: real, c: real)
    ensures x * (y * c) == c * (x * y)
  {
  }

  lemma DistributeSum(c: real, x: real, y: real)
    ensures c * x + c * y == c * (x + y)
  {
  }

  /** Convolution is linear in the impulse response: scaling the IR scales
      the reverberated signal by the same factor. */
  lemma ConvolveScaledIr(a: seq<real>, h: seq<real>, c: real)
    ensures Convolve(a, Scale(h, c)) == Scale(Convolve(a, h), c)
  {
    var lhs, rhs := Convolve(a, Scale(h, c)), Scale(Convolve(a, h), c);
    assert |lhs| == |rhs|;
    forall k | 0 <= k < |lhs| ensures lhs[k] == rhs[k] {
      ConvSumScaled(a, h, c, k, |a|);
    }
  }

  /** The reverberated buffer of one selection: the full convolution,
      normalised only if it would clip. */
  function ReverbTrial(audio: seq<real>, ir: seq<real>): (reverbed: seq<real>)
    requires |audio| > 0 && |ir| > 0
    ensures |reverbed| == |audio| + |ir| - 1
    ensures |reverbed| >= |audio|
    ensures Peak(reverbed) <= 1.0
    ensures Peak(Convolve(audio, ir)) <= 1.0 ==> reverbed == Convolve(audio, ir)
    ensures Peak(Convolve(audio, ir)) > 1.0 ==> Peak(reverbed) == 1.0
    ensures Peak(Convolve(audio, ir)) > 1.0 ==> forall k :: 0 <= k < |reverbed| ==>
              reverbed[k] == Convolve(audio, ir)[k] / Peak(Convolve(audio, ir))
  {
    NormalizeIfLoud(Convolve(audio, ir))
  }

  /** `reverbed[:len(audio)]` with Python's clamping: the first |audio|
      samples, or all of them when the buffer is shorter. */
  function Truncate(reverbed: seq<real>, n: nat): (playback: seq<real>)
    ensures playback <= reverbed
    ensures n <= |reverbed| ==> |playback| == n
    ensures n >= |reverbed| ==> playback == reverbed
  {
    if n < |reverbed| then reverbed[..n] else reverbed
  }

  /** With the unit impulse as IR, the played buffer is the dry file itself,
      normalised only if it would clip. */
  lemma UnitImpulsePlaysDry(audio: seq<real>)
    requires |audio| > 0
    ensures Truncate(ReverbTrial(audio, [1.0]), |audio|) == NormalizeIfLoud(audio)
  {
    ConvolveWithUnitImpulse(audio);
  }

  /** The trainer's window state. */
  class ReverbTrainer {
    var irLibrary: seq<IrEntry>
    var loadedIrs: map<string, seq<real>>
    var missingFiles: seq<string>
    var audioData: seq<real>
    var sampleRate: nat
    var fileLoaded: bool
    var reverbedAudio: Option<seq<real>>

    ghost predicate Valid()
      reads this
    {
      && irLibrary == IrLibrary
      && (forall name :: name in loadedIrs ==> |loadedIrs[name]| > 0)
      && (forall name :: name in loadedIrs ==> exists k :: 0 <= k < |irLibrary| && irLibrary[k].name == name)
      && (reverbedAudio.Some? ==> Peak(reverbedAudio.value) <= 1.0)
    }

    /** Start-up: load every library entry whose file can be read. */
    constructor (files: map<string, seq<real>>)
      requires forall path :: path in files ==> |files[path]| > 0
      ensures Valid() && !fileLoaded && reverbedAudio == None
      ensures forall k :: 0 <= k < |IrLibrary| ==> (IrLibrary[k].name in loadedIrs <==> IrLibrary[k].path in files)
      ensures forall k :: 0 <= k < |IrLibrary| && IrLibrary[k].path in files ==>
                loadedIrs[IrLibrary[k].name] == files[IrLibrary[k].path]
      ensures forall path :: path in missingFiles <==>
                exists k :: 0 <= k < |IrLibrary| && IrLibrary[k].path == path && path !in files
    {
      var loaded, missing := LoadIrs(IrLibrary, files);
      irLibrary, loadedIrs, missingFiles := IrLibrary, loaded, missing;
      audioData, sampleRate, fileLoaded := [], 0, false;
      reverbedAudio := None;
    }

    /** A chosen file replaces the dry buffer (downmixed to mono); the last
        reverberated buffer is kept as it was. */
    method OpenFile(file: Decoded, rate: nat)
      requires Valid() && WellFormed(file) && rate > 0
      modifies this`audioData, this`sampleRate, this`fileLoaded
      ensures Valid() && fileLoaded
      ensures audioData == ToMono(file) && sampleRate == rate
    {
      audioData, sampleRate := ToMono(file), rate;
      fileLoaded := true;
    }

    /** The selector changed: convolve with the selected IR if it was loaded,
        otherwise leave the reverberated buffer as it was. */
    method ApplyReverb(reverbType: string)
      requires Valid()
      requires reverbType in loadedIrs ==> fileLoaded && |audioData| > 0
      modifies this`reverbedAudio
      ensures Valid()
      ensures reverbType !in loadedIrs ==> reverbedAudio == old(reverbedAudio)
      ensures reverbType in loadedIrs ==>
                reverbedAudio == Some(ReverbTrial(audioData, loadedIrs[reverbType]))
    {
      if reverbType in loadedIrs {
        var ir := loadedIrs[reverbType];
        reverbedAudio := Some(NormalizeIfLoud(Convolve(audioData, ir)));
      }
    }

    /** The buffer sent to playback: nothing before the first reverberation,
        else the reverberated buffer cut to the dry buffer's length. */
    method PlayReverbed() returns (playback: Option<seq<real>>)
      requires Valid()
      ensures playback.Some? <==> reverbedAudio.Some?
      ensures playback.Some? ==> playback.value <= reverbedAudio.value
      ensures playback.Some? && |reverbedAudio.value| >= |audioData| ==> |playback.value| == |audioData|
      ensures playback.Some? && |reverbedAudio.value| < |audioData| ==> playback.value == reverbedAudio.value
    {
      match reverbedAudio
      case None => playback := None;
      case Some(reverbed) => playback := Some(Truncate(reverbed, |audioData|));
    }
  }
}
