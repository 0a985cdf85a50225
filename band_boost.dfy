/** The frequency-band trainer: ten fixed bands (the last one clamped below
    Nyquist), a random band boosted by 12 dB through a Butterworth band-pass
    and mixed back into the clip, normalised only when the mix would clip,
    and a guess judged by exact band index. The filter itself is a library
    call; its output enters the model as a parameter of the clip's length. */
module BandBoost {
  import opened Signal
  import opened Clip

  /** A frequency band in Hz. */
  datatype Band = Band(low: real, high: real)

  /** Band edges divided by Nyquist, as the filter design receives them. */
  datatype Edges = Edges(low: real, high: real)

  const BandCount: nat := 10

  /** Lower clamp of a normalised edge. */
  const MinEdge: real := 0.00001

  /** Upper clamp of a normalised edge. */
  const MaxEdge: real := 0.99999

  /** The boost in dB, and its linear gain 10^(12/20) rounded to the double
      the source computes; the proofs rely only on its being positive. */
  const BoostDb: int := 12
  const BoostGain: real := 3.981071705534972

  function Nyquist(sampleRate: nat): (ny: real)
    requires sampleRate > 0
    ensures ny > 0.0
    ensures 2.0 * ny == sampleRate as real
  {
    sampleRate as real / 2.0
  }

  /** The band table built when a file is opened: ten contiguous bands from
      20 Hz upwards whose last upper edge is min(20000, nyquist - 1). */
  function PrepareBands(sampleRate: nat): (bands: seq<Band>)
    requires sampleRate > 0
    ensures |bands| == BandCount
    ensures bands[0].low == 20.0 && bands[BandCount - 1].low == 15000.0
    ensures forall k :: 0 <= k < BandCount - 1 ==> bands[k].high == bands[k + 1].low
    ensures forall k :: 0 <= k < BandCount - 1 ==> bands[k].low < bands[k].high
    ensures bands[BandCount - 1].high == Min(20000.0, Nyquist(sampleRate) - 1.0)
    ensures bands[BandCount - 1].high < Nyquist(sampleRate)
  {
    var nyquist := Nyquist(sampleRate);
    [ Band(20.0, 60.0),
      Band(60.0, 250.0),
      Band(250.0, 500.0),
      Band(500.0, 1000.0),
      Band(1000.0, 2000.0),
      Band(2000.0, 4000.0),
      Band(4000.0, 6000.0),
      Band(6000.0, 10000.0),
      Band(10000.0, 15000.0),
      Band(15000.0, Min(20000.0, nyquist - 1.0)) ]
  }

  /** Only the last band depends on the sample rate: the first nine are the
      same table at every rate. */
  lemma FixedBandsIndependentOfRate(rate1: nat, rate2: nat)
    requires rate1 > 0 && rate2 > 0
    ensures PrepareBands(rate1)[..BandCount - 1] == PrepareBands(rate2)[..BandCount - 1]
    ensures PrepareBands(rate1)[BandCount - 1].low == PrepareBands(rate2)[BandCount - 1].low
  {
  }

  /** The last band is a proper band (low < high) exactly when
      nyquist - 1 exceeds 15000 Hz; at lower sample rates it collapses. */
  lemma LastBandWellOrderedIff(sampleRate: nat)
    requires sampleRate > 0
    ensures var last := PrepareBands(sampleRate)[BandCount - 1];
            last.low < last.high <==> Nyquist(sampleRate) - 1.0 > 15000.0
  {
  }

  /** Band edges divided by Nyquist, the low edge raised to at least 1e-5 and
      the high edge lowered to at most 0.99999. */
  function NormalizedEdges(band: Band, sampleRate: nat): (e: Edges)
    requires sampleRate > 0
    ensures e.low >= MinEdge && e.high <= MaxEdge
    ensures e.low >= band.low / Nyquist(sampleRate) && e.high <= band.high / Nyquist(sampleRate)
    ensures band.low / Nyquist(sampleRate) >= MinEdge ==> e.low == band.low / Nyquist(sampleRate)
    ensures band.high / Nyquist(sampleRate) <= MaxEdge ==> e.high == band.high / Nyquist(sampleRate)
    ensures band.low / Nyquist(sampleRate) < MinEdge ==> e.low == MinEdge
    ensures band.high / Nyquist(sampleRate) > MaxEdge ==> e.high == MaxEdge
  {
    var nyquist := Nyquist(sampleRate);
    Edges(Max(band.low / nyquist, MinEdge), Min(band.high / nyquist, MaxEdge))
  }

  /** Edges a band-pass design accepts: strictly inside (0, 1) and in order.
      Outside this the design call raises instead of returning a filter. */
  predicate DesignAccepts(e: Edges)
  {
    0.0 < e.low < e.high < 1.0
  }

  /** The last band can be designed exactly when nyquist - 1 > 15000 Hz, i.e.
      for sample rates above 30002 Hz; at 22050 Hz or 30000 Hz it cannot.
      (Above 4 GHz the clamped low edge would overtake 20000 / nyquist.) */
  lemma LastBandDesignableIff(sampleRate: nat)
    requires 0 < sampleRate < 4000000000
    ensures DesignAccepts(NormalizedEdges(PrepareBands(sampleRate)[BandCount - 1], sampleRate))
            <==> Nyquist(sampleRate) - 1.0 > 15000.0
  {
    var ny := Nyquist(sampleRate);
    var band := PrepareBands(sampleRate)[BandCount - 1];
    if ny - 1.0 > 15000.0 {
      assert MinEdge * ny < band.high;
      BandDesignable(band, sampleRate);
    } else {
      QuotientAtMost(band.high, 15000.0, ny);
    }
  }

  /** A band with edges in order, whose low edge lies below 15000 Hz and
      below MaxEdge * nyquist and whose high edge lies above MinEdge * nyquist,
      survives the clamping in order and strictly inside (0, 1). */
  lemma BandDesignable(band: Band, sampleRate: nat)
    requires sampleRate > 0
    requires 0.0 < band.low < band.high && band.low <= 15000.0 < Nyquist(sampleRate) - 1.0
    requires MinEdge * Nyquist(sampleRate) < band.high
    ensures DesignAccepts(NormalizedEdges(band, sampleRate))
  {
    var ny := Nyquist(sampleRate);
    QuotientLess(band.low, band.high, ny);
    QuotientLess(band.low, MaxEdge * ny, ny);
    ScaledQuotient(MaxEdge, ny);
    QuotientLess(MinEdge * ny, band.high, ny);
    ScaledQuotient(MinEdge, ny);
    QuotientLess(0.0, band.low, ny);
  }

  /** For every common sample rate above 30002 Hz (up to 12 MHz, where the
      clamped low edge would overtake 60 / nyquist) all ten bands can be designed. */
  lemma AllBandsDesignable(sampleRate: nat)
    requires 30002 < sampleRate < 12000000
    ensures forall k :: 0 <= k < BandCount ==>
              DesignAccepts(NormalizedEdges(PrepareBands(sampleRate)[k], sampleRate))
  {
    var bands := PrepareBands(sampleRate);
    var ny := Nyquist(sampleRate);
    forall k | 0 <= k < BandCount
      ensures DesignAccepts(NormalizedEdges(bands[k], sampleRate))
    {
      assert MinEdge * ny < 60.0 <= bands[k].high;
      BandDesignable(bands[k], sampleRate);
    }
  }

  lemma ScaledQuotient(c: real, d: real)
    requires d > 0.0
    ensures c * d / d == c
  {
  }

  lemma QuotientLess(x: real, y: real, d: real)
    requires d > 0.0 && x < y
    ensures x / d < y / d
  {
    assert y / d - x / d == (y - x) / d;
  }

  lemma QuotientAtMost(x: real, y: real, d: real)
    requires d > 0.0 && x <= y
    ensures x / d <= y / d
  {
    assert y / d - x / d == (y - x) / d;
  }

  /** `audio_data + filtered_audio * 10**(12/20)`: the clip with the boosted
      in-band component added, sample by sample. */
  function Mix(audio: seq<real>, filtered: seq<real>): (mixed: seq<real>)
    requires |filtered| == |audio|
    ensures |mixed| == |audio|
    ensures forall i :: 0 <= i < |audio| ==> mixed[i] - audio[i] == BoostGain * filtered[i]
  {
    var boosted := Scale(filtered, BoostGain);
    seq(|audio|, i requires 0 <= i < |audio| => audio[i] + boosted[i])
  }

  /** The modified buffer of one trial: the mix, normalised only if it would clip. */
  function BoostTrial(audio: seq<real>, filtered: seq<real>): (modified: seq<real>)
    requires |filtered| == |audio|
    ensures |modified| == |audio|
    ensures Peak(modified) <= 1.0
    ensures Peak(Mix(audio, filtered)) <= 1.0 ==> modified == Mix(audio, filtered)
    ensures Peak(Mix(audio, filtered)) > 1.0 ==> Peak(modified) == 1.0
    ensures Peak(Mix(audio, filtered)) > 1.0 ==> forall i :: 0 <= i < |audio| ==>
              modified[i] == Mix(audio, filtered)[i] / Peak(Mix(audio, filtered))
  {
    NormalizeIfLoud(Mix(audio, filtered))
  }

  lemma MixOfSilence(audio: seq<real>, filtered: seq<real>)
    requires |filtered| == |audio|
    requires forall i :: 0 <= i < |filtered| ==> filtered[i] == 0.0
    ensures Mix(audio, filtered) == audio
  {
    var mixed := Mix(audio, filtered);
    forall i | 0 <= i < |audio| ensures mixed[i] == audio[i] {
      assert BoostGain * filtered[i] == 0.0;
    }
  }

  /** A band whose filter passes nothing leaves a clip that already fits unchanged. */
  lemma SilentBandLeavesClip(audio: seq<real>, filtered: seq<real>)
    requires |filtered| == |audio| && Peak(audio) <= 1.0
    requires forall i :: 0 <= i < |filtered| ==> filtered[i] == 0.0
    ensures BoostTrial(audio, filtered) == audio
  {
    MixOfSilence(audio, filtered);
  }

  /** The trainer's window state. A trial (clip, altered band, modified
      buffer) exists once a file has been opened. */
  class EarTrainer {
    var fullAudio: seq<real>
    var sampleRate: nat
    var fileLoaded: bool
    var bands: seq<Band>
    var clipStart: nat
    var audioData: seq<real>
    var originalClip: seq<real>
    var alteredBand: int
    var modifiedAudio: Option<seq<real>>

    function Window(): nat
      reads this
    {
      WindowLength(sampleRate)
    }

    /** A file is loaded and its band table is built. */
    ghost predicate Ready()
      reads this
    {
      fileLoaded && sampleRate > 0 && bands == PrepareBands(sampleRate)
    }

    /** The clip half of a trial. */
    ghost predicate ClipReady()
      reads this
    {
      && Ready()
      && ValidStartDraw(|fullAudio|, Window(), clipStart)
      && clipStart == ClipStart(|fullAudio|, Window(), clipStart)
      && audioData == ExtractClip(fullAudio, Window(), clipStart)
      && originalClip == audioData
    }

    ghost predicate Valid()
      reads this
    {
      && (modifiedAudio.Some? ==> Peak(modifiedAudio.value) <= 1.0)
      && (fileLoaded ==> ClipReady() && 0 <= alteredBand < |bands|)
    }

    constructor ()
      ensures Valid() && !fileLoaded && modifiedAudio == None && clipStart == 0
    {
      fullAudio, sampleRate, fileLoaded := [], 0, false;
      bands, clipStart, audioData, originalClip := [], 0, [], [];
      alteredBand, modifiedAudio := 0, None;
    }

    /** A chosen file: downmix to mono, build the band table, start the first
        trial. `designed` is false when the drawn band's edges make the filter
        design raise; the trial then has no fresh modified buffer. */
    method OpenFile(file: Decoded, rate: nat, startDraw: int, bandDraw: int, filtered: seq<real>)
      returns (designed: bool)
      requires Valid() && WellFormed(file) && rate > 0
      requires ValidStartDraw(|ToMono(file)|, WindowLength(rate), startDraw)
      requires 0 <= bandDraw < BandCount
      requires |filtered| == WindowLength(rate)
      modifies this
      ensures fullAudio == ToMono(file) && sampleRate == rate
      ensures Valid() && fileLoaded && bands == PrepareBands(rate)
      ensures clipStart == ClipStart(|fullAudio|, Window(), startDraw)
      ensures alteredBand == bandDraw
      ensures designed <==> DesignAccepts(NormalizedEdges(bands[bandDraw], rate))
      ensures designed ==> modifiedAudio == Some(BoostTrial(audioData, filtered))
      ensures !designed ==> modifiedAudio == old(modifiedAudio)
    {
      fullAudio, sampleRate := ToMono(file), rate;
      fileLoaded := true;
      PrepareBandTable();
      designed := NewClip(startDraw, bandDraw, filtered);
    }

    method PrepareBandTable()
      requires fileLoaded && sampleRate > 0 && (modifiedAudio.Some? ==> Peak(modifiedAudio.value) <= 1.0)
      modifies this`bands
      ensures Ready() && bands == PrepareBands(sampleRate)
    {
      bands := PrepareBands(sampleRate);
    }

    /** Cut a new clip at the drawn start and boost the drawn band in it. */
    method NewClip(startDraw: int, bandDraw: int, filtered: seq<real>) returns (designed: bool)
      requires Ready() && (modifiedAudio.Some? ==> Peak(modifiedAudio.value) <= 1.0)
      requires ValidStartDraw(|fullAudio|, Window(), startDraw)
      requires 0 <= bandDraw < |bands|
      requires |filtered| == Window()
      modifies this
      ensures fullAudio == old(fullAudio) && sampleRate == old(sampleRate) && bands == old(bands)
      ensures Valid() && fileLoaded
      ensures clipStart == ClipStart(|fullAudio|, Window(), startDraw)
      ensures |audioData| == Window()
      ensures audioData == ExtractClip(fullAudio, Window(), clipStart)
      ensures originalClip == audioData
      ensures alteredBand == bandDraw
      ensures designed <==> DesignAccepts(NormalizedEdges(bands[bandDraw], sampleRate))
      ensures designed ==> modifiedAudio == Some(BoostTrial(audioData, filtered))
      ensures !designed ==> modifiedAudio == old(modifiedAudio)
    {
      clipStart := ClipStart(|fullAudio|, Window(), startDraw);
      audioData := ExtractClip(fullAudio, Window(), clipStart);
      originalClip := audioData;
      designed := ApplyRandomGain(bandDraw, filtered);
    }

    /** Boost the drawn band: normalise its edges, design the filter (which
        raises for edges it does not accept, after the band was recorded),
        then mix the boosted component in and normalise only if it clips. */
    method ApplyRandomGain(bandDraw: int, filtered: seq<real>) returns (designed: bool)
      requires ClipReady() && (modifiedAudio.Some? ==> Peak(modifiedAudio.value) <= 1.0)
      requires 0 <= bandDraw < |bands|
      requires |filtered| == |audioData|
      modifies this`alteredBand, this`modifiedAudio
      ensures Valid() && fileLoaded
      ensures alteredBand == bandDraw
      ensures designed <==> DesignAccepts(NormalizedEdges(bands[bandDraw], sampleRate))
      ensures designed ==> modifiedAudio == Some(BoostTrial(audioData, filtered))
      ensures !designed ==> modifiedAudio == old(modifiedAudio)
    {
      alteredBand := bandDraw;
      var edges := NormalizedEdges(bands[alteredBand], sampleRate);
      if !DesignAccepts(edges) {
        return false;
      }
      modifiedAudio := Some(NormalizeIfLoud(Mix(audioData, filtered)));
      designed := true;
    }

    /** Judge the combo box's index against the altered band (exact equality),
        then always start a new trial. */
    method CheckAnswer(choice: int, startDraw: int, bandDraw: int, filtered: seq<real>)
      returns (correct: bool, designed: bool)
      requires Valid() && fileLoaded
      requires ValidStartDraw(|fullAudio|, Window(), startDraw)
      requires 0 <= bandDraw < |bands|
      requires |filtered| == Window()
      modifies this
      ensures fullAudio == old(fullAudio) && sampleRate == old(sampleRate) && bands == old(bands)
      ensures correct <==> choice == old(alteredBand)
      ensures Valid() && fileLoaded
      ensures clipStart == ClipStart(|fullAudio|, Window(), startDraw)
      ensures audioData == ExtractClip(fullAudio, Window(), clipStart)
      ensures alteredBand == bandDraw
      ensures designed <==> DesignAccepts(NormalizedEdges(bands[bandDraw], sampleRate))
      ensures designed ==> modifiedAudio == Some(BoostTrial(audioData, filtered))
      ensures !designed ==> modifiedAudio == old(modifiedAudio)
    {
      correct := choice == alteredBand;
      designed := NewClip(startDraw, bandDraw, filtered);
    }
  }
}
