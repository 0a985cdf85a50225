/** The five-second training clip that the panning and band-boost apps cut
    from the loaded file: a start offset (random only when the file is longer
    than one clip) and a window sliced from there, zero-padded to full length. */
module Clip {

  /** Length of every training clip, in seconds. */
  const ClipSeconds: nat := 5

  /** Samples in one clip at the given sample rate. */
  function WindowLength(sampleRate: nat): nat
  {
    ClipSeconds * sampleRate
  }

  /** `max(0, len(source) - window)`: the exclusive upper end of the start draw. */
  function MaxStart(n: nat, window: nat): (m: nat)
    ensures m == 0 <==> n <= window
    ensures m > 0 ==> m + window == n
  {
    if n > window then n - window else 0
  }

  /** A value the random draw `randint(0, max_start)` can return. The draw is
      only made when max_start is positive; otherwise any value is ignored. */
  predicate ValidStartDraw(n: nat, window: nat, draw: int)
  {
    MaxStart(n, window) > 0 ==> 0 <= draw < MaxStart(n, window)
  }

  /** The clip start: 0 when the source fits in one window, else the draw. */
  function ClipStart(n: nat, window: nat, draw: int): (start: nat)
    requires ValidStartDraw(n, window, draw)
    ensures n <= window ==> start == 0
    ensures n > window ==> start == draw
    ensures n > window ==> start < n - window
    ensures n > window ==> start + window < n
  {
    if MaxStart(n, window) <= 0 then 0 else draw
  }

  function Zeros(n: nat): (z: seq<real>)
    ensures |z| == n
    ensures forall i :: 0 <= i < n ==> z[i] == 0.0
  {
    seq(n, _ => 0.0)
  }

  /** `source[start:start+window]`, with Python's clamping of slice bounds,
      right-padded with zeros when shorter than `window`. */
  function ExtractClip(source: seq<real>, window: nat, start: nat): (clip: seq<real>)
    ensures |clip| == window
    ensures forall i :: 0 <= i < window ==>
              clip[i] == if start + i < |source| then source[start + i] else 0.0
  {
    var lo := if start < |source| then start else |source|;
    var hi := if start + window < |source| then start + window else |source|;
    var slice := source[lo..hi];
    if |slice| < window then slice + Zeros(window - |slice|) else slice
  }

  /** When the source is longer than a clip, the clip is a plain window of it:
      no padding is ever added. */
  lemma LongSourceIsWindow(source: seq<real>, window: nat, draw: int)
    requires |source| > window && ValidStartDraw(|source|, window, draw)
    ensures var start := ClipStart(|source|, window, draw);
            ExtractClip(source, window, start) == source[start..start + window]
  {
    var start := ClipStart(|source|, window, draw);
    var clip := ExtractClip(source, window, start);
    assert forall i :: 0 <= i < window ==> clip[i] == source[start..start + window][i];
  }

  /** When the source fits in one clip, the clip is the whole source followed
      by silence (for an empty source: silence only). */
  lemma ShortSourceIsPadded(source: seq<real>, window: nat, draw: int)
    requires |source| <= window && ValidStartDraw(|source|, window, draw)
    ensures ExtractClip(source, window, ClipStart(|source|, window, draw))
            == source + Zeros(window - |source|)
  {
    var clip := ExtractClip(source, window, 0);
    var padded := source + Zeros(window - |source|);
    assert forall i :: 0 <= i < window ==> clip[i] == padded[i];
  }
}
