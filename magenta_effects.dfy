/** The hand-written sample loops of the two Magenta scripts
    (ml_scripts/magenta_inspired.py and ml_scripts/magenta_transform.py),
    which share them nearly verbatim, and their genre dispatch. Buffers are
    sequences of reals; beat positions are the integers the beat and onset
    detectors report, used directly as sample indices as the scripts do. The
    detectors, pitch shifting and time stretching are parameters. */
module MagentaEffects {
  import opened Text
  import StemEffects

  function Abs(x: real): real { StemEffects.Abs(x) }

  // ---------------------------------------------------------------------
  // The compressor

  /** One sample through `apply_compression(audio, threshold, ratio)`: a
      sample louder than the threshold is scaled by `gain / level`, where
      `gain = threshold + (level - threshold) / ratio`. */
  function CompressSample(x: real, threshold: real, ratio: real): real
    requires threshold >= 0.0 && ratio > 0.0
  {
    var level := Abs(x);
    if level > threshold then
      var gain := threshold + (level - threshold) / ratio;
      x * (gain / level)
    else x
  }

  /** A quiet sample is copied; a loud one keeps its sign and gets the
      magnitude `threshold + (|x| - threshold) / ratio`, which for a ratio of
      at least 1 lies above the threshold and not above `|x|`. */
  lemma CompressSampleContract(x: real, threshold: real, ratio: real)
    requires threshold >= 0.0 && ratio > 0.0
    ensures Abs(x) <= threshold ==> CompressSample(x, threshold, ratio) == x
    ensures Abs(x) > threshold ==>
              (x > 0.0 <==> CompressSample(x, threshold, ratio) > 0.0) &&
              Abs(CompressSample(x, threshold, ratio)) == threshold + (Abs(x) - threshold) / ratio
    ensures Abs(x) > threshold && ratio >= 1.0 ==>
              threshold < Abs(CompressSample(x, threshold, ratio)) <= Abs(x)
  {
    var level := Abs(x);
    if level > threshold {
      var z := level - threshold;
      var gain := threshold + z / ratio;
      assert z / ratio > 0.0;
      ScaledToGain(x, gain);
      if ratio >= 1.0 {
        StemEffects.ShrinkByRatio(z, ratio);
      }
    }
  }

  /** Scaling a sample by `gain / |x|` gives it magnitude `gain` and keeps
      its sign. */
  lemma ScaledToGain(x: real, gain: real)
    requires x != 0.0 && gain > 0.0
    ensures x > 0.0 ==> x * (gain / Abs(x)) == gain
    ensures x < 0.0 ==> x * (gain / Abs(x)) == -gain
  {
    var level := Abs(x);
    var q := gain / level;
    assert q * level == gain;
  }

  /** `apply_compression`: fills a fresh zero buffer sample by sample; the
      input is left as it was. */
  method CompressCopy(audio: seq<real>, threshold: real, ratio: real) returns (compressed: seq<real>)
    requires threshold >= 0.0 && ratio > 0.0
    ensures |compressed| == |audio|
    ensures forall i :: 0 <= i < |audio| ==> compressed[i] == CompressSample(audio[i], threshold, ratio)
  {
    compressed := seq(|audio|, _ => 0.0);
    for i := 0 to |audio|
      invariant |compressed| == |audio|
      invariant forall j :: 0 <= j < i ==> compressed[j] == CompressSample(audio[j], threshold, ratio)
    {
      var level := Abs(audio[i]);
      if level > threshold {
        var gain := threshold + (level - threshold) / ratio;
        compressed := compressed[i := audio[i] * (gain / level)];
      } else {
        compressed := compressed[i := audio[i]];
      }
    }
  }

  // ---------------------------------------------------------------------
  // Python slicing on buffers

  /** `a[s:e]` for non-negative bounds. */
  function Slice(a: seq<real>, s: nat, e: nat): (r: seq<real>)
    ensures |r| <= |a| && (s < |a| ==> s + |r| <= |a|) && (s >= |a| ==> r == [])
    ensures s < e ==> |r| == if s < |a| then MinNat(e, |a|) - s else 0
    ensures forall k :: 0 <= k < |r| ==> s + k < |a| && r[k] == a[s + k]
  {
    var lo, hi := MinNat(s, |a|), MinNat(e, |a|);
    if lo < hi then a[lo..hi] else []
  }

  /** `y[s:s+len(v)] = v`: the assignment goes through when the target slice
      has the length of `v`, and raises otherwise. */
  function Place(y: seq<real>, s: nat, v: seq<real>): (r: Option<seq<real>>)
    ensures r.Some? <==> (|v| == 0 || s + |v| <= |y|)
    ensures r.Some? ==> |r.value| == |y|
    ensures r.Some? ==> forall p :: 0 <= p < |y| && !(s <= p < s + |v|) ==> r.value[p] == y[p]
    ensures r.Some? ==> forall p :: s <= p < s + |v| && p < |y| ==> r.value[p] == v[p - s]
  {
    if |v| == 0 then Some(y)
    else if s + |v| <= |y| then Some(y[..s] + v + y[s + |v|..])
    else None
  }

  // ---------------------------------------------------------------------
  // Swing

  predicate Increasing(beats: seq<nat>) {
    forall i, j :: 0 <= i < j < |beats| ==> beats[i] < beats[j]
  }

  /** Every sample outside `[first, upto)` is still zero. */
  predicate ZeroOutside(y: seq<real>, first: nat, upto: nat) {
    forall p :: 0 <= p < |y| && !(first <= p < upto) ==> y[p] == 0.0
  }

  predicate SegmentCopied(y: seq<real>, audio: seq<real>, s: nat, e: nat)
    requires |y| == |audio|
  {
    forall p :: s <= p < e && p < |y| ==> y[p] == audio[p]
  }

  /** The segments starting at even beats below `k` hold the input. */
  predicate EvenSegmentsCopied(y: seq<real>, audio: seq<real>, beats: seq<nat>, k: nat)
    requires |y| == |audio| && k < |beats|
  {
    forall j :: 0 <= j < k && j % 2 == 0 ==> SegmentCopied(y, audio, beats[j], beats[j + 1])
  }

  /** `audio[beats[i]:beats[i+1]]`, the segment between two neighbouring
      beats. */
  function Segment(audio: seq<real>, beats: seq<nat>, i: nat): seq<real>
    requires i + 1 < |beats|
  {
    Slice(audio, beats[i], beats[i + 1])
  }

  /** An odd segment time stretched (`stretch`, `None` when it raises) and
      cut to the gap between its beats, `stretched[:target_len]`. */
  function Stretched(audio: seq<real>, beats: seq<nat>, i: nat, stretch: seq<real> -> Option<seq<real>>): Option<seq<real>>
    requires Increasing(beats) && i + 1 < |beats|
  {
    match stretch(Segment(audio, beats, i))
    case None => None
    case Some(t) => Some(t[..MinNat(|t|, beats[i + 1] - beats[i])])
  }

  /** The stretch of odd segment `i` succeeds and its write fits the
      buffer. */
  predicate OddFits(audio: seq<real>, beats: seq<nat>, i: nat, stretch: seq<real> -> Option<seq<real>>)
    requires Increasing(beats) && i + 1 < |beats|
  {
    match Stretched(audio, beats, i, stretch)
    case None => false
    case Some(v) => |v| == 0 || beats[i] + |v| <= |audio|
  }

  /** What the buffer holds over odd segment `j` when the loop is done: the
      stretched segment followed by the zeros it did not reach, or, when the
      stretch failed, the input as it was. */
  predicate OddSegmentWritten(y: seq<real>, audio: seq<real>, beats: seq<nat>, j: nat, stretch: seq<real> -> Option<seq<real>>)
    requires Increasing(beats) && j + 1 < |beats| && |y| == |audio|
  {
    match Stretched(audio, beats, j, stretch)
    case Some(v) =>
      if OddFits(audio, beats, j, stretch) then
        (forall p :: beats[j] <= p < beats[j] + |v| && p < |y| ==> y[p] == v[p - beats[j]]) &&
        (forall p :: beats[j] + |v| <= p < beats[j + 1] && p < |y| ==> y[p] == 0.0)
      else SegmentCopied(y, audio, beats[j], beats[j + 1])
    case None => SegmentCopied(y, audio, beats[j], beats[j + 1])
  }

  /** The odd segments below `k` hold what OddSegmentWritten says. */
  predicate OddSegmentsWritten(y: seq<real>, audio: seq<real>, beats: seq<nat>, k: nat, stretch: seq<real> -> Option<seq<real>>)
    requires Increasing(beats) && k < |beats| && |y| == |audio|
  {
    forall j :: 0 <= j < k && j % 2 == 1 ==> OddSegmentWritten(y, audio, beats, j, stretch)
  }

  /** `apply_swing`. With fewer than four beats the input comes back as it
      is. Otherwise a zero buffer receives, for each pair of neighbouring
      beats, the segment between them: as it is for even pairs, time
      stretched and cut to the segment for odd ones. In
      magenta_inspired.py (`guarded`) an odd segment whose stretch or write
      raises is copied as it is; in magenta_transform.py the exception
      escapes, so the result is `None` exactly when some odd segment does
      not fit. */
  method Swing(audio: seq<real>, beats: seq<nat>, stretch: seq<real> -> Option<seq<real>>, guarded: bool)
    returns (out: Option<seq<real>>)
    requires Increasing(beats)
    ensures |beats| < 4 ==> out == Some(audio)
    ensures guarded ==> out.Some?
    ensures |beats| >= 4 ==>
              (out.None? <==> !guarded && exists j :: 0 <= j < |beats| - 1 && j % 2 == 1 && !OddFits(audio, beats, j, stretch))
    ensures out.Some? ==> |out.value| == |audio|
    ensures |beats| >= 4 && out.Some? ==>
              ZeroOutside(out.value, beats[0], beats[|beats| - 1]) &&
              EvenSegmentsCopied(out.value, audio, beats, |beats| - 1) &&
              OddSegmentsWritten(out.value, audio, beats, |beats| - 1, stretch)
  {
    if |beats| < 4 {
      return Some(audio);
    }
    var y := seq(|audio|, _ => 0.0);
    var i := 0;
    while i < |beats| - 1
      invariant 0 <= i <= |beats| - 1 && |y| == |audio|
      invariant ZeroOutside(y, beats[0], beats[i])
      invariant EvenSegmentsCopied(y, audio, beats, i)
      invariant OddSegmentsWritten(y, audio, beats, i, stretch)
      invariant !guarded ==> forall j :: 0 <= j < i && j % 2 == 1 ==> OddFits(audio, beats, j, stretch)
    {
      var placed := SwingSegment(y, audio, beats, i, stretch, guarded);
      if placed.None? {
        return None;
      }
      SwingStep(y, placed.value, audio, beats, i);
      OddStep(y, placed.value, audio, beats, i, stretch);
      y := placed.value;
      i := i + 1;
    }
    out := Some(y);
  }

  /** The body of the swing loop for the pair of beats `i`, `i + 1`: the
      buffer after the segment's write, or `None` when the write raises. An
      even segment is written as it is; an odd one stretched when that fits,
      otherwise as it is in the guarded variant, and not at all (the
      exception escapes) in the other. */
  method SwingSegment(y: seq<real>, audio: seq<real>, beats: seq<nat>, i: nat,
                      stretch: seq<real> -> Option<seq<real>>, guarded: bool)
    returns (placed: Option<seq<real>>)
    requires Increasing(beats) && i + 1 < |beats| && |y| == |audio|
    ensures i % 2 == 0 ==> placed.Some? && placed == Place(y, beats[i], Segment(audio, beats, i))
    ensures i % 2 == 1 && OddFits(audio, beats, i, stretch) ==>
              placed.Some? && placed == Place(y, beats[i], Stretched(audio, beats, i, stretch).value)
    ensures i % 2 == 1 && !OddFits(audio, beats, i, stretch) ==>
              placed == if guarded then Place(y, beats[i], Segment(audio, beats, i)) else None
    ensures guarded ==> placed.Some?
    ensures placed.Some? ==> |placed.value| == |y|
    ensures placed.Some? ==> forall p :: 0 <= p < |y| && !(beats[i] <= p < beats[i + 1]) ==> placed.value[p] == y[p]
    ensures placed.Some? && i % 2 == 0 ==>
              forall p :: beats[i] <= p < beats[i + 1] && p < |y| ==> placed.value[p] == audio[p]
  {
    var start, end := beats[i], beats[i + 1];
    var segment := Slice(audio, start, end);
    if i % 2 == 0 {
      return Place(y, start, segment);
    }
    var stretched := stretch(segment);
    placed := None;
    if stretched.Some? {
      var targetLen := MinNat(|stretched.value|, end - start);
      placed := Place(y, start, stretched.value[..targetLen]);
    }
    if placed.None? && guarded {
      placed := Place(y, start, segment);
    }
  }

  /** One pass of the swing loop keeps the loop's invariant: it writes only
      inside the current segment, and on an even pair it writes the input. */
  lemma SwingStep(y: seq<real>, y': seq<real>, audio: seq<real>, beats: seq<nat>, i: nat)
    requires Increasing(beats) && i + 1 < |beats| && |y| == |audio| && |y'| == |y|
    requires forall p :: 0 <= p < |y| && !(beats[i] <= p < beats[i + 1]) ==> y'[p] == y[p]
    requires i % 2 == 0 ==> forall p :: beats[i] <= p < beats[i + 1] && p < |y| ==> y'[p] == audio[p]
    requires ZeroOutside(y, beats[0], beats[i])
    requires EvenSegmentsCopied(y, audio, beats, i)
    ensures ZeroOutside(y', beats[0], beats[i + 1])
    ensures EvenSegmentsCopied(y', audio, beats, i + 1)
  {
    forall j | 0 <= j < i + 1 && j % 2 == 0
      ensures SegmentCopied(y', audio, beats[j], beats[j + 1])
    {
      if j < i {
        assert SegmentCopied(y, audio, beats[j], beats[j + 1]);
        if j + 1 < i {
          assert beats[j + 1] < beats[i];
        }
      }
    }
    if i > 0 {
      assert beats[0] < beats[i];
    }
  }

  /** One pass of the swing loop keeps what the odd segments already
      written hold, and leaves the current odd segment as OddSegmentWritten
      describes: its write lands on zeros. */
  lemma OddStep(y: seq<real>, y': seq<real>, audio: seq<real>, beats: seq<nat>, i: nat,
                stretch: seq<real> -> Option<seq<real>>)
    requires Increasing(beats) && i + 1 < |beats| && |y| == |audio| && |y'| == |y|
    requires forall p :: 0 <= p < |y| && !(beats[i] <= p < beats[i + 1]) ==> y'[p] == y[p]
    requires i % 2 == 1 && OddFits(audio, beats, i, stretch) ==>
               Some(y') == Place(y, beats[i], Stretched(audio, beats, i, stretch).value)
    requires i % 2 == 1 && !OddFits(audio, beats, i, stretch) ==>
               Some(y') == Place(y, beats[i], Segment(audio, beats, i))
    requires ZeroOutside(y, beats[0], beats[i])
    requires OddSegmentsWritten(y, audio, beats, i, stretch)
    ensures OddSegmentsWritten(y', audio, beats, i + 1, stretch)
  {
    forall j | 0 <= j < i + 1 && j % 2 == 1
      ensures OddSegmentWritten(y', audio, beats, j, stretch)
    {
      if j < i {
        assert OddSegmentWritten(y, audio, beats, j, stretch);
        if j + 1 < i {
          assert beats[j + 1] < beats[i];
        }
      } else {
        var seg := Segment(audio, beats, i);
        assert |seg| <= beats[i + 1] - beats[i];
      }
    }
  }

  // ---------------------------------------------------------------------
  // Sidechain envelope

  /** `np.linspace(0.3, 1.0, n)`: `n` evenly spaced values from 0.3 to 1. */
  function Linspace(n: nat, k: nat): real
    requires k < n
  {
    if n == 1 then 0.3 else 0.3 + k as real * (0.7 / (n - 1) as real)
  }

  lemma LinspaceBounds(n: nat, k: nat)
    requires k < n
    ensures 0.3 <= Linspace(n, k) <= 1.0
  {
    if n > 1 {
      var step := 0.7 / (n - 1) as real;
      assert step * (n - 1) as real == 0.7;
      assert k as real * step <= (n - 1) as real * step;
    }
  }

  lemma SquareBounds(v: real)
    requires 0.3 <= v <= 1.0
    ensures 0.09 <= v * v <= 1.0
  {
    assert v * v >= 0.3 * v;
    assert v * v <= 1.0 * v;
  }

  /** `np.linspace(0.3, 1.0, n) ** 2`, the duck curve. */
  function DuckCurve(n: nat): (c: seq<real>)
    ensures |c| == n
    ensures forall k :: 0 <= k < n ==> 0.09 <= c[k] <= 1.0
  {
    var c := seq(n, k requires 0 <= k < n => Linspace(n, k) * Linspace(n, k));
    assert forall k :: 0 <= k < n ==> 0.09 <= c[k] <= 1.0 by {
      forall k | 0 <= k < n ensures 0.09 <= c[k] <= 1.0 {
        LinspaceBounds(n, k);
        SquareBounds(Linspace(n, k));
      }
    }
    c
  }

  /** `int(sr * 0.1)` samples, the duck length. */
  function DuckLength(sr: nat): nat {
    (sr as real * 0.1).Floor
  }

  /** The sample lies under a duck the loop writes: one starting at a beat
      whose duck ends before the buffer does. */
  predicate Ducked(beats: seq<nat>, len: nat, n: nat, p: nat) {
    exists j :: 0 <= j < |beats| && beats[j] + len < n && beats[j] <= p < beats[j] + len
  }

  /** The envelope loop of the electronic style: a buffer of ones over
      which each beat writes the duck curve, provided the duck ends strictly
      before the buffer does. */
  method SidechainEnvelope(n: nat, beats: seq<nat>, sr: nat) returns (envelope: seq<real>)
    ensures |envelope| == n
    ensures forall p :: 0 <= p < n ==> 0.09 <= envelope[p] <= 1.0
    ensures forall p :: 0 <= p < n && !Ducked(beats, DuckLength(sr), n, p) ==> envelope[p] == 1.0
  {
    envelope := seq(n, _ => 1.0);
    var len := DuckLength(sr);
    var curve := DuckCurve(len);
    for j := 0 to |beats|
      invariant |envelope| == n
      invariant forall p :: 0 <= p < n ==> 0.09 <= envelope[p] <= 1.0
      invariant forall p :: 0 <= p < n && !Ducked(beats[..j], len, n, p) ==> envelope[p] == 1.0
    {
      var beatTime := beats[j];
      var before := envelope;
      if beatTime + len < n {
        envelope := envelope[..beatTime] + curve + envelope[beatTime + len..];
      }
      forall p | 0 <= p < n && !Ducked(beats[..j + 1], len, n, p)
        ensures envelope[p] == 1.0
      {
        DuckedGrows(beats, j, len, n, p);
      }
    }
    assert beats[..|beats|] == beats;
  }

  /** A sample under a duck of the first `j` beats, or under the duck of
      beat `j`, is under a duck of the first `j + 1` beats. */
  lemma DuckedGrows(beats: seq<nat>, j: nat, len: nat, n: nat, p: nat)
    requires j < |beats|
    ensures Ducked(beats[..j], len, n, p) ==> Ducked(beats[..j + 1], len, n, p)
    ensures beats[j] + len < n && beats[j] <= p < beats[j] + len ==> Ducked(beats[..j + 1], len, n, p)
  {
    if Ducked(beats[..j], len, n, p) {
      var k :| 0 <= k < j && beats[..j][k] + len < n && beats[..j][k] <= p < beats[..j][k] + len;
      assert beats[..j + 1][k] == beats[..j][k];
    }
    assert beats[..j + 1][j] == beats[j];
  }

  /** `result * envelope` when any onset was found, else the result as it
      is: every sample keeps its sign and between 9% and all of its
      magnitude. */
  method Sidechain(result: seq<real>, beats: seq<nat>, sr: nat) returns (out: seq<real>)
    ensures |out| == |result|
    ensures beats == [] ==> out == result
    ensures forall i :: 0 <= i < |out| ==>
              0.09 * Abs(result[i]) <= Abs(out[i]) <= Abs(result[i]) && (out[i] > 0.0 <==> result[i] > 0.0)
  {
    if |beats| == 0 {
      return result;
    }
    var envelope := SidechainEnvelope(|result|, beats, sr);
    out := seq(|result|, i requires 0 <= i < |result| => result[i] * envelope[i]);
    forall i | 0 <= i < |out|
      ensures 0.09 * Abs(result[i]) <= Abs(out[i]) <= Abs(result[i]) && (out[i] > 0.0 <==> result[i] > 0.0)
    {
      ScaledSample(result[i], envelope[i]);
    }
  }

  lemma ScaledSample(x: real, e: real)
    requires 0.09 <= e <= 1.0
    ensures 0.09 * Abs(x) <= Abs(x * e) <= Abs(x) && (x * e > 0.0 <==> x > 0.0)
  {
    var m := Abs(x);
    var p := m * e;
    ScaledMagnitude(m, e);
    assert x * e == (if x >= 0.0 then p else -p);
    assert Abs(x * e) == p;
  }

  /** A gain in `[0.09, 1]` keeps a magnitude between 9% and all of it. */
  lemma ScaledMagnitude(m: real, e: real)
    requires m >= 0.0 && 0.09 <= e <= 1.0
    ensures 0.09 * m <= m * e <= m && (m > 0.0 ==> m * e > 0.0)
  {
    assert m * 0.09 <= m * e <= m * 1.0;
  }

  // ---------------------------------------------------------------------
  // The synth voices of the electronic style

  function Pow(x: real, k: nat): real {
    if k == 0 then 1.0 else x * Pow(x, k - 1)
  }

  /** The three-voice chorus loop: voice `i` (the harmonic part pitch
      shifted by `0.2 * (i - 1)` semitones, given in `voices`) is added at an
      offset of `int(sr * 0.01 * i)` samples through `y_synth[offset:] +=
      voice[:-offset]`. The first offset is 0, and `voice[:-0]` is empty, so
      the addition raises (`None`) for any non-empty audio. */
  method SynthVoices(harmonic: seq<real>, voices: seq<seq<real>>, sr: nat) returns (synth: Option<seq<real>>)
    requires |voices| == 3 && forall i :: 0 <= i < 3 ==> |voices[i]| == |harmonic|
    ensures synth.None? <==> |harmonic| > 0
    ensures synth.Some? ==> synth.value == []
  {
    var n := |harmonic|;
    var y := seq(n, _ => 0.0);
    for i := 0 to 3
      invariant |y| == n
      invariant i > 0 ==> n == 0
    {
      // int(sr * 0.01 * i), exactly, for a whole-number rate.
      var offset := sr * i / 100;
      var voice := voices[i];
      if offset < |voice| {
        match AddShifted(y, offset, voice, Pow(0.8, i))
        case None => return None;
        case Some(sum) => y := sum;
      }
    }
    synth := Some(Third(y));
  }

  /** `y[offset:] += voice[:-offset] * weight`: the two slices must have
      the same length, and `voice[:-0]` is empty. */
  function AddShifted(y: seq<real>, offset: nat, voice: seq<real>, weight: real): (r: Option<seq<real>>)
    ensures offset == 0 && |y| > 0 ==> r.None?
    ensures r.Some? ==> |r.value| == |y|
  {
    var target := if offset <= |y| then |y| - offset else 0;
    var source := if offset == 0 || offset > |voice| then 0 else |voice| - offset;
    if target == source && offset <= |y| then
      Some(y[..offset] + seq(target, k requires 0 <= k < target => y[offset + k] + voice[k] * weight))
    else if target == source then Some(y)
    else None
  }

  /** `y_synth / n_voices`. */
  function Third(y: seq<real>): (r: seq<real>)
    ensures |r| == |y|
  {
    seq(|y|, k requires 0 <= k < |y| => y[k] / 3.0)
  }

  // ---------------------------------------------------------------------
  // The length gate and the dispatch

  /** The Magenta enhancement step of magenta_transform.py: attempted only
      for audio shorter than a minute (`len(audio) < sr * 60`), and its
      failure leaves the harmonic part as it was. */
  function Enhanced(harmonic: seq<real>, n: nat, sr: nat, enhance: seq<real> -> Option<seq<real>>): seq<real> {
    if n < sr * 60 then
      match enhance(harmonic)
      case Some(e) => e
      case None => harmonic
    else harmonic
  }

  /** An enhancer that hands its input back. */
  function Unchanged(harmonic: seq<real>): Option<seq<real>> {
    Some(harmonic)
  }

  /** The enhancer is consulted only for audio shorter than a minute: for
      longer audio any two enhancers give the same harmonic part, the input.
      An enhancer that raises counts as one that hands its input back, and a
      harmonic part that differs from the input is what a successful
      enhancement of short audio returned. */
  lemma LengthGate(harmonic: seq<real>, n: nat, sr: nat, enhance: seq<real> -> Option<seq<real>>,
                   other: seq<real> -> Option<seq<real>>)
    ensures n >= sr * 60 ==> Enhanced(harmonic, n, sr, enhance) == Enhanced(harmonic, n, sr, other) == harmonic
    ensures enhance(harmonic).None? ==> Enhanced(harmonic, n, sr, enhance) == Enhanced(harmonic, n, sr, Unchanged)
    ensures Enhanced(harmonic, n, sr, enhance) != harmonic ==>
              n < sr * 60 && enhance(harmonic) == Some(Enhanced(harmonic, n, sr, enhance))
  {
  }

  /** The styles both Magenta scripts dispatch to. */
  datatype Style = Jazz | Rock | Electronic | Classical | Default

  function StyleName(s: Style): string {
    match s
    case Jazz => "jazz"
    case Rock => "rock"
    case Electronic => "electronic"
    case Classical => "classical"
    case Default => "default"
  }

  /** The `if`/`elif` chain on `target_genre.lower()`. */
  function StyleOf(genre: string): Style {
    var g := ToLower(genre);
    if g == "jazz" then Jazz
    else if g == "rock" then Rock
    else if g == "electronic" then Electronic
    else if g == "classical" then Classical
    else Default
  }

  /** Each of the four styles is reached by every spelling of its name that
      lower-cases to it, and any other string gets the default style. */
  lemma StyleDispatch(s: Style, genre: string)
    ensures ToLower(genre) == StyleName(s) ==> StyleOf(genre) == s
    ensures StyleOf(StyleName(s)) == s
    ensures StyleOf(ToUpper(StyleName(s))) == s
    ensures StyleOf(genre) != Default ==> ToLower(genre) == StyleName(StyleOf(genre))
  {
    ToLowerForgetsCase(StyleName(s));
    assert ToLower(StyleName(s)) == StyleName(s);
  }
}
