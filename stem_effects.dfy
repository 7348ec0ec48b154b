/** The sample-buffer helpers shared, word for word, by the three
    stem-separation scripts (ml_scripts/spleeter_transform.py,
    ml_scripts/process_audio.py and ml_scripts/simple_transform.py), and the
    genre dispatch they share. A sample buffer is a sequence (or, where the
    script writes into it in place, an array) of real numbers; the signal
    operations of the audio libraries are not modelled. */
module StemEffects {
  import opened Text
  import opened Broadcast

  /** The compressor's fixed threshold. */
  const Threshold := 0.3

  /** The sample rate the delay assumes. */
  const AssumedRate := 44100.0

  function Abs(x: real): real { if x < 0.0 then -x else x }

  /** What `apply_compression` makes of one sample: samples above the
      threshold in magnitude become `0.3 + (x - 0.3) / ratio`, by the same
      formula whatever their sign; the rest are kept. */
  function Compress(x: real, ratio: real): real
    requires ratio != 0.0
  {
    if Abs(x) > Threshold then Threshold + (x - Threshold) / ratio else x
  }

  /** `apply_compression(audio, ratio)`: overwrites the over-threshold
      samples of the very buffer it is given and hands that buffer back. */
  method ApplyCompression(audio: array<real>, ratio: real) returns (r: array<real>)
    requires ratio != 0.0
    modifies audio
    ensures r == audio
    ensures forall i :: 0 <= i < audio.Length ==> audio[i] == Compress(old(audio[i]), ratio)
  {
    forall i | 0 <= i < audio.Length && Abs(audio[i]) > Threshold {
      audio[i] := Threshold + (audio[i] - Threshold) / ratio;
    }
    r := audio;
  }

  /** Quiet samples pass unchanged. For a ratio of at least 1 a loud positive
      sample is pulled toward the threshold; for the ratios the scripts
      actually pass (between 0 and 1) every loud sample keeps its sign and
      grows in magnitude. */
  lemma CompressContract(x: real, ratio: real)
    requires ratio > 0.0
    ensures Abs(x) <= Threshold ==> Compress(x, ratio) == x
    ensures x > Threshold && ratio >= 1.0 ==> Threshold < Compress(x, ratio) <= x
    ensures Abs(x) > Threshold && ratio < 1.0 ==>
              (x > 0.0 <==> Compress(x, ratio) > 0.0) && Abs(Compress(x, ratio)) > Abs(x)
  {
    if Abs(x) > Threshold {
      var z := x - Threshold;
      if ratio >= 1.0 && z > 0.0 {
        ShrinkByRatio(z, ratio);
      }
      if ratio < 1.0 {
        GrowByRatio(z, ratio);
      }
    }
  }

  lemma ShrinkByRatio(z: real, ratio: real)
    requires z > 0.0 && ratio >= 1.0
    ensures 0.0 < z / ratio <= z
  {
    var q := z / ratio;
    assert q * ratio == z;
    assert q > 0.0;
    assert q <= q * ratio;
  }

  lemma GrowByRatio(z: real, ratio: real)
    requires 0.0 < ratio < 1.0
    ensures z > 0.0 ==> z / ratio > z
    ensures z < 0.0 ==> z / ratio < z
  {
    var q := z / ratio;
    assert q * ratio == z;
    var gap := q * (1.0 - ratio);
    assert gap == q - z;
    if z > 0.0 {
      assert q > 0.0;
      assert gap > 0.0;
    } else if z < 0.0 {
      assert q < 0.0;
      assert gap < 0.0;
    }
  }

  /** The formula ignores the sign: under any ratio above 61/30 a negative
      sample just past the threshold comes out positive. No call in the
      scripts passes such a ratio; for the ratios they do pass (between 0
      and 1) CompressContract shows the sign is kept. */
  lemma CompressFlipsSign(ratio: real)
    requires ratio * 30.0 > 61.0
    ensures Compress(-0.31, ratio) > 0.0
  {
    var q := 0.61 / ratio;
    assert ratio > 0.0 && q * ratio == 0.61;
    assert (0.3 - q) * ratio == 0.3 * ratio - q * ratio;
    assert (0.3 - q) * ratio > 0.0;
    assert Compress(-0.31, ratio) == 0.3 - q;
  }

  /** `int(delay_time * 44100)` for a non-negative delay time. */
  function DelaySamples(delayTime: real): nat
    requires delayTime >= 0.0
  {
    (delayTime * AssumedRate).Floor
  }

  /** `apply_delay(audio, delay_time, mix)`: a zero buffer receives the input
      shifted by `d` samples (only when `d` is below the length), and the
      result is the dry input weighted `1 - mix` plus that buffer weighted
      `mix`. A shift of 0 makes the slice `audio[:-0]` empty, and assigning
      it to the whole buffer raises: `None`. */
  method ApplyDelay(audio: seq<real>, delayTime: real, mix: real) returns (out: Option<seq<real>>)
    requires delayTime >= 0.0
    ensures out.None? <==> DelaySamples(delayTime) == 0 && |audio| > 0
    ensures out.Some? ==> |out.value| == |audio|
    ensures out.Some? ==> forall i :: 0 <= i < |audio| && i < DelaySamples(delayTime) ==>
              out.value[i] == audio[i] * (1.0 - mix)
    ensures out.Some? ==> forall i :: DelaySamples(delayTime) <= i < |audio| ==>
              out.value[i] == audio[i] * (1.0 - mix) + audio[i - DelaySamples(delayTime)] * mix
  {
    var d := DelaySamples(delayTime);
    var n := |audio|;
    var delayed := seq(n, _ => 0.0);
    if d < n {
      if d == 0 {
        return None;
      }
      var k := d;
      while k < n
        invariant d <= k <= n && |delayed| == n
        invariant forall i :: 0 <= i < d ==> delayed[i] == 0.0
        invariant forall i :: d <= i < k ==> delayed[i] == audio[i - d]
      {
        delayed := delayed[k := audio[k - d]];
        k := k + 1;
      }
    }
    out := Some(seq(n, i requires 0 <= i < n => audio[i] * (1.0 - mix) + delayed[i] * mix));
  }

  /** `apply_eq_boost(audio, freq, amount)`: every sample scaled by
      `amount`. */
  function EqBoost(audio: seq<real>, freq: real, amount: real): (r: seq<real>)
    ensures |r| == |audio|
  {
    seq(|audio|, i requires 0 <= i < |audio| => audio[i] * amount)
  }

  /** Every sample is scaled by the boost amount, the boost frequency plays
      no part, a boost of 1 changes nothing, and two boosts in a row are one
      boost by the product. */
  lemma EqBoostContract(audio: seq<real>, f: real, g: real, a: real, b: real)
    ensures forall i :: 0 <= i < |audio| ==> EqBoost(audio, f, a)[i] == audio[i] * a
    ensures EqBoost(audio, f, a) == EqBoost(audio, g, a)
    ensures EqBoost(audio, f, 1.0) == audio
    ensures EqBoost(EqBoost(audio, f, a), g, b) == EqBoost(audio, f, a * b)
  {
    var x, y := EqBoost(EqBoost(audio, f, a), g, b), EqBoost(audio, f, a * b);
    forall i | 0 <= i < |audio| ensures x[i] == y[i] {
      assert x[i] == audio[i] * a * b;
    }
  }

  /** The stem alignment before the Spleeter mix: every stem is cut to the
      length of the shortest. */
  method AlignStems(vocals: seq<real>, bass: seq<real>, drums: seq<real>, other: seq<real>)
    returns (v: seq<real>, b: seq<real>, d: seq<real>, o: seq<real>)
    ensures |v| == |b| == |d| == |o|
    ensures |v| <= |vocals| && |v| <= |bass| && |v| <= |drums| && |v| <= |other|
    ensures |v| == |vocals| || |v| == |bass| || |v| == |drums| || |v| == |other|
    ensures v == vocals[..|v|] && b == bass[..|v|] && d == drums[..|v|] && o == other[..|v|]
  {
    var minLength := MinNat(MinNat(MinNat(|vocals|, |bass|), |drums|), |other|);
    v := vocals[..minLength];
    b := bass[..minLength];
    d := drums[..minLength];
    o := other[..minLength];
  }

  // ---------------------------------------------------------------------
  // Genre dispatch

  /** The branches of the nine-genre dispatch; `Pop` is the final `else`. */
  datatype Style = Rock | Electronic | HipHop | Jazz | Classical | Country | Metal | RnB | Reggae | Pop

  /** The name each branch is selected by. */
  function StyleName(s: Style): string {
    match s
    case Rock => "rock"
    case Electronic => "electronic"
    case HipHop => "hip hop"
    case Jazz => "jazz"
    case Classical => "classical"
    case Country => "country"
    case Metal => "metal"
    case RnB => "r&b"
    case Reggae => "reggae"
    case Pop => "pop"
  }

  /** The `if`/`elif` chain on `target_genre.lower()`. */
  function StyleOf(genre: string): Style {
    var g := ToLower(genre);
    if g == "rock" then Rock
    else if g == "electronic" then Electronic
    else if g == "hip hop" then HipHop
    else if g == "jazz" then Jazz
    else if g == "classical" then Classical
    else if g == "country" then Country
    else if g == "metal" then Metal
    else if g == "r&b" then RnB
    else if g == "reggae" then Reggae
    else Pop
  }

  /** Each branch is reached by every spelling of its own name that
      lower-cases to it, and only the nine names (in some letter case) reach
      a branch other than the default. */
  lemma StyleDispatch(s: Style, genre: string)
    ensures ToLower(genre) == StyleName(s) ==> StyleOf(genre) == s
    ensures StyleOf(StyleName(s)) == s
    ensures StyleOf(ToUpper(StyleName(s))) == s
    ensures StyleOf(genre) != Pop ==> ToLower(genre) == StyleName(StyleOf(genre))
  {
    ToLowerForgetsCase(StyleName(s));
    assert ToLower(StyleName(s)) == StyleName(s);
  }

  /** Weights of the four stems in the process_audio.py mix. */
  datatype Weights = Weights(vocals: real, drums: real, bass: real, other: real)

  function MixWeights(s: Style): Weights {
    match s
    case Rock => Weights(0.8, 1.1, 1.0, 0.9)
    case Electronic => Weights(0.7, 1.2, 1.3, 0.8)
    case HipHop => Weights(1.0, 1.1, 1.4, 0.6)
    case Jazz => Weights(0.9, 0.8, 1.0, 1.1)
    case Classical => Weights(1.0, 0.6, 0.7, 1.2)
    case Country => Weights(1.1, 0.9, 0.8, 1.0)
    case Metal => Weights(0.8, 1.2, 1.0, 1.1)
    case RnB => Weights(1.2, 0.8, 1.1, 0.9)
    case Reggae => Weights(0.9, 1.0, 1.3, 0.8)
    case Pop => Weights(1.0, 1.0, 1.0, 1.0)
  }

  /** Lengths of four stems that NumPy can sum: any two of them conform. */
  predicate StemsConform(v: nat, d: nat, b: nat, o: nat) {
    Conform(v, d) && Conform(v, b) && Conform(v, o) && Conform(d, b) && Conform(d, o) && Conform(b, o)
  }

  /** `vocals * wv + drums * wd + bass * wb + other * wo`, summed left to
      right with broadcasting. The sum exists exactly when the stems'
      lengths conform; it then has the length of every stem that is not of
      length 1, and each of its samples is the weighted sum of the four
      (broadcast) samples. */
  function WeightedMix(vocals: seq<real>, drums: seq<real>, bass: seq<real>, other: seq<real>, w: Weights): (r: Option<seq<real>>)
    ensures r.Some? <==> StemsConform(|vocals|, |drums|, |bass|, |other|)
    ensures r.Some? ==> |r.value| == |vocals| || |r.value| == |drums| || |r.value| == |bass| || |r.value| == |other|
    ensures r.Some? ==> (|vocals| == 1 || |vocals| == |r.value|) && (|drums| == 1 || |drums| == |r.value|) &&
                        (|bass| == 1 || |bass| == |r.value|) && (|other| == 1 || |other| == |r.value|)
    ensures r.Some? ==> forall i :: 0 <= i < |r.value| ==>
              r.value[i] == At(vocals, i) * w.vocals + At(drums, i) * w.drums + At(bass, i) * w.bass + At(other, i) * w.other
    ensures |vocals| == |drums| == |bass| == |other| ==> r.Some? && |r.value| == |vocals|
  {
    var front := Add(Scale(vocals, w.vocals), Scale(drums, w.drums));
    if front.None? then None
    else
      var three := Add(front.value, Scale(bass, w.bass));
      if three.None? then None
      else
        var r := Add(three.value, Scale(other, w.other));
        MixSamples(vocals, drums, bass, other, w, front.value, three.value, r);
        r
  }

  /** The broadcast samples of the three partial sums add up to the weighted
      sum of the four stems. */
  lemma MixSamples(vocals: seq<real>, drums: seq<real>, bass: seq<real>, other: seq<real>, w: Weights,
                   front: seq<real>, three: seq<real>, r: Option<seq<real>>)
    requires Add(Scale(vocals, w.vocals), Scale(drums, w.drums)) == Some(front)
    requires Add(front, Scale(bass, w.bass)) == Some(three)
    requires r == Add(three, Scale(other, w.other))
    ensures r.Some? ==> forall i :: 0 <= i < |r.value| ==>
              (|vocals| == 1 || i < |vocals|) && (|drums| == 1 || i < |drums|) &&
              (|bass| == 1 || i < |bass|) && (|other| == 1 || i < |other|) &&
              r.value[i] == At(vocals, i) * w.vocals + At(drums, i) * w.drums + At(bass, i) * w.bass + At(other, i) * w.other
  {
    if r.Some? {
      forall i | 0 <= i < |r.value|
        ensures (|vocals| == 1 || i < |vocals|) && (|drums| == 1 || i < |drums|) &&
                (|bass| == 1 || i < |bass|) && (|other| == 1 || i < |other|)
        ensures r.value[i] == At(vocals, i) * w.vocals + At(drums, i) * w.drums + At(bass, i) * w.bass + At(other, i) * w.other
      {
        var j := if |three| == 1 then 0 else i;
        var k := if |front| == 1 then 0 else j;
        assert At(three, i) == At(front, j) + At(Scale(bass, w.bass), j);
        assert At(front, j) == At(Scale(vocals, w.vocals), k) + At(Scale(drums, w.drums), k);
      }
    }
  }

  /** Compression of a whole stem, as a value. */
  function CompressAll(audio: seq<real>, ratio: real): (r: seq<real>)
    requires ratio != 0.0
    ensures |r| == |audio|
  {
    seq(|audio|, i requires 0 <= i < |audio| => Compress(audio[i], ratio))
  }

  /** The default (pop) branch of process_audio.py: the four stems
      compressed with ratios 0.5, 0.6, 0.5 and 0.5, then summed with weight
      1. */
  function ProcessDefaultMix(vocals: seq<real>, drums: seq<real>, bass: seq<real>, other: seq<real>): Option<seq<real>> {
    WeightedMix(CompressAll(vocals, 0.5), CompressAll(drums, 0.6), CompressAll(bass, 0.5),
                CompressAll(other, 0.5), MixWeights(Pop))
  }

  /** Any genre outside the nine takes the default branch, whose mix is the
      plain sum of the compressed stems; quiet samples reach the mix
      untouched. */
  lemma ProcessDefaultMixIsPlainSum(genre: string, vocals: seq<real>, drums: seq<real>, bass: seq<real>, other: seq<real>)
    requires StyleOf(genre) == Pop
    requires |vocals| == |drums| == |bass| == |other|
    ensures MixWeights(StyleOf(genre)) == Weights(1.0, 1.0, 1.0, 1.0)
    ensures ProcessDefaultMix(vocals, drums, bass, other).Some?
    ensures var m := ProcessDefaultMix(vocals, drums, bass, other).value;
            |m| == |vocals| &&
            forall i :: 0 <= i < |m| ==>
              m[i] == Compress(vocals[i], 0.5) + Compress(drums[i], 0.6) + Compress(bass[i], 0.5) + Compress(other[i], 0.5)
    ensures var m := ProcessDefaultMix(vocals, drums, bass, other).value;
            forall i :: 0 <= i < |m| && Abs(vocals[i]) <= Threshold && Abs(drums[i]) <= Threshold &&
                        Abs(bass[i]) <= Threshold && Abs(other[i]) <= Threshold ==>
              m[i] == vocals[i] + drums[i] + bass[i] + other[i]
  {
  }
}
