/** ml_scripts/transform_genre.py: a script run as `transform_genre.py
    input output genre` that loads the input, applies one effect picked by
    the lower-cased genre and writes the result. The audio library's
    harmonic/percussive separation and normalisation are parameters;
    loading and writing are modelled by whether they succeed. */
module GenreScript {
  import opened Text
  import opened Broadcast

  /** `np.clip(x, -1, 1)` on one sample. */
  function Clip(x: real): (r: real)
    ensures -1.0 <= r <= 1.0
    ensures -1.0 <= x <= 1.0 ==> r == x
    ensures x > 1.0 ==> r == 1.0
    ensures x < -1.0 ==> r == -1.0
  {
    if x < -1.0 then -1.0 else if x > 1.0 then 1.0 else x
  }

  predicate InRange(y: seq<real>) {
    forall i :: 0 <= i < |y| ==> -1.0 <= y[i] <= 1.0
  }

  /** The rock branch: `np.clip(y * 1.5, -1, 1)`. */
  function Rock(y: seq<real>): (r: seq<real>)
    ensures |r| == |y| && InRange(r)
    ensures forall i :: 0 <= i < |y| ==> r[i] == Clip(y[i] * 1.5)
  {
    seq(|y|, i requires 0 <= i < |y| => Clip(y[i] * 1.5))
  }

  /** `int(sr * tenths / 10)`, the echo delay in samples. */
  function EchoDelay(sr: nat, tenths: nat): nat {
    sr * tenths / 10
  }

  /** Sample `i` plus the weighted sample `d` earlier, when there is one. */
  function EchoSample(y: seq<real>, d: nat, weight: real, i: nat): real
    requires i < |y|
  {
    y[i] + (if i >= d then y[i - d] * weight else 0.0)
  }

  /** Every sample with its echo, clipped. */
  function Echoed(y: seq<real>, d: nat, weight: real): (r: seq<real>)
    ensures |r| == |y| && InRange(r)
  {
    var r := seq(|y|, i requires 0 <= i < |y| => Clip(EchoSample(y, d, weight, i)));
    assert forall i :: 0 <= i < |r| ==> r[i] == Clip(EchoSample(y, d, weight, i));
    r
  }

  /** The echo as a value: nothing when the delay is 0 and there is audio
      (the empty slice `y[:-0]` cannot fill the buffer), otherwise the
      echoed samples. */
  function EchoValue(y: seq<real>, sr: nat, tenths: nat, weight: real): (r: Option<seq<real>>)
    ensures r.None? <==> EchoDelay(sr, tenths) == 0 && |y| > 0
    ensures r.Some? ==> |r.value| == |y| && InRange(r.value)
  {
    var d := EchoDelay(sr, tenths);
    if d == 0 && |y| > 0 then None else Some(Echoed(y, d, weight))
  }

  /** The echo of the electronic (`tenths` = 1, `weight` = 0.6) and
      classical (`tenths` = 3, `weight` = 0.4) branches: a zero buffer gets
      `y[:-d] * weight` from sample `d = int(sr * tenths / 10)` on, is added
      to `y`, and the sum is clipped. With `d = 0` the slice `y[:-0]` is
      empty and the assignment raises for any non-empty input (`None`). */
  method Echo(y: seq<real>, sr: nat, tenths: nat, weight: real) returns (out: Option<seq<real>>)
    ensures out == EchoValue(y, sr, tenths, weight)
  {
    var n := |y|;
    var d := EchoDelay(sr, tenths);
    var echo := seq(n, _ => 0.0);
    if d < n {
      if d == 0 {
        return None;
      }
      for k := d to n
        invariant |echo| == n
        invariant forall i :: 0 <= i < d ==> echo[i] == 0.0
        invariant forall i :: d <= i < k ==> echo[i] == y[i - d] * weight
      {
        echo := echo[k := y[k - d] * weight];
      }
    }
    var mixed := seq(n, i requires 0 <= i < n => Clip(y[i] + echo[i]));
    forall i | 0 <= i < n
      ensures mixed[i] == Echoed(y, d, weight)[i]
    {
      assert y[i] + echo[i] == EchoSample(y, d, weight, i);
    }
    assert mixed == Echoed(y, d, weight);
    out := Some(mixed);
  }

  /** The hip hop branch: `np.clip(harmonic * 0.8 + percussive * 1.2, -1,
      1)`. The parts are added with broadcasting: parts whose lengths do not
      conform raise. */
  function HipHop(harmonic: seq<real>, percussive: seq<real>): (r: Option<seq<real>>)
    ensures r.Some? <==> Conform(|harmonic|, |percussive|)
    ensures r.Some? ==> |r.value| == Joined(|harmonic|, |percussive|) && InRange(r.value)
    ensures r.Some? ==> forall i :: 0 <= i < |r.value| ==>
              r.value[i] == Clip(At(harmonic, i) * 0.8 + At(percussive, i) * 1.2)
    ensures |harmonic| == |percussive| ==> r.Some? && |r.value| == |harmonic|
  {
    match Add(Scale(harmonic, 0.8), Scale(percussive, 1.2))
    case None => None
    case Some(sum) => Some(seq(|sum|, i requires 0 <= i < |sum| => Clip(sum[i])))
  }

  datatype Branch = RockBranch | ElectronicBranch | JazzBranch | ClassicalBranch | HipHopBranch | NormalizeBranch

  function BranchName(b: Branch): string {
    match b
    case RockBranch => "rock"
    case ElectronicBranch => "electronic"
    case JazzBranch => "jazz"
    case ClassicalBranch => "classical"
    case HipHopBranch => "hip hop"
    case NormalizeBranch => "normalize"
  }

  /** The `if`/`elif` chain on `target_genre.lower()`; any other genre is
      normalised. */
  function BranchOf(genre: string): Branch {
    var g := ToLower(genre);
    if g == "rock" then RockBranch
    else if g == "electronic" then ElectronicBranch
    else if g == "jazz" then JazzBranch
    else if g == "classical" then ClassicalBranch
    else if g == "hip hop" then HipHopBranch
    else NormalizeBranch
  }

  /** Each branch is reached by every spelling of its name that lower-cases
      to it; every other genre is normalised. */
  lemma BranchDispatch(b: Branch, genre: string)
    ensures ToLower(genre) == BranchName(b) ==> BranchOf(genre) == b
    ensures BranchOf(BranchName(b)) == b
    ensures BranchOf(ToUpper(BranchName(b))) == b
    ensures BranchOf(genre) != NormalizeBranch ==> ToLower(genre) == BranchName(BranchOf(genre))
  {
    ToLowerForgetsCase(BranchName(b));
    assert ToLower(BranchName(b)) == BranchName(b);
  }

  /** The library operations a branch may call. */
  datatype Library = Library(
    harmonic: seq<real> -> seq<real>,
    hpss: seq<real> -> (seq<real>, seq<real>),
    normalize: seq<real> -> seq<real>)

  /** The effect the genre selects, as a value; `None` when it raises. */
  function Effect(y: seq<real>, sr: nat, genre: string, lib: Library): Option<seq<real>> {
    match BranchOf(genre)
    case RockBranch => Some(Rock(y))
    case ElectronicBranch => EchoValue(y, sr, 1, 0.6)
    case JazzBranch => Some(lib.harmonic(y))
    case ClassicalBranch => EchoValue(y, sr, 3, 0.4)
    case HipHopBranch => HipHop(lib.hpss(y).0, lib.hpss(y).1)
    case NormalizeBranch => Some(lib.normalize(y))
  }

  /** The `if`/`elif` chain of the script, step by step. It computes
      Effect; rock, electronic, classical and hip hop all end in a clip to
      `[-1, 1]`, and rock and the two echoes keep the length. */
  method Transform(y: seq<real>, sr: nat, genre: string, lib: Library) returns (out: Option<seq<real>>)
    ensures out == Effect(y, sr, genre, lib)
    ensures BranchOf(genre) in {RockBranch, ElectronicBranch, ClassicalBranch, HipHopBranch} && out.Some? ==>
              InRange(out.value)
    ensures BranchOf(genre) in {RockBranch, ElectronicBranch, ClassicalBranch} && out.Some? ==>
              |out.value| == |y|
    ensures BranchOf(genre) == ElectronicBranch ==> (out.None? <==> EchoDelay(sr, 1) == 0 && |y| > 0)
    ensures BranchOf(genre) == ClassicalBranch ==> (out.None? <==> EchoDelay(sr, 3) == 0 && |y| > 0)
    ensures BranchOf(genre) == HipHopBranch ==> (out.None? <==> !Conform(|lib.hpss(y).0|, |lib.hpss(y).1|))
  {
    var g := ToLower(genre);
    if g == "rock" {
      out := Some(Rock(y));
    } else if g == "electronic" {
      out := Echo(y, sr, 1, 0.6);
    } else if g == "jazz" {
      out := Some(lib.harmonic(y));
    } else if g == "classical" {
      out := Echo(y, sr, 3, 0.4);
    } else if g == "hip hop" {
      var parts := lib.hpss(y);
      out := HipHop(parts.0, parts.1);
    } else {
      out := Some(lib.normalize(y));
    }
  }

  /** The whole script. argparse rejects a wrong argument count with exit
      status 2 before anything runs; a load, effect or write that raises
      ends in status 1; otherwise the effect's output is written and the
      status is 0. `input` is the loaded audio and its rate, `None` when
      loading raises. */
  method Script(argc: nat, input: Option<(seq<real>, nat)>, genre: string, lib: Library, writeFails: bool)
    returns (code: nat, written: Option<seq<real>>)
    ensures argc != 4 ==> code == 2 && written.None?
    ensures argc == 4 ==> (code == 0 <==> written.Some?) && (code != 0 ==> code == 1)
    ensures argc == 4 ==>
              (code == 0 <==> input.Some? && !writeFails && Effect(input.value.0, input.value.1, genre, lib).Some?)
    ensures written.Some? ==> input.Some? && written == Effect(input.value.0, input.value.1, genre, lib)
    ensures input.None? || writeFails ==> written.None?
    ensures written.Some? && BranchOf(genre) in {RockBranch, ElectronicBranch, ClassicalBranch, HipHopBranch} ==>
              InRange(written.value)
    ensures argc == 4 && input.Some? && !writeFails && BranchOf(genre) == RockBranch ==>
              code == 0 && written == Some(Rock(input.value.0))
    ensures input.Some? && BranchOf(genre) == ElectronicBranch && input.value.1 < 10 && |input.value.0| > 0 ==>
              code != 0 && written.None?
  {
    written := None;
    if argc != 4 {
      return 2, None;
    }
    if input.None? {
      return 1, None;
    }
    var (y, sr) := input.value;
    var out := Transform(y, sr, genre, lib);
    if out.None? || writeFails {
      return 1, None;
    }
    code, written := 0, out;
  }
}
