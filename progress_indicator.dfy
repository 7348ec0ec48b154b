/** `ProgressIndicator` (app/components/ProgressIndicator.tsx): nothing while
    not processing, otherwise a card naming one of six stages picked from
    the progress percentage. Progress is a real number, so the `100 / 6`
    division is exact here. */
module ProgressIndicator {
  import opened Text

  const Stages: seq<string> := [
    "Uploading file...",
    "Initializing Spleeter...",
    "Separating stems...",
    "Applying genre effects...",
    "Mixing stems...",
    "Finalizing output..."
  ]

  /** `Math.min(Math.floor(progress / (100 / 6)), 5)`. */
  function StageIndex(progress: real): int {
    var k := (progress / (100.0 / |Stages| as real)).Floor;
    if k < |Stages| - 1 then k else |Stages| - 1
  }

  /** What the component renders: nothing, or the card with the stage label
      (absent when the index falls outside the stage list, as
      `stages[-1]` is `undefined`). */
  datatype Rendered = Nothing | Card(stage: Option<string>)

  function Render(processing: bool, progress: real): Rendered {
    if !processing then Nothing
    else
      var k := StageIndex(progress);
      Card(if 0 <= k < |Stages| then Some(Stages[k]) else None)
  }

  /** The stage index is `floor(6 * progress / 100)` capped at 5; for
      progress from 0 up it is a valid index, and it never decreases as
      progress grows. */
  lemma StageIndexContract(progress: real, later: real)
    requires progress <= later
    ensures StageIndex(progress) == if (6.0 * progress / 100.0).Floor < 5 then (6.0 * progress / 100.0).Floor else 5
    ensures progress >= 0.0 ==> 0 <= StageIndex(progress) <= 5
    ensures StageIndex(progress) <= StageIndex(later)
  {
    assert progress / (100.0 / 6.0) == 6.0 * progress / 100.0;
    assert later / (100.0 / 6.0) == 6.0 * later / 100.0;
    FloorMonotone(6.0 * progress / 100.0, 6.0 * later / 100.0);
  }

  lemma FloorMonotone(x: real, y: real)
    requires x <= y
    ensures x.Floor <= y.Floor
  {
  }

  /** Nothing is rendered while not processing; while processing from 0%
      up a stage label is always shown, and from 100% on it is the last
      one. */
  lemma RenderContract(processing: bool, progress: real)
    ensures !processing ==> Render(processing, progress) == Nothing
    ensures processing && progress >= 0.0 ==>
              Render(processing, progress).Card? && Render(processing, progress).stage.Some?
    ensures processing && progress >= 100.0 ==> Render(processing, progress) == Card(Some("Finalizing output..."))
  {
    StageIndexContract(progress, progress);
    if progress >= 100.0 {
      StageIndexContract(100.0, progress);
      assert StageIndex(100.0) == 5;
    }
  }
}
