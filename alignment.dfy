/** The alignment strategy: which compensation plan a synchronisation run
    chooses from two measured durations (the duration-padding mode of
    `auto_fix_offset` and `pad_presenter_video`) or from a correlation offset
    (the shifting mode of `sync_videos`). */
module Alignment {
  import opened Base

  /** One plan per run. `Pad` prepends a blank lead-in of `lead` seconds built
      from `reference` ahead of `target`; `Shift` moves `target` by `delta`
      seconds (positive: later, negative: earlier). */
  datatype Plan =
    | NoOp
    | Pad(reference: Path, target: Path, lead: real)
    | Shift(target: Path, delta: real)

  /** Durations closer than this are treated as already in sync. */
  const Tolerance: real := 0.1

  function Abs(x: real): (r: real)
    ensures r >= 0.0 && (r == x || r == -x)
  {
    if x < 0.0 then -x else x
  }

  function Max(x: real, y: real): (r: real)
    ensures r >= x && r >= y && (r == x || r == y)
  {
    if x < y then y else x
  }

  function Min(x: real, y: real): (r: real)
    ensures r <= x && r <= y && (r == x || r == y)
  {
    if x < y then x else y
  }

  /** `auto_fix_offset`: the plan chosen from the audio durations `a1` of
      `videoA` and `a2` of `videoB`. */
  function AutoFixPlan(videoA: Path, videoB: Path, a1: real, a2: real): (p: Plan)
    ensures p.NoOp? <==> Abs(a1 - a2) < Tolerance
    ensures p.Shift? == false
    ensures p.Pad? ==> p.lead == Abs(a1 - a2) && p.lead >= Tolerance
    ensures p.Pad? ==> (p.reference, p.target) == (if a1 > a2 then (videoA, videoB) else (videoB, videoA))
  {
    if Abs(a1 - a2) < Tolerance then NoOp
    else if a1 > a2 then Pad(videoA, videoB, a1 - a2)
    else Pad(videoB, videoA, a2 - a1)
  }

  /** The reference of a duration plan is the input with the strictly larger
      audio duration, the target is the other input, and the two roles
      together are exactly the two inputs. */
  lemma AutoFixRoles(videoA: Path, videoB: Path, a1: real, a2: real)
    requires AutoFixPlan(videoA, videoB, a1, a2).Pad?
    ensures var p := AutoFixPlan(videoA, videoB, a1, a2);
      multiset{p.reference, p.target} == multiset{videoA, videoB} &&
      (videoA != videoB ==> (p.reference == videoA <==> a1 > a2)) &&
      (videoA != videoB ==> (p.reference == videoB <==> a2 > a1))
  {
  }

  /** Padding the shorter input by the lead makes it exactly as long as the
      longer one: the lead closes the whole duration gap. */
  lemma AutoFixCloses(videoA: Path, videoB: Path, a1: real, a2: real)
    requires AutoFixPlan(videoA, videoB, a1, a2).Pad?
    ensures AutoFixPlan(videoA, videoB, a1, a2).lead + Min(a1, a2) == Max(a1, a2)
  {
  }

  /** Which input `auto_fix_offset` records as the one it fixed. */
  datatype FixedType = Presenter | Presentation | Unknown

  /** The name under which the fixed input is reported. */
  function FixedTypeName(t: FixedType): (s: string)
    ensures s == "presenter" <==> t == Presenter
    ensures s == "presentation" <==> t == Presentation
    ensures s == "unknown" <==> t == Unknown
  {
    match t
    case Presenter => "presenter"
    case Presentation => "presentation"
    case Unknown => "unknown"
  }

  /** `fixed_type`: the presenter test comes first, then the presentation test. */
  function ClassifyFixed(desynced: Path, presenter: Path, presentation: Path): (t: FixedType)
    ensures t == Presenter <==> desynced == presenter
    ensures t == Presentation <==> desynced != presenter && desynced == presentation
    ensures t == Unknown <==> desynced != presenter && desynced != presentation
  {
    if desynced == presenter then Presenter
    else if desynced == presentation then Presentation
    else Unknown
  }

  /** `pad_presenter_video`: the black lead-in in front of the presenter is
      `max(0, slides - presenter)`; this variant always pads. */
  function PadPresenterPlan(slides: Path, presenter: Path, slidesDuration: real, presenterDuration: real): (p: Plan)
    ensures p.Pad? && p.reference == slides && p.target == presenter
    ensures p.lead >= 0.0
    ensures p.lead == 0.0 <==> presenterDuration >= slidesDuration
    ensures slidesDuration > presenterDuration ==> p.lead == slidesDuration - presenterDuration
  {
    Pad(slides, presenter, Max(0.0, slidesDuration - presenterDuration))
  }

  /** The padded presenter track is as long as the longer of the two inputs,
      so it never ends before the slides' audio, which is the only audio of
      the output. */
  lemma PadPresenterCovers(slides: Path, presenter: Path, slidesDuration: real, presenterDuration: real)
    ensures PadPresenterPlan(slides, presenter, slidesDuration, presenterDuration).lead + presenterDuration
            == Max(slidesDuration, presenterDuration)
    ensures PadPresenterPlan(slides, presenter, slidesDuration, presenterDuration).lead + presenterDuration
            >= slidesDuration
  {
  }

  /** For one and the same pair of durations, the two plan functions
      coincide whenever the slides are the longer input by at least the
      tolerance. The scripts themselves probe different durations (the
      audio stream's, and the container's), so this is a statement about
      the two decision rules, not about two runs. */
  lemma DurationStrategiesAgree(slides: Path, presenter: Path, sd: real, pd: real)
    requires sd - pd >= Tolerance
    ensures AutoFixPlan(slides, presenter, sd, pd) == PadPresenterPlan(slides, presenter, sd, pd)
  {
  }
}
