/** `video_sync_secondversion.py`: pad the presenter recording at its start
    with black so that it lasts as long as the slides recording, drop the
    presenter's own sound and put the slides' sound under the result. Every
    command runs with `check=True`; the final clean-up tolerates missing
    files. */
module PadPresenter {
  import opened Base
  import opened Alignment
  import opened Files
  import opened Manifest
  import opened Provenance

  const PresentationAudio: Path := "presentation_audio.aac"
  const Black: Path := "black.mp4"
  const PresenterSilent: Path := "presenter_silent.mp4"
  const ConcatList: Path := "concat_list.txt"
  const TempNoAudio: Path := "temp_no_audio.mp4"

  /** The names the clean-up loop removes, in its order. */
  const CleanupNames: seq<Path> := [Black, PresenterSilent, ConcatList, TempNoAudio, PresentationAudio]

  function Temporaries(): set<Path>
  {
    {PresentationAudio, Black, PresenterSilent, ConcatList, TempNoAudio}
  }

  /** The five commands of a run, numbered 0 to 4 in the order they run;
      `lead` is the length of the black segment. */
  function Commands(slides: Path, presenter: Path, lead: real, output: Path): (cmds: seq<Command>)
    ensures |cmds| == 5
  {
    [ Command(ExtractAudio(slides, None), PresentationAudio),
      Command(BlankVideo(None, lead), Black),
      Command(StripAudio(presenter), PresenterSilent),
      Command(Concat(ConcatList, false), TempNoAudio),
      Command(Mux(TempNoAudio, PresentationAudio, false, false), output) ]
  }

  /** The files a run that stops at command `failAt` leaves behind: the
      outputs of the commands before it, and the manifest once it has been
      written (just before command 3). */
  function LeftBehind(failAt: nat): (t: set<Path>)
    requires failAt < 5
  {
    if failAt == 0 then {}
    else if failAt == 1 then {PresentationAudio}
    else if failAt == 2 then {PresentationAudio, Black}
    else if failAt == 3 then {PresentationAudio, Black, PresenterSilent, ConcatList}
    else {PresentationAudio, Black, PresenterSilent, ConcatList, TempNoAudio}
  }

  /** The names a list holds. */
  function NamesIn(names: seq<Path>): (t: set<Path>)
    ensures forall k :: 0 <= k < |names| ==> names[k] in t
    ensures forall p :: p in t ==> p in names
  {
    set p | p in names
  }

  /** The clean-up loop: `os.remove` of each name, a missing file ignored. */
  method RemoveEach(fs: FileSystem, names: seq<Path>)
    modifies fs
    ensures fs.files == old(fs.files) - NamesIn(names) && fs.log == old(fs.log)
  {
    for i := 0 to |names|
      invariant fs.files == old(fs.files) - NamesIn(names[..i])
      invariant fs.log == old(fs.log)
    {
      assert names[..i + 1] == names[..i] + [names[i]];
      assert NamesIn(names[..i + 1]) == NamesIn(names[..i]) + {names[i]};
      fs.RemoveIfPresent(names[i]);
    }
    assert names[..|names|] == names;
  }

  /** Commands 0 to 2: the slides' audio, the black segment and the
      presenter's picture without its sound. */
  method PrepareSegments(fs: FileSystem, slides: Path, presenter: Path, lead: real, output: Path, failAt: nat)
    returns (st: Status)
    modifies fs
    ensures fs.log == old(fs.log) + Commands(slides, presenter, lead, output)[..if failAt < 3 then failAt + 1 else 3]
    ensures failAt < 3 ==>
      st == CalledProcessError(Commands(slides, presenter, lead, output)[failAt].output) &&
      fs.files == old(fs.files) + LeftBehind(failAt)
    ensures failAt >= 3 ==> st == Completed && fs.files == old(fs.files) + {PresentationAudio, Black, PresenterSilent}
  {
    ghost var cmds := Commands(slides, presenter, lead, output);
    fs.Run(ExtractAudio(slides, None), PresentationAudio, failAt != 0);
    assert fs.log == old(fs.log) + cmds[..1];
    if failAt == 0 {
      return CalledProcessError(PresentationAudio);
    }
    fs.Run(BlankVideo(None, lead), Black, failAt != 1);
    assert fs.log == old(fs.log) + cmds[..2];
    if failAt == 1 {
      return CalledProcessError(Black);
    }
    fs.Run(StripAudio(presenter), PresenterSilent, failAt != 2);
    assert fs.log == old(fs.log) + cmds[..3];
    st := if failAt == 2 then CalledProcessError(PresenterSilent) else Completed;
  }

  /** The five commands of `pad_presenter_video`, each with `check=True`:
      the first failure raises and skips the rest. `st` is `Completed` when
      all five succeed. */
  method RunCommands(fs: FileSystem, abspath: Path -> Path, slides: Path, presenter: Path, lead: real,
                     output: Path, failAt: nat)
    returns (manifest: string, st: Status)
    modifies fs
    ensures fs.log == old(fs.log) + Commands(slides, presenter, lead, output)[..if failAt < 5 then failAt + 1 else 5]
    ensures failAt < 5 ==>
      st == CalledProcessError(Commands(slides, presenter, lead, output)[failAt].output) &&
      fs.files == old(fs.files) + LeftBehind(failAt)
    ensures failAt >= 5 ==> st == Completed && fs.files == old(fs.files) + LeftBehind(4) + {output}
    ensures failAt >= 3 ==> manifest == Serialize([abspath(Black), abspath(PresenterSilent)])
  {
    ghost var cmds := Commands(slides, presenter, lead, output);
    manifest := [];
    st := PrepareSegments(fs, slides, presenter, lead, output, failAt);
    if st != Completed {
      return;
    }
    fs.WriteText(ConcatList);
    manifest := Serialize([abspath(Black), abspath(PresenterSilent)]);
    fs.Run(Concat(ConcatList, false), TempNoAudio, failAt != 3);
    assert fs.log == old(fs.log) + cmds[..4];
    if failAt == 3 {
      return manifest, CalledProcessError(TempNoAudio);
    }
    fs.Run(Mux(TempNoAudio, PresentationAudio, false, false), output, failAt != 4);
    assert fs.log == old(fs.log) + cmds[..5];
    st := if failAt == 4 then CalledProcessError(output) else Completed;
  }

  /** The clean-up converges: whichever of the intermediate files are
      already gone, it ends in the same directory, and that directory holds
      no intermediate file, so a second pass finds nothing to remove. */
  lemma CleanupConverges(files: set<Path>, gone: set<Path>)
    requires gone <= Temporaries()
    ensures (files - gone) - NamesIn(CleanupNames) == files - NamesIn(CleanupNames)
    ensures files - NamesIn(CleanupNames) == files - Temporaries()
    ensures (files - NamesIn(CleanupNames)) * Temporaries() == {}
  {
    assert NamesIn(CleanupNames) == Temporaries();
  }

  /** `pad_presenter_video(slides, presenter, output)` with the probed
      durations `slidesLength` and `presenterLength`; `failAt` is the first
      command that fails, 5 or more when none does. `manifest` is the text
      written to the manifest file. */
  method PadPresenterVideo(fs: FileSystem, abspath: Path -> Path, slides: Path, presenter: Path, output: Path,
                           slidesLength: real, presenterLength: real, failAt: nat)
    returns (plan: Plan, manifest: string, st: Status)
    modifies fs
    ensures plan == PadPresenterPlan(slides, presenter, slidesLength, presenterLength)
    ensures fs.log == old(fs.log) + Commands(slides, presenter, plan.lead, output)[..if failAt < 5 then failAt + 1 else 5]
    ensures failAt < 5 ==>
      st == CalledProcessError(Commands(slides, presenter, plan.lead, output)[failAt].output) &&
      fs.files == old(fs.files) + LeftBehind(failAt)
    ensures failAt >= 3 ==> manifest == Serialize([abspath(Black), abspath(PresenterSilent)])
    // a completed run removes every intermediate name, even one that the
    // output itself or a file present before the run was using
    ensures failAt >= 5 ==> st == Completed && fs.files == (old(fs.files) + {output}) - Temporaries()
  {
    plan := PadPresenterPlan(slides, presenter, slidesLength, presenterLength);
    manifest, st := RunCommands(fs, abspath, slides, presenter, plan.lead, output, failAt);
    if st == Completed {
      RemoveEach(fs, CleanupNames);
      assert NamesIn(CleanupNames) == Temporaries();
    }
  }

  /** The output has the presenter's picture, preceded by black, and only
      the slides' sound: the presenter's own audio is dropped and the
      black segment is silent. */
  lemma OutputStreams(slides: Path, presenter: Path, lead: real, output: Path)
    requires slides !in Temporaries() && presenter !in Temporaries()
    ensures var env := map[slides := Own(slides), presenter := Own(presenter)];
      Lookup(Replay(Commands(slides, presenter, lead, output), env, map[ConcatList := [Black, PresenterSilent]]), output)
        == Streams({presenter}, {slides})
  {
    var env := map[slides := Own(slides), presenter := Own(presenter)];
    var ms := map[ConcatList := [Black, PresenterSilent]];
    var cmds := Commands(slides, presenter, lead, output);
    var e1 := env[PresentationAudio := Produce(cmds[0].op, env, ms)];
    var e2 := e1[Black := Produce(cmds[1].op, e1, ms)];
    var e3 := e2[PresenterSilent := Produce(cmds[2].op, e2, ms)];
    var e4 := e3[TempNoAudio := Produce(cmds[3].op, e3, ms)];
    assert Replay(cmds, env, ms) == Replay(cmds[1..], e1, ms);
    assert Replay(cmds[1..], e1, ms) == Replay(cmds[2..], e2, ms);
    assert Replay(cmds[2..], e2, ms) == Replay(cmds[3..], e3, ms);
    assert Replay(cmds[3..], e3, ms) == Replay(cmds[4..], e4, ms);
    ReplayLast(cmds[4..], e4, ms);
    JoinTwo(e3, Black, PresenterSilent);
    assert Lookup(e1, PresentationAudio) == Streams({}, {slides});
    assert Lookup(e2, Black) == NoStreams;
    assert Lookup(e2, presenter) == Own(presenter);
    assert Lookup(e3, PresenterSilent) == Streams({presenter}, {});
    assert Lookup(e4, TempNoAudio) == Streams({presenter}, {});
    assert Lookup(e4, PresentationAudio) == Streams({}, {slides});
  }
}
