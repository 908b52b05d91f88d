/** The shape `wis.py` and `new_sync_file.py` share: extract both
    recordings' audio to `audio1.wav` and `audio2.wav`, estimate an offset,
    shift the second recording, copy the first unchanged and remove the two
    tracks. The media commands run without `check=True`: a failing one
    raises nothing and simply leaves its output unwritten. */
module PairSync {
  import opened Base
  import opened Files
  import opened Shift
  import opened Provenance

  const Audio1: Path := "audio1.wav"
  const Audio2: Path := "audio2.wav"

  /** The four media commands of a run, in the order they run; `step` is
      how the second recording is moved. */
  function Commands(video1: Path, video2: Path, synced1: Path, synced2: Path, step: ShiftStep)
    : (cmds: seq<Command>)
    ensures |cmds| == 4
    ensures cmds[0].output == Audio1 && cmds[1].output == Audio2
    ensures cmds[2].output == synced2 && cmds[3].output == synced1
  {
    [ Command(ExtractAudio(video1, None), Audio1),
      Command(ExtractAudio(video2, None), Audio2),
      Command(ShiftVideo(video2, step), synced2),
      Command(Copy(video1), synced1) ]
  }

  /** `extract_audio(video1, "audio1.wav")` then the same for `video2`;
      `ok1` and `ok2` are the outcomes of the two commands. */
  method ExtractBoth(fs: FileSystem, video1: Path, video2: Path, ok1: bool, ok2: bool)
    modifies fs
    ensures fs.log == old(fs.log) + [Command(ExtractAudio(video1, None), Audio1), Command(ExtractAudio(video2, None), Audio2)]
    ensures fs.files == old(fs.files) + (if ok1 then {Audio1} else {}) + (if ok2 then {Audio2} else {})
  {
    fs.Run(ExtractAudio(video1, None), Audio1, ok1);
    fs.Run(ExtractAudio(video2, None), Audio2, ok2);
  }

  /** Opening the first track, then the second, for reading: the first
      missing one raises. A stale track left by an earlier run is read as
      if it had just been written. */
  method OpenBoth(fs: FileSystem) returns (st: Status)
    ensures st == Completed <==> Audio1 in fs.files && Audio2 in fs.files
    ensures st == FileNotFoundError(Audio1) <==> Audio1 !in fs.files
    ensures st == FileNotFoundError(Audio2) <==> Audio1 in fs.files && Audio2 !in fs.files
  {
    if Audio1 !in fs.files {
      return FileNotFoundError(Audio1);
    }
    if Audio2 !in fs.files {
      return FileNotFoundError(Audio2);
    }
    return Completed;
  }

  /** Once the offset is known: shift `video2` into `synced2`, copy
      `video1` to `synced1`, remove both tracks with `os.remove`. The two
      tracks were just read, so the removals always find them. */
  method ShiftCopyClean(fs: FileSystem, video1: Path, video2: Path, synced1: Path, synced2: Path,
                        step: ShiftStep, shiftOk: bool, copyOk: bool)
    returns (st: Status)
    requires Audio1 in fs.files && Audio2 in fs.files
    modifies fs
    ensures fs.log == old(fs.log) + Commands(video1, video2, synced1, synced2, step)[2..]
    ensures st == Completed
    ensures fs.files ==
      (old(fs.files) + (if shiftOk then {synced2} else {}) + (if copyOk then {synced1} else {})) - {Audio1, Audio2}
  {
    fs.Run(ShiftVideo(video2, step), synced2, shiftOk);
    fs.Run(Copy(video1), synced1, copyOk);
    st := fs.Remove(Audio1);
    if st != Completed {
      return;
    }
    st := fs.Remove(Audio2);
  }

  /** The second output holds the second recording, moved, and the first
      output an unchanged copy of the first, as long as the two outputs are
      distinct and the copy does not read the file the shift just wrote. */
  lemma OutputStreams(video1: Path, video2: Path, synced1: Path, synced2: Path, step: ShiftStep)
    requires video1 !in {Audio1, Audio2, synced2} && video2 !in {Audio1, Audio2}
    requires synced1 != synced2
    ensures var out := Replay(Commands(video1, video2, synced1, synced2, step),
                              map[video1 := Own(video1), video2 := Own(video2)], map[]);
      Lookup(out, synced1) == Own(video1) && Lookup(out, synced2) == Own(video2)
  {
    var env := map[video1 := Own(video1), video2 := Own(video2)];
    var ms: map<Path, seq<Path>> := map[];
    var cmds := Commands(video1, video2, synced1, synced2, step);
    var e1 := env[Audio1 := Produce(cmds[0].op, env, ms)];
    var e2 := e1[Audio2 := Produce(cmds[1].op, e1, ms)];
    var e3 := e2[synced2 := Produce(cmds[2].op, e2, ms)];
    assert Replay(cmds, env, ms) == Replay(cmds[1..], e1, ms);
    assert Replay(cmds[1..], e1, ms) == Replay(cmds[2..], e2, ms);
    assert Replay(cmds[2..], e2, ms) == Replay(cmds[3..], e3, ms);
    ReplayLast(cmds[3..], e3, ms);
    ReplayKeeps(cmds[3..], e3, ms, synced2);
    assert Lookup(e2, video2) == Own(video2);
    assert Lookup(e3, video1) == Own(video1);
  }
}
