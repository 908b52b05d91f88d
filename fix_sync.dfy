/** `fix_sync.py`: move a recording's sound against its picture by
    `delay` seconds. The audio is extracted, then either trimmed at its
    start (a negative delay) or preceded by silence (otherwise), and muxed
    back under the untouched picture. Every command runs with `check=True`
    and every removal is a plain `os.remove`. */
module FixSync {
  import opened Base
  import opened Files
  import opened Manifest
  import opened Shift
  import opened Provenance

  const AudioFile: Path := "recorded_videos/temp_extracted_audio.mp4"
  const ShiftedAudio: Path := "temp_shifted_audio.mp4"
  const SilenceFile: Path := "temp_silence.wav"
  const ConcatFile: Path := "concat_list.txt"

  /** The relative manifest of the delay branch: the silence, then the
      extracted audio. */
  function SilenceFirst(): (text: string)
    ensures text == Entry(SilenceFile) + Entry(AudioFile)
  {
    SerializeTwo(SilenceFile, AudioFile);
    Serialize([SilenceFile, AudioFile])
  }

  /** The delay branch's manifest plays the silence first. */
  lemma SilenceFirstOrder()
    ensures Parse(SilenceFirst()) == Some([SilenceFile, AudioFile])
  {
    NamesQuotable();
    var paths := [SilenceFile, AudioFile];
    assert forall k :: 0 <= k < |paths| ==> Quotable(paths[k]);
    ParseSerialize(paths);
  }

  lemma NamesQuotable()
    ensures Quotable(SilenceFile) && Quotable(AudioFile)
  {
    assert forall k :: 0 <= k < |SilenceFile| ==> SilenceFile[k] != '\'' && SilenceFile[k] != '\n';
    assert forall k :: 0 <= k < |AudioFile| ==> AudioFile[k] != '\'' && AudioFile[k] != '\n';
  }

  /** The commands of `shift_audio(input, output, delay)` in the order they
      run: three when the audio is trimmed, four when silence is added. */
  function Commands(input: Path, delay: real, output: Path): (cmds: seq<Command>)
    ensures |cmds| == if delay < 0.0 then 3 else 4
    ensures cmds[0] == Command(ExtractAudio(input, None), AudioFile)
    ensures cmds[|cmds| - 1] == Command(Mux(input, ShiftedAudio, true, true), output)
  {
    var step := FixSyncStep(delay);
    [Command(ExtractAudio(input, None), AudioFile)]
    + (if step.Trim? then [Command(TrimStart(AudioFile, step.seconds), ShiftedAudio)]
       else [Command(Silence(step.seconds), SilenceFile), Command(Concat(ConcatFile, true), ShiftedAudio)])
    + [Command(Mux(input, ShiftedAudio, true, true), output)]
  }

  /** The directory after a run over `files` whose command `failAt` fails
      (`failAt` at least the number of commands: none fails). */
  function After(files: set<Path>, delay: real, output: Path, failAt: nat): set<Path>
  {
    if delay < 0.0 then
      if failAt == 0 then files
      else if failAt == 1 then files + {AudioFile}
      else if failAt == 2 then files + {AudioFile, ShiftedAudio}
      else (files + {output}) - {AudioFile, ShiftedAudio}
    else
      if failAt == 0 then files
      else if failAt == 1 then files + {AudioFile}
      else if failAt == 2 then files + {AudioFile, SilenceFile, ConcatFile}
      else if failAt == 3 then (files - {SilenceFile, ConcatFile}) + {AudioFile, ShiftedAudio}
      else ((files - {SilenceFile, ConcatFile}) + {output}) - {AudioFile, ShiftedAudio}
  }

  /** Commands 1 and up to the removals of the branch: the shifted audio
      track, from the extracted one. */
  method MakeShiftedAudio(fs: FileSystem, input: Path, output: Path, delay: real, failAt: nat)
    returns (manifest: string, st: Status)
    requires AudioFile in fs.files && failAt >= 1
    modifies fs
    ensures var cmds := Commands(input, delay, output); var n := |cmds| - 1;
      fs.log == old(fs.log) + cmds[1..if failAt < n then failAt + 1 else n]
    ensures delay >= 0.0 && failAt >= 2 ==> manifest == SilenceFirst()
    ensures st == (if failAt == 1 then CalledProcessError(if delay < 0.0 then ShiftedAudio else SilenceFile)
                   else if failAt == 2 && delay >= 0.0 then CalledProcessError(ShiftedAudio)
                   else Completed)
    ensures delay < 0.0 ==> fs.files == if failAt == 1 then old(fs.files) else old(fs.files) + {ShiftedAudio}
    ensures delay >= 0.0 ==>
      fs.files == (if failAt == 1 then old(fs.files)
                   else if failAt == 2 then old(fs.files) + {SilenceFile, ConcatFile}
                   else (old(fs.files) - {SilenceFile, ConcatFile}) + {ShiftedAudio})
  {
    ghost var cmds := Commands(input, delay, output);
    var step := FixSyncStep(delay);
    manifest := [];
    if step.Trim? {
      fs.Run(TrimStart(AudioFile, step.seconds), ShiftedAudio, failAt != 1);
      assert fs.log == old(fs.log) + cmds[1..2];
      return manifest, if failAt == 1 then CalledProcessError(ShiftedAudio) else Completed;
    }
    fs.Run(Silence(step.seconds), SilenceFile, failAt != 1);
    assert fs.log == old(fs.log) + cmds[1..2];
    if failAt == 1 {
      return manifest, CalledProcessError(SilenceFile);
    }
    fs.WriteText(ConcatFile);
    manifest := SilenceFirst();
    fs.Run(Concat(ConcatFile, true), ShiftedAudio, failAt != 2);
    assert fs.log == old(fs.log) + cmds[1..3];
    if failAt == 2 {
      return manifest, CalledProcessError(ShiftedAudio);
    }
    st := fs.Remove(SilenceFile);
    if st != Completed {
      return;
    }
    st := fs.Remove(ConcatFile);
  }

  /** `shift_audio(input, output, delay)`; `failAt` is the first failing
      command of `Commands(input, delay, output)`. */
  method ShiftAudio(fs: FileSystem, input: Path, output: Path, delay: real, failAt: nat)
    returns (step: ShiftStep, manifest: string, st: Status)
    modifies fs
    ensures step == FixSyncStep(delay)
    ensures var cmds := Commands(input, delay, output);
      fs.log == old(fs.log) + cmds[..if failAt < |cmds| then failAt + 1 else |cmds|] &&
      (failAt < |cmds| ==> st == CalledProcessError(cmds[failAt].output)) &&
      (failAt >= |cmds| ==> st == Completed)
    ensures fs.files == After(old(fs.files), delay, output, failAt)
    ensures delay >= 0.0 && failAt >= 2 ==> manifest == SilenceFirst()
  {
    ghost var cmds := Commands(input, delay, output);
    var n := if delay < 0.0 then 3 else 4;
    step := FixSyncStep(delay);
    manifest := [];
    fs.Run(ExtractAudio(input, None), AudioFile, failAt != 0);
    assert fs.log == old(fs.log) + cmds[..1];
    if failAt == 0 {
      return step, manifest, CalledProcessError(AudioFile);
    }
    manifest, st := MakeShiftedAudio(fs, input, output, delay, failAt);
    if st != Completed {
      assert fs.log == old(fs.log) + cmds[..failAt + 1] by {
        assert cmds[..failAt + 1] == cmds[..1] + cmds[1..failAt + 1];
      }
      return;
    }
    assert fs.log == old(fs.log) + cmds[..n - 1] by {
      assert cmds[..n - 1] == cmds[..1] + cmds[1..n - 1];
    }
    st := MuxAndClean(fs, input, output, failAt != n - 1);
    assert fs.log == old(fs.log) + cmds[..n];
  }

  /** The last command, the mux, then the removal of the extracted and the
      shifted track. Both tracks exist at that point, so the removals find
      them. */
  method MuxAndClean(fs: FileSystem, input: Path, output: Path, succeeds: bool) returns (st: Status)
    requires AudioFile in fs.files && ShiftedAudio in fs.files
    modifies fs
    ensures fs.log == old(fs.log) + [Command(Mux(input, ShiftedAudio, true, true), output)]
    ensures st == if succeeds then Completed else CalledProcessError(output)
    ensures fs.files == if succeeds then (old(fs.files) + {output}) - {AudioFile, ShiftedAudio} else old(fs.files)
  {
    fs.Run(Mux(input, ShiftedAudio, true, true), output, succeeds);
    if !succeeds {
      return CalledProcessError(output);
    }
    st := fs.Remove(AudioFile);
    if st != Completed {
      return;
    }
    st := fs.Remove(ShiftedAudio);
  }

  /** The output keeps the input's picture and carries only the input's
      own sound, whichever branch shifted it: the generated silence and the
      trimming contribute nothing else. */
  lemma OutputStreams(input: Path, delay: real, output: Path)
    requires input != AudioFile && input != ShiftedAudio && input != SilenceFile
    ensures Lookup(Replay(Commands(input, delay, output), map[input := Own(input)],
                          map[ConcatFile := [SilenceFile, AudioFile]]), output)
      == Own(input)
  {
    var env := map[input := Own(input)];
    var ms := map[ConcatFile := [SilenceFile, AudioFile]];
    var cmds := Commands(input, delay, output);
    var e1 := env[AudioFile := Produce(cmds[0].op, env, ms)];
    assert Replay(cmds, env, ms) == Replay(cmds[1..], e1, ms);
    assert Lookup(e1, AudioFile) == Streams({}, {input});
    if delay < 0.0 {
      var e2 := e1[ShiftedAudio := Produce(cmds[1].op, e1, ms)];
      assert Replay(cmds[1..], e1, ms) == Replay(cmds[2..], e2, ms);
      ReplayLast(cmds[2..], e2, ms);
      assert Lookup(e2, ShiftedAudio) == Streams({}, {input});
      assert Lookup(e2, input) == Own(input);
    } else {
      var e2 := e1[SilenceFile := Produce(cmds[1].op, e1, ms)];
      var e3 := e2[ShiftedAudio := Produce(cmds[2].op, e2, ms)];
      assert Replay(cmds[1..], e1, ms) == Replay(cmds[2..], e2, ms);
      assert Replay(cmds[2..], e2, ms) == Replay(cmds[3..], e3, ms);
      ReplayLast(cmds[3..], e3, ms);
      JoinTwo(e2, SilenceFile, AudioFile);
      assert Lookup(e3, ShiftedAudio) == Streams({}, {input});
      assert Lookup(e3, input) == Own(input);
    }
  }
}
