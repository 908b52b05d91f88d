/** `auto_fix_offset` and its helpers, as written in
    `sync_video_with_subtitles.py` and, nearly identically, in
    `audio_video_sync.py`: choose a duration plan, then build a blank lead-in
    from the reference, re-encode the target, concatenate the two by stream
    copy and remove the intermediate files. Every command runs with
    `check=True`, so the first failing command raises and skips everything
    after it, including the removals. */
module AutoFix {
  import opened Base
  import opened Alignment
  import opened Files
  import opened Manifest
  import opened Provenance

  const TempOffsetAudio: Path := "temp_offset_audio.aac"
  const BlankWithAudio: Path := "blank_with_audio.mp4"
  const DesyncedFixed: Path := "desynced_fixed.mp4"
  const ConcatList: Path := "concat_list.txt"

  /** The intermediate files of one run. */
  function Temporaries(): set<Path>
  {
    {TempOffsetAudio, BlankWithAudio, DesyncedFixed, ConcatList}
  }

  /** The commands of a padding run, in the order they run. */
  function PadCommands(plan: Plan, output: Path): (cmds: seq<Command>)
    requires plan.Pad?
    ensures |cmds| == 4
  {
    [ Command(ExtractAudio(plan.reference, Some(plan.lead)), TempOffsetAudio),
      Command(BlankVideo(Some(TempOffsetAudio), plan.lead), BlankWithAudio),
      Command(Reencode(plan.target), DesyncedFixed),
      Command(Concat(ConcatList, true), output) ]
  }

  /** `create_offset_video(refVideo, offset, output=output)`: extract the
      reference's first `offset` seconds of audio into a temporary track, put
      it under a black picture of the same length in `output`, remove the
      track. `extractOk` and `blankOk` are the two commands' outcomes. */
  method CreateOffsetVideo(fs: FileSystem, refVideo: Path, offset: real, output: Path, extractOk: bool, blankOk: bool)
    returns (st: Status)
    modifies fs
    ensures fs.log == old(fs.log) + [Command(ExtractAudio(refVideo, Some(offset)), TempOffsetAudio)]
                     + (if extractOk then [Command(BlankVideo(Some(TempOffsetAudio), offset), output)] else [])
    ensures !extractOk ==> st == CalledProcessError(TempOffsetAudio) && fs.files == old(fs.files)
    ensures extractOk && !blankOk ==> st == CalledProcessError(output) && fs.files == old(fs.files) + {TempOffsetAudio}
    ensures extractOk && blankOk ==>
      st == Completed && fs.files == (old(fs.files) + {TempOffsetAudio, output}) - {TempOffsetAudio}
  {
    fs.Run(ExtractAudio(refVideo, Some(offset)), TempOffsetAudio, extractOk);
    if !extractOk {
      return CalledProcessError(TempOffsetAudio);
    }
    fs.Run(BlankVideo(Some(TempOffsetAudio), offset), output, blankOk);
    if !blankOk {
      return CalledProcessError(output);
    }
    st := fs.Remove(TempOffsetAudio);
  }

  /** `reencode_video(video, output)`: one command. */
  method ReencodeVideo(fs: FileSystem, video: Path, output: Path, ok: bool) returns (st: Status)
    modifies fs
    ensures fs.log == old(fs.log) + [Command(Reencode(video), output)]
    ensures st == (if ok then Completed else CalledProcessError(output))
    ensures fs.files == if ok then old(fs.files) + {output} else old(fs.files)
  {
    fs.Run(Reencode(video), output, ok);
    st := if ok then Completed else CalledProcessError(output);
  }

  /** `concat_videos(video1, video2, output)`: write the two-entry manifest,
      concatenate by stream copy into `output`, remove the manifest. Returns
      the manifest text. */
  method ConcatVideos(fs: FileSystem, abspath: Path -> Path, video1: Path, video2: Path, output: Path, ok: bool)
    returns (manifest: string, st: Status)
    modifies fs
    ensures manifest == ConcatManifest(abspath, video1, video2)
    ensures fs.log == old(fs.log) + [Command(Concat(ConcatList, true), output)]
    ensures !ok ==> st == CalledProcessError(output) && fs.files == old(fs.files) + {ConcatList}
    ensures ok ==> st == Completed && fs.files == (old(fs.files) + {ConcatList, output}) - {ConcatList}
  {
    fs.WriteText(ConcatList);
    manifest := ConcatManifest(abspath, video1, video2);
    fs.Run(Concat(ConcatList, true), output, ok);
    if !ok {
      return manifest, CalledProcessError(output);
    }
    st := fs.Remove(ConcatList);
  }

  /** `auto_fix_offset(videoA, videoB, output, presenter, presentation)`
      with audio durations `a1` and `a2`. The four commands of a padding run
      are numbered 0 to 3 as in `PadCommands`; `failAt` is the first that
      fails, and a value of 4 or more means all succeed. */
  method AutoFixOffset(fs: FileSystem, abspath: Path -> Path, videoA: Path, videoB: Path, output: Path,
                       presenter: Path, presentation: Path, a1: real, a2: real, failAt: nat)
    returns (plan: Plan, fixed: FixedType, manifest: string, st: Status)
    modifies fs
    ensures plan == AutoFixPlan(videoA, videoB, a1, a2)
    ensures plan.NoOp? ==> st == Completed && fs.files == old(fs.files) && fs.log == old(fs.log)
    ensures plan.Pad? ==> fixed == ClassifyFixed(plan.target, presenter, presentation)
    // the commands run are those of the plan, up to and including the first that fails
    ensures plan.Pad? ==> fs.log == old(fs.log) + PadCommands(plan, output)[..if failAt < 4 then failAt + 1 else 4]
    ensures plan.Pad? && failAt == 0 ==> st == CalledProcessError(TempOffsetAudio) && fs.files == old(fs.files)
    ensures plan.Pad? && failAt == 1 ==>
      st == CalledProcessError(BlankWithAudio) && fs.files == old(fs.files) + {TempOffsetAudio}
    ensures plan.Pad? && failAt == 2 ==>
      st == CalledProcessError(DesyncedFixed) && fs.files == (old(fs.files) - {TempOffsetAudio}) + {BlankWithAudio}
    ensures plan.Pad? && failAt == 3 ==>
      st == CalledProcessError(output) &&
      fs.files == (old(fs.files) - {TempOffsetAudio}) + {BlankWithAudio, DesyncedFixed, ConcatList}
    ensures plan.Pad? && failAt >= 3 ==> manifest == ConcatManifest(abspath, BlankWithAudio, DesyncedFixed)
    ensures plan.Pad? && failAt >= 4 ==>
      st == Completed &&
      fs.files == ((old(fs.files) - {TempOffsetAudio}) + {output}) - {ConcatList, BlankWithAudio, DesyncedFixed}
    // a completed padding run leaves no intermediate file behind and adds nothing but the output
    ensures plan.Pad? && st == Completed ==>
      fs.files * Temporaries() <= {output} && fs.files - old(fs.files) <= {output} &&
      (output !in Temporaries() ==> fs.files == (old(fs.files) - Temporaries()) + {output})
    // the strict removals never find a file missing
    ensures !st.FileNotFoundError?
  {
    plan := AutoFixPlan(videoA, videoB, a1, a2);
    fixed, manifest := Unknown, [];
    if plan.NoOp? {
      return plan, fixed, manifest, Completed;
    }
    fixed := ClassifyFixed(plan.target, presenter, presentation);
    manifest, st := RunPad(fs, abspath, plan, output, failAt);
  }

  /** The four commands of a padding run and the two strict removals. */
  method RunPad(fs: FileSystem, abspath: Path -> Path, plan: Plan, output: Path, failAt: nat)
    returns (manifest: string, st: Status)
    requires plan.Pad?
    modifies fs
    ensures fs.log == old(fs.log) + PadCommands(plan, output)[..if failAt < 4 then failAt + 1 else 4]
    ensures failAt == 0 ==> st == CalledProcessError(TempOffsetAudio) && fs.files == old(fs.files)
    ensures failAt == 1 ==> st == CalledProcessError(BlankWithAudio) && fs.files == old(fs.files) + {TempOffsetAudio}
    ensures failAt == 2 ==>
      st == CalledProcessError(DesyncedFixed) && fs.files == (old(fs.files) - {TempOffsetAudio}) + {BlankWithAudio}
    ensures failAt == 3 ==>
      st == CalledProcessError(output) &&
      fs.files == (old(fs.files) - {TempOffsetAudio}) + {BlankWithAudio, DesyncedFixed, ConcatList}
    ensures failAt >= 3 ==> manifest == ConcatManifest(abspath, BlankWithAudio, DesyncedFixed)
    ensures failAt >= 4 ==>
      st == Completed &&
      fs.files == ((old(fs.files) - {TempOffsetAudio}) + {output}) - {ConcatList, BlankWithAudio, DesyncedFixed}
  {
    manifest := [];
    ghost var cmds := PadCommands(plan, output);
    st := CreateOffsetVideo(fs, plan.reference, plan.lead, BlankWithAudio, failAt != 0, failAt != 1);
    if st != Completed {
      assert cmds[..if failAt < 4 then failAt + 1 else 4] == cmds[..failAt + 1];
      return;
    }
    st := ReencodeVideo(fs, plan.target, DesyncedFixed, failAt != 2);
    if st != Completed {
      return;
    }
    manifest, st := ConcatVideos(fs, abspath, BlankWithAudio, DesyncedFixed, output, failAt != 3);
    if st != Completed {
      return;
    }
    st := fs.Remove(BlankWithAudio);
    if st != Completed {
      return;
    }
    st := fs.Remove(DesyncedFixed);
  }

  /** The padded output shows only the target's picture (after black) and
      plays the reference's sound during the lead-in, then the target's. */
  lemma OutputStreams(plan: Plan, output: Path)
    requires plan.Pad? && plan.reference !in Temporaries() && plan.target !in Temporaries()
    ensures var env := map[plan.reference := Own(plan.reference), plan.target := Own(plan.target)];
      Lookup(Replay(PadCommands(plan, output), env, map[ConcatList := [BlankWithAudio, DesyncedFixed]]), output)
        == Streams({plan.target}, {plan.reference, plan.target})
  {
    var env := map[plan.reference := Own(plan.reference), plan.target := Own(plan.target)];
    var ms := map[ConcatList := [BlankWithAudio, DesyncedFixed]];
    var cmds := PadCommands(plan, output);
    var e1 := env[TempOffsetAudio := Produce(cmds[0].op, env, ms)];
    var e2 := e1[BlankWithAudio := Produce(cmds[1].op, e1, ms)];
    var e3 := e2[DesyncedFixed := Produce(cmds[2].op, e2, ms)];
    assert Replay(cmds, env, ms) == Replay(cmds[1..], e1, ms);
    assert Replay(cmds[1..], e1, ms) == Replay(cmds[2..], e2, ms);
    assert Replay(cmds[2..], e2, ms) == Replay(cmds[3..], e3, ms);
    ReplayLast(cmds[3..], e3, ms);
    JoinTwo(e3, BlankWithAudio, DesyncedFixed);
    assert Lookup(e1, TempOffsetAudio) == Streams({}, {plan.reference});
    assert Lookup(e2, BlankWithAudio) == Streams({}, {plan.reference});
    assert Lookup(e2, plan.target) == Own(plan.target);
    assert Lookup(e3, DesyncedFixed) == Own(plan.target);
  }
}
