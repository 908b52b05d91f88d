# audio_video_corrector: a verified model of the synchronisation core

The scripts of `audio_video_corrector` align two recordings of the same
talk: a presenter camera and a slides capture. They do it in one of two
ways.

- **Padding by duration.** `auto_fix_offset` exists in two nearly identical
  copies. It compares the durations of the two recordings and, when they
  differ by at least 0.1 s, puts a blank lead-in before the shorter one.
  `pad_presenter_video` always pads the presenter recording, with a black
  lead-in of `max(0, slides - presenter)` seconds, which is 0 when the
  presenter is at least as long.
- **Shifting by offset.** `shift_audio` and the two `sync_videos` variants
  move one stream by a signed offset. The offset comes from a
  cross-correlation of the two audio tracks or from an offset finder.

Every transcoding step is an external command that writes one named file.
Each script removes its intermediate files at the end. `assign_flavor.py`
maps the name of the fixed recording to a pipeline flavour line.

The model has these modules:

- `Alignment`: the duration plans.
- `Correlation` and `Autocorrelation`: the cross-correlation offset
  estimator, computed as an exact integer sum with a first-index argmax.
- `Shift`: how each script turns an offset into a concrete shift, and where
  that shift moves the content.
- `Manifest`: the concat manifest serialiser, proved against a parser.
- `Media`: the encode profiles and output lengths.
- `Flavor`: the flavour mapping.
- `Files`: the working directory, modelled as a `FileSystem` class. It holds
  the set of existing file names and the log of commands run. Each script
  becomes an imperative method on it:
  - `AutoFix`: both copies of `auto_fix_offset`.
  - `PadPresenter`: `video_sync_secondversion.py`.
  - `FixSync`: `fix_sync.py`.
  - `WisSync`: `wis.py`.
  - `NewSync`: `new_sync_file.py`.
  - `PairSync`: the steps `wis.py` and `new_sync_file.py` share.
- `Provenance`: reads each command as a map from the provenance of its
  inputs to that of its output. The provenance is whose picture and whose
  sound a file holds. With it, the model proves which recording's audio ends
  up in each output.

A command's outcome is a parameter of each script's method. The
`check=True` scripts take the index of the first failing command. The other
two scripts take the set of commands that fail. Durations, sample data and
the offset finder's answer are parameters as well.

Three behaviours of the code deserve stating outright:

- **Sign of the offset.** `get_offset` computes
  `argmax(correlate(data1, data2)) - (n - 1)` in the full-correlation
  convention. It is positive when the second signal's content comes
  *earlier* than the first's (`Correlation.ImpulseOffset`).
- **Temporaries after a failure.** A failing `check=True` command raises
  and skips every later removal. The model states exactly which
  temporaries remain at each failure point.
- **Failed removals.** A plain `os.remove` raises on a missing file, except
  in `video_sync_secondversion.py`'s clean-up loop, which ignores it.

## Model

| member | source | states |
|---|---|---|
| Alignment.AutoFixPlan | sync_video_with_subtitles.py:130-141 | no plan exactly when the audio durations differ by less than 0.1 s; otherwise a pad whose lead is the absolute difference, hence at least 0.1 s, with the strictly longer input as reference; never a shift. audio_video_sync.py:87-97 makes the same choice |
| Alignment.AutoFixRoles | sync_video_with_subtitles.py:134-141 | reference and target are, as a multiset, exactly the two inputs; for distinct inputs the reference is `video_a` iff `a1 > a2` and `video_b` iff `a2 > a1` |
| Alignment.AutoFixCloses | sync_video_with_subtitles.py:134-141 | the lead plus the shorter duration equals the longer duration |
| Alignment.FixedTypeName | sync_video_with_subtitles.py:144-149 | the recorded name is "presenter" exactly for `Presenter`, "presentation" exactly for `Presentation` and "unknown" exactly for `Unknown`, the three literals of the if/elif/else |
| Alignment.ClassifyFixed | sync_video_with_subtitles.py:144-149 | "presenter" iff the target is the presenter file; "presentation" iff it is not and is the presentation file; "unknown" iff it is neither (the presenter test wins) |
| Alignment.PadPresenterPlan | video_sync_secondversion.py:50-53 | always pads the presenter with lead `max(0, slides - presenter)`: never negative, zero iff the presenter is at least as long, the exact difference otherwise |
| Alignment.PadPresenterCovers | video_sync_secondversion.py:53 | lead plus presenter duration equals the longer duration, so it never falls short of the slides |
| Alignment.DurationStrategiesAgree | video_sync_secondversion.py:53 | for one and the same pair of durations with the slides longer by at least 0.1 s, the decision rule of `auto_fix_offset` and that of `pad_presenter_video` give the same plan (the scripts probe different durations, see "## Left out") |
| Media.BlankSegmentProfile | sync_video_with_subtitles.py:68-78 | the blank lead-in has the requested resolution; every other setting (25 fps, 44100 Hz stereo AAC at 192 kbit/s, H.264) is the re-encode profile's |
| Media.ReencodeProfile | sync_video_with_subtitles.py:96-98 | `reencode_video` gives 1280x720 at 25 fps, H.264, 44100 Hz stereo AAC at 192 kbit/s |
| Media.PaddedLength | sync_video_with_subtitles.py:66-122 | the padded output lasts the target's length plus the lead-in: the full `lead` when the reference has that much audio, otherwise the reference's audio length, at which `-shortest` ends the blank segment |
| Media.StreamCopyConcatCompatible | sync_video_with_subtitles.py:63-100 | the blank segment's profile equals the re-encode profile (1280x720, 25 fps, 44100 Hz stereo, AAC 192k, H.264) iff the blank keeps the default resolution, which is what the stream-copy concatenation needs |
| Media.KeepFirst | sync_video_with_subtitles.py:63-70 | `-t d` keeps `min(length, d)`: at most both, equal to one of them |
| Media.PaddedOutputMatchesReference | audio_video_sync.py:31-53 | for a padding plan the reference has at least `lead` seconds of audio to extract, and the padded output is exactly as long as the longer input |
| Media.Shortest | fix_sync.py:58-66 | `-shortest` ends the output with the shorter of video and audio |
| Correlation.Correlate | wis.py:29 | the full correlation has `2n - 1` entries, entry `k` being `sum of d1[l] * d2[l - k + n - 1]` |
| Correlation.FirstArgmax | wis.py:30 | an index of a maximum, strictly above every earlier entry (the first maximum) |
| Correlation.Lag | wis.py:29-30 | the lag lies in `[-(n - 1), n - 1]` and its correlation entry is the first maximum |
| Correlation.MinLength | wis.py:25-27 | the common length is the smaller of the two lengths |
| Correlation.GetOffset | wis.py:17-32 | `ValueError` iff the rates differ; an error iff the rates agree and a signal is empty (`argmax` of nothing); otherwise `offset * rate` is the lag of the signals truncated to their common length, within `[-(n - 1), n - 1]` |
| Correlation.OnlyCommonPrefixCounts | wis.py:25-27 | samples beyond the shorter signal never change the estimate |
| Correlation.ImpulseOffset | wis.py:29-31 | events at sample `i` of the first and `j` of the second give exactly `(i - j) / rate`: positive when the second signal's event is earlier |
| Autocorrelation.SelfCorrelationPeak | wis.py:29-30 | a signal's self-correlation peaks at lag 0 with its energy, strictly unless the signal is silent |
| Autocorrelation.IdenticalSignalsInSync | wis.py:17-32 | two identical non-silent signals are estimated exactly in sync |
| Autocorrelation.SilentSignalsMostNegative | wis.py:29-31 | a silent first signal gives the most negative lag, `-(n - 1) / rate` |
| Shift.IntOf | new_sync_file.py:31 | `int(x)` truncates toward zero |
| Shift.Millis | new_sync_file.py:31 | `int(seconds * 1000)` is the whole number of milliseconds not above `seconds` |
| Shift.FixSyncStep | fix_sync.py:18-38 | trims iff the delay is negative, by its magnitude (> 0); otherwise prepends exactly `delay` seconds of silence, zero included |
| Shift.WisStep | wis.py:35-50 | seeks iff the offset is positive, by the offset; otherwise delays by `abs(offset)`, audio by `int(abs(offset) * 1000)` ms |
| Shift.NewSyncStep | new_sync_file.py:29-49 | delays iff the offset is at least 0, by the offset and `int(offset * 1000)` ms; otherwise seeks `abs(offset)` |
| Shift.ZeroOffsetDelays | new_sync_file.py:30-31 | an offset of exactly 0 takes the delaying branch in all three scripts, with a zero delay |
| Shift.OppositeBranches | wis.py:37 | for every non-zero offset, `wis.py` and `new_sync_file.py` take opposite branches |
| Shift.FixSyncMovesByDelay | fix_sync.py:18-50 | the audio content moves later by exactly `delay` in both branches |
| Shift.NewSyncMovesByOffset | new_sync_file.py:30-49 | the picture moves by exactly the offset; the audio is at most 1 ms earlier than the picture, never later |
| Shift.WisMovesAgainstOffset | wis.py:37-50 | the picture moves by minus the offset; the audio is within 1 ms, as above |
| Shift.CorrectedWisStep | wis.py:35-50 | the intended shift moves the second video by exactly the offset, trimming iff it is negative |
| Shift.CorrectedIsNewSync | new_sync_file.py:29-49 | the intended shift of `wis.py` is `new_sync_file.py`'s |
| Shift.CorrectedShiftAligns | wis.py:59-63 | for events at samples `i` and `j`, the estimate is `i - j` samples; the intended shift puts the second video's event exactly on the first one's; and the estimator run again on the first track and the second track moved by `i - j` samples (`Shift.ShiftSamples`: silence in front, or its start cut) reads 0 |
| Shift.WisShiftMisaligns | wis.py:59-63 | as written, the event lands at `(2j - i) / rate`, off whenever `i != j` |
| Shift.WisShiftCounterexample | wis.py:43-50 | at 1 Hz, signals `[1, 0]` and `[0, 1]` give offset -1.0; `wis.py` delays the second video by 1 s (1000 ms), moving its event from second 1 to second 2, where the intended step trims 1 s and puts it at second 0 |
| Shift.ShiftedAudioLength | fix_sync.py:18-50 | the shifted track's length is never negative |
| Shift.FixSyncOutputLength | fix_sync.py:58-66 | the output is never longer than the input video; a delay the video has room for keeps the whole shifted audio; a trim gives `min(video, max(0, audio + delay))` |
| Manifest.Entry | sync_video_with_subtitles.py:113-114 | one line: `file '`, the path, `'` and a newline |
| Manifest.Serialize | sync_video_with_subtitles.py:112-114 | the manifest is empty iff it lists no path |
| Manifest.ParseSerialize | sync_video_with_subtitles.py:112-114 | reading a manifest back gives exactly its paths, in order, for any paths without quote or newline |
| Manifest.SerializeParse | sync_video_with_subtitles.py:112-114 | every readable manifest is the serialisation of the paths it lists |
| Manifest.ConcatManifest | sync_video_with_subtitles.py:112-114 | the manifest `concat_videos` writes is the entry for `abspath(video1)` followed by the entry for `abspath(video2)` |
| Manifest.ConcatManifestOrder | audio_video_sync.py:68-70 | `concat_videos` lists exactly two segments, `abspath(video1)` then `abspath(video2)` |
| Manifest.QuoteBreaksEntry | sync_video_with_subtitles.py:113 | a path containing a single quote no longer reads back as one entry |
| Flavor.Strip | assign_flavor.py:4 | the stripped text neither starts nor ends with whitespace |
| Flavor.StripIsInfix | assign_flavor.py:4 | the stripped text is a contiguous piece `s[a..b]` of the input with only whitespace before `a` and from `b` on: `strip()` removes nothing else |
| Flavor.FlavorLine | assign_flavor.py:6-11 | "presenter" gives `flavor=presenter/work`, "presentation" gives `flavor=presentation/work`, and anything else `flavor=sync/error`, each as an iff |
| Flavor.Output | assign_flavor.py:6-11 | exactly one line is printed, ending in the only newline |
| Flavor.StripPadded | assign_flavor.py:4 | whitespace added around a text never changes its stripped form |
| Flavor.PaddingIgnored | assign_flavor.py:4-11 | leading and trailing whitespace, including the file's final newline, never changes the line printed |
| Provenance.Produce | video_sync_secondversion.py:33-83 | the definition of what each command's output holds, which `Provenance.ProduceFromInputs` and the `OutputStreams` lemmas reason about: no picture after `-vn` (sync_video_with_subtitles.py:67) or from a generated source, no sound after `-an` (line 38); re-encoding, trimming, moving and copying keep both streams; a concatenation holds every segment's streams; `-map 0:v:0 -map 1:a:0` (fix_sync.py:62-63) takes exactly the first input's picture and the second's sound, while the default selection (lines 75-83) may take either stream from either input |
| Provenance.ProduceFromInputs | video_sync_secondversion.py:75-83 | every picture and sound in a command's output comes from one of the files the command reads |
| Provenance.JoinAllFromSegments | sync_video_with_subtitles.py:116-122 | a concatenation holds only what the segments its manifest lists hold |
| Files.FileSystem.Run | sync_video_with_subtitles.py:63-70 | a command is logged; on success its output exists, on failure the directory is unchanged |
| Files.FileSystem.WriteText | sync_video_with_subtitles.py:112-114 | writing a file creates it |
| Files.FileSystem.Remove | sync_video_with_subtitles.py:82 | `os.remove` deletes the name, reporting `FileNotFoundError` iff it was missing |
| Files.FileSystem.RemoveIfPresent | video_sync_secondversion.py:91-94 | removal that ignores a missing file |
| AutoFix.PadCommands | sync_video_with_subtitles.py:152-154 | a padding run issues four commands: extract, blank, re-encode, concatenate |
| AutoFix.CreateOffsetVideo | sync_video_with_subtitles.py:51-82 | the commands run and files left for each outcome; the temporary track is gone only when both succeed |
| AutoFix.ReencodeVideo | sync_video_with_subtitles.py:85-100 | one command; the output exists iff it succeeds |
| AutoFix.ConcatVideos | sync_video_with_subtitles.py:103-123 | the manifest text is `ConcatManifest(video1, video2)`; a failure leaves the manifest behind; success removes it |
| AutoFix.AutoFixOffset | sync_video_with_subtitles.py:126-159 | no plan, no command and no file; otherwise the commands up to the first failure. For each failure point, the exact files left. A completed run leaves none of the four temporaries (except the output itself) and adds nothing but the output; a strict removal never misses. audio_video_sync.py:83-106 runs the same commands and removals |
| AutoFix.RunPad | sync_video_with_subtitles.py:152-157 | a padding run: the commands up to the first failure, the exact files left at each failure point, the manifest of the concatenation, and on success the output with the three temporaries it makes and removes gone |
| AutoFix.OutputStreams | sync_video_with_subtitles.py:152-154 | the output's picture is only the target's; its sound is the reference's (lead-in) and the target's |
| PadPresenter.Commands | video_sync_secondversion.py:46-83 | five commands: extract slides audio, black, silent presenter, concatenate, mux |
| PadPresenter.PrepareSegments | video_sync_secondversion.py:48-57 | the first three commands up to the first failure; each failure leaves exactly the outputs of the commands before it, success all three |
| PadPresenter.RemoveEach | video_sync_secondversion.py:86-94 | the clean-up loop removes exactly the listed names, a missing one skipped |
| PadPresenter.CleanupConverges | video_sync_secondversion.py:86-94 | the clean-up ends in the same directory however many temporaries are already gone; that directory is the old one minus exactly the temporaries and holds none of them, so a second pass finds nothing to remove |
| PadPresenter.RunCommands | video_sync_secondversion.py:48-83 | the commands up to the first failure and the files they leave; the manifest lists `abspath("black.mp4")` then `abspath("presenter_silent.mp4")` |
| PadPresenter.PadPresenterVideo | video_sync_secondversion.py:46-94 | lead from `PadPresenterPlan`; a failure leaves the temporaries made so far; success leaves exactly the old files plus the output, minus the five temporary names |
| PadPresenter.OutputStreams | video_sync_secondversion.py:33-83 | the output has the presenter's picture and only the slides' sound |
| FixSync.SilenceFirst | fix_sync.py:40-43 | the delay branch's manifest is the entry for the silence file followed by the entry for the extracted track, both relative names |
| FixSync.SilenceFirstOrder | fix_sync.py:40-43 | the delay branch's manifest lists the silence, then the extracted audio |
| FixSync.Commands | fix_sync.py:12-66 | three commands when trimming, four when adding silence; extraction first, mux last |
| FixSync.MakeShiftedAudio | fix_sync.py:18-54 | per branch and failure point, the commands run and the files left; the silence and manifest appear, and are removed, only in the delay branch |
| FixSync.MuxAndClean | fix_sync.py:58-70 | the mux either fails and leaves the directory as it was, or adds the output and both tracks are then removed without a miss |
| FixSync.ShiftAudio | fix_sync.py:4-70 | the step is `FixSyncStep(delay)`; the commands up to the first failure; the exact directory for every branch and failure point, the extracted and shifted tracks removed on success |
| FixSync.OutputStreams | fix_sync.py:58-66 | the output keeps the input's picture and only the input's sound, in both branches |
| PairSync.Commands | wis.py:53-65 | extract both tracks, shift `video2` into `synced2`, copy `video1` into `synced1` |
| PairSync.ExtractBoth | wis.py:55-56 | both extractions run; each track exists iff its command succeeded |
| PairSync.OpenBoth | wis.py:19-20 | reading raises `FileNotFoundError` for the first missing track, in order |
| PairSync.ShiftCopyClean | wis.py:63-69 | shift and copy run whatever their outcome; both tracks are then removed, never missing |
| PairSync.OutputStreams | wis.py:62-65 | `synced2` holds `video2` and `synced1` an unchanged copy of `video1` |
| WisSync.SyncVideos | wis.py:53-69 | a missing track raises on reading; a rate mismatch or empty track raises `ValueError`; otherwise `video2` is moved by `WisStep` of the estimate and both tracks are removed, with the exact directory for every case |
| NewSync.CopyTarget | new_sync_file.py:59 | the copy goes to the name whose first two characters are `./` and whose rest is `synced1` |
| NewSync.SyncVideos | new_sync_file.py:51-62 | any offset the finder returns is applied through `NewSyncStep`, whatever its score; if the finder fails, nothing is shifted or removed |

## Left out

- External commands: the argument strings of ffmpeg, ffprobe and `cp` are not modelled. Each command is a `Files.Op` that writes one named file. Codec settings appear only in `Media`'s profiles.
- Swapped `-i` and `-ss` arguments at wis.py:40: modelled as the intended trim. As written, ffmpeg takes the offset as an input file name. Such a command fails, which the `failing` set can express.
- Partial outputs: a failing command leaves the directory unchanged. A half-written file is not modelled.
- Duration probing: `get_audio_duration`, `get_video_duration` and their JSON or `float(stdout)` parsing are left out. Durations are parameters.
- Alignment.DurationStrategiesAgree: compares the two plan functions on one duration pair only. `auto_fix_offset` is given audio-stream durations (`stream=duration`, sync_video_with_subtitles.py:127-128), while `pad_presenter_video` is given container durations (`format=duration`, video_sync_secondversion.py:4-11, 50-51), so on real files the two scripts can compute different leads. The same plan also does not mean the same output: `auto_fix_offset` keeps and re-encodes the target's sound, while `pad_presenter_video` drops it.
- `find_offset_between_files`: it is a foreign library. Its answer is the parameter `found` of `NewSync.SyncVideos`. A missing track is assumed to make it fail. Its `trim` argument is never passed by `sync_videos`.
- `wavfile.read`: the rates and samples read back are parameters. So are the stale contents of a track left by an earlier run.
- Numerics not modelled:
  - int16 overflow;
  - FFT rounding in `correlate`;
  - floating-point division, so durations, offsets and the 0.1 s tolerance are exact reals;
  - the formatting of numbers passed through `str(...)`.
- Correlation.GetOffset: requires positive sample rates, as every WAV header has. A zero rate would make numpy divide by zero rather than raise.
- Provenance: timing is not tracked; `Shift` and `Media` cover timing. Without `-map`, both inputs of a mux are counted as possible sources.
- Media: output lengths are an abstract reading of `-t`, `-shortest`, re-encoding and concatenation. Container and codec effects are not modelled.
- Path names are compared literally. `os.path.abspath` is an uninterpreted function. `./x` and `x` count as different names (`NewSync.CopyTarget`).
- AutoFix.OutputStreams and PadPresenter.OutputStreams: the manifest given to the concat step lists the bare segment names, so these two lemmas identify `abspath(p)` with `p` for the two segments. The manifests the methods write hold `abspath` of those names (`Manifest.ConcatManifest`, `PadPresenter.RunCommands`).
- `print`, the `__main__` block and the module-level example calls (e.g. sync_video_with_subtitles.py:164, wis.py:72-73) are left out.
- assign_flavor.py: the read of `sync_target.txt` is left out. The file's text is the parameter of `Flavor.FlavorLine`. No script writes that file, and `auto_fix_offset` computes `fixed_type` without using it.
- Alignment.Plan: the `Shift` variant is produced by no function. The shifting scripts are described by `Shift.ShiftStep`, which also records the whole-millisecond audio delay.
- Text encoding of files and of `print` output is not modelled. Strings are sequences of characters.

## Findings

| source | as written | input that shows it | evidently intended | confidence | as-written member | corrected member |
|---|---|---|---|---|---|---|
| wis.py:37-50 | `shift_video` seeks `offset` seconds into `video2` when the offset from `get_offset` is positive, and delays it otherwise. A positive offset means `video2`'s audio event comes earlier, so the event moves from `j / rate` to `(2j - i) / rate` and the gap doubles. | rate 1, `data1 = [1, 0]`, `data2 = [0, 1]`: the offset is -1.0, and the delaying branch (wis.py:45-49, which runs as written) delays `video2` by 1 s (picture and both audio channels, 1000 ms), moving its event from second 1 to second 2 where an advance to second 0 is needed. For a positive offset the seeking branch at line 40 also has its `-i` and `-ss` arguments swapped, so that command fails and `synced2` is not written | delay `video2` by a positive offset and trim it by a negative one, as the branch's own "Delay the video" comment and `new_sync_file.py` do | not executed; high | Shift.WisShiftMisaligns | Shift.CorrectedShiftAligns |

`WisSync.SyncVideos` models `wis.py` as written, with `Shift.WisStep`.
`Shift.WisShiftCounterexample` gives the concrete input. The corrected step
`Shift.CorrectedWisStep` equals `Shift.NewSyncStep`, the step
`NewSync.SyncVideos` uses.
