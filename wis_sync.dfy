/** `wis.py`: align two recordings of one event by cross-correlating their
    audio. The offset comes from `Correlation.GetOffset` over the two
    tracks as read back from disk, and the second recording is moved as
    `Shift.WisStep` says. */
module WisSync {
  import opened Base
  import opened Files
  import opened Correlation
  import opened Shift
  import opened PairSync

  /** `sync_videos(video1, video2, synced1, synced2)`. `rate1`, `data1`,
      `rate2` and `data2` are the sample rates and samples of the two tracks
      as read back (those of a stale track when the extraction failed and an
      older one was still there); `failing` holds the numbers of the media
      commands of `PairSync.Commands` that fail. `estimate` is the offset
      estimate, when both tracks could be opened. */
  method SyncVideos(fs: FileSystem, video1: Path, video2: Path, synced1: Path, synced2: Path,
                    rate1: int, data1: seq<int>, rate2: int, data2: seq<int>, failing: set<nat>)
    returns (estimate: Option<Estimate>, st: Status)
    requires rate1 > 0 && rate2 > 0
    modifies fs
    ensures var has1 := 0 !in failing || Audio1 in old(fs.files);
            var has2 := 1 !in failing || Audio2 in old(fs.files);
            var e := GetOffset(rate1, data1, rate2, data2);
            var extracted := old(fs.files) + (if 0 !in failing then {Audio1} else {})
                                           + (if 1 !in failing then {Audio2} else {});
      // a missing track raises on opening, the first one first
      (!has1 ==> st == FileNotFoundError(Audio1)) &&
      (has1 && !has2 ==> st == FileNotFoundError(Audio2)) &&
      estimate == (if has1 && has2 then Some(e) else None) &&
      // rates that differ, or an empty track, raise while estimating
      (has1 && has2 && e.Err? ==> st == ValueError) &&
      (!(has1 && has2 && e.Ok?) ==>
         fs.log == old(fs.log) + Commands(video1, video2, synced1, synced2, Trim(0.0))[..2] &&
         fs.files == extracted) &&
      // otherwise the second recording is shifted as the estimate says and the tracks are removed
      (has1 && has2 && e.Ok? ==>
         st == Completed &&
         fs.log == old(fs.log) + Commands(video1, video2, synced1, synced2, WisStep(e.offset)) &&
         fs.files == (extracted + (if 2 !in failing then {synced2} else {})
                                + (if 3 !in failing then {synced1} else {})) - {Audio1, Audio2})
  {
    ExtractBoth(fs, video1, video2, 0 !in failing, 1 !in failing);
    estimate := None;
    st := OpenBoth(fs);
    if st != Completed {
      return;
    }
    var e := GetOffset(rate1, data1, rate2, data2);
    estimate := Some(e);
    if e.Err? {
      return estimate, ValueError;
    }
    st := ShiftCopyClean(fs, video1, video2, synced1, synced2, WisStep(e.offset), 2 !in failing, 3 !in failing);
  }
}
