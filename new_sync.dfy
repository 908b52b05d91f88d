/** `new_sync_file.py`: the same pipeline as `wis.py`, with the offset
    taken from a third-party offset finder and the second recording moved
    as `Shift.NewSyncStep` says. */
module NewSync {
  import opened Base
  import opened Files
  import opened Shift
  import opened PairSync

  /** What the offset finder reports: the offset in seconds and a
      confidence score. */
  datatype FinderResult = FinderResult(timeOffset: real, standardScore: real)

  /** The name the script copies the first recording to: `./` before it. */
  function CopyTarget(synced1: Path): (p: Path)
    ensures |p| == |synced1| + 2 && p[..2] == "./" && p[2..] == synced1
  {
    "./" + synced1
  }

  /** `sync_videos(video1, video2, synced1, synced2)`. `found` is what the
      finder returns on the two tracks, `None` when it raises; it is only
      consulted when both tracks exist (a missing track makes it raise).
      `failing` holds the numbers of the media commands of
      `PairSync.Commands` that fail. */
  method SyncVideos(fs: FileSystem, video1: Path, video2: Path, synced1: Path, synced2: Path,
                    found: Option<FinderResult>, failing: set<nat>)
    returns (st: Status)
    modifies fs
    ensures var ready := (0 !in failing || Audio1 in old(fs.files)) && (1 !in failing || Audio2 in old(fs.files))
                         && found.Some?;
            var extracted := old(fs.files) + (if 0 !in failing then {Audio1} else {})
                                           + (if 1 !in failing then {Audio2} else {});
      (!ready ==>
         st == FinderError &&
         fs.log == old(fs.log) + Commands(video1, video2, CopyTarget(synced1), synced2, Trim(0.0))[..2] &&
         fs.files == extracted) &&
      // the score is reported but never consulted: any offset the finder returns is applied
      (ready ==>
         st == Completed &&
         fs.log == old(fs.log) + Commands(video1, video2, CopyTarget(synced1), synced2,
                                          NewSyncStep(found.value.timeOffset)) &&
         fs.files == (extracted + (if 2 !in failing then {synced2} else {})
                                + (if 3 !in failing then {CopyTarget(synced1)} else {})) - {Audio1, Audio2})
  {
    ExtractBoth(fs, video1, video2, 0 !in failing, 1 !in failing);
    st := OpenBoth(fs);
    if st != Completed || found.None? {
      return FinderError;
    }
    var offset := found.value.timeOffset;
    st := ShiftCopyClean(fs, video1, video2, CopyTarget(synced1), synced2, NewSyncStep(offset),
                         2 !in failing, 3 !in failing);
  }
}
