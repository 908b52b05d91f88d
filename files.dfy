/** The working directory as the scripts see it: the set of file names that
    exist, and the external commands run so far. A command creates (or
    overwrites) its output file when it succeeds; `os.remove` deletes one
    name and raises when it is missing. */
module Files {
  import opened Base
  import opened Shift

  /** What an external media command does, without its argument strings. */
  datatype Op =
    | ExtractAudio(source: Path, limit: Option<real>)    // audio only (`-vn`), optionally only the first `limit` seconds
    | BlankVideo(track: Option<Path>, length: real)      // black picture of `length` seconds, with that audio or none
    | Reencode(source: Path)                             // to the common 1280x720 / 25 fps / AAC profile
    | StripAudio(source: Path)                           // picture only (`-an`)
    | Silence(seconds: real)                             // a silent stereo track
    | TrimStart(source: Path, seconds: real)             // drop the first `seconds` (`-ss`)
    | Concat(manifest: Path, streamCopy: bool)           // the segments the manifest lists, in order
    | Mux(video: Path, audio: Path, mapped: bool, shortest: bool)
                                                         // picture of one input with sound of the other; `mapped`:
                                                         // chosen by `-map` rather than by the engine's defaults
    | ShiftVideo(source: Path, step: ShiftStep)          // the whole video moved as `step` says
    | Copy(source: Path)                                 // `cp`

  datatype Command = Command(op: Op, output: Path)

  /** How a script run ends: normally, or with the uncaught exception that
      stopped it. */
  datatype Status =
    | Completed
    | CalledProcessError(output: Path)   // a `check=True` command producing `output` failed
    | FileNotFoundError(path: Path)      // `os.remove` or a read of a missing file
    | ValueError                         // raised while estimating the offset
    | FinderError                        // raised inside the third-party offset finder

  class FileSystem {
    var files: set<Path>
    var log: seq<Command>

    constructor (initial: set<Path>)
      ensures files == initial && log == []
    {
      files, log := initial, [];
    }

    /** An external command writing `output`; `succeeds` is whether it exits
        with status 0. A failing command leaves the directory as it was. */
    method Run(op: Op, output: Path, succeeds: bool)
      modifies this
      ensures log == old(log) + [Command(op, output)]
      ensures files == if succeeds then old(files) + {output} else old(files)
    {
      log := log + [Command(op, output)];
      if succeeds {
        files := files + {output};
      }
    }

    /** `open(path, "w")` followed by writes: the file exists afterwards. */
    method WriteText(path: Path)
      modifies this
      ensures files == old(files) + {path} && log == old(log)
    {
      files := files + {path};
    }

    /** `os.remove(path)`: deletes the file, or raises `FileNotFoundError`
        when there is none. */
    method Remove(path: Path) returns (st: Status)
      modifies this
      ensures st == if path in old(files) then Completed else FileNotFoundError(path)
      ensures files == old(files) - {path} && log == old(log)
    {
      st := if path in files then Completed else FileNotFoundError(path);
      files := files - {path};
    }

    /** `os.remove(path)` inside `try ... except FileNotFoundError: pass`. */
    method RemoveIfPresent(path: Path)
      modifies this
      ensures files == old(files) - {path} && log == old(log)
    {
      files := files - {path};
    }
  }
}
