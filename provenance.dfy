/** Where the picture and the sound of each file come from. Every command
    of `Files.Op` is read as a map from the provenance of its inputs to that
    of its output: the set of original recordings whose picture, and the set
    whose sound, end up in it. Timing is not tracked here (the `Shift` and
    `Media` modules do that); this reading answers "whose audio is this?". */
module Provenance {
  import opened Base
  import opened Files

  datatype Streams = Streams(video: set<Path>, audio: set<Path>)

  /** A file nothing is known to come from: a missing file or a generated
      silent or black source. */
  const NoStreams: Streams := Streams({}, {})

  /** A recording the pipeline starts from: its own picture and sound. */
  function Own(p: Path): (s: Streams)
    ensures s.video == {p} && s.audio == {p}
  {
    Streams({p}, {p})
  }

  function Lookup(env: map<Path, Streams>, p: Path): Streams
  {
    if p in env then env[p] else NoStreams
  }

  /** The segments of a manifest played one after the other. */
  function JoinAll(env: map<Path, Streams>, segments: seq<Path>): (s: Streams)
    ensures forall k :: 0 <= k < |segments| ==>
      Lookup(env, segments[k]).video <= s.video && Lookup(env, segments[k]).audio <= s.audio
  {
    if segments == [] then NoStreams
    else
      var rest := JoinAll(env, segments[1..]);
      assert forall k :: 1 <= k < |segments| ==> segments[k] == segments[1..][k - 1];
      Streams(Lookup(env, segments[0]).video + rest.video, Lookup(env, segments[0]).audio + rest.audio)
  }

  /** The provenance of one command's output. `manifests` gives the
      segments each manifest file lists. Without `-map`, the engine takes
      the picture and the sound from whichever input has them, so both
      inputs may contribute. */
  function Produce(op: Op, env: map<Path, Streams>, manifests: map<Path, seq<Path>>): (s: Streams)
    // no picture: `-vn`, or a generated black or silent source
    ensures op.ExtractAudio? || op.BlankVideo? || op.Silence? ==> s.video == {}
    // no sound: `-an`, or a generated silent source
    ensures op.StripAudio? || op.Silence? ==> s.audio == {}
    ensures op.ExtractAudio? ==> s.audio == Lookup(env, op.source).audio
    ensures op.BlankVideo? ==> s.audio == if op.track.Some? then Lookup(env, op.track.value).audio else {}
    ensures op.StripAudio? ==> s.video == Lookup(env, op.source).video
    // transcoding, trimming, moving and copying keep both streams
    ensures op.Reencode? || op.TrimStart? || op.ShiftVideo? || op.Copy? ==> s == Lookup(env, op.source)
    // `-map 0:v:0 -map 1:a:0`: the first input's picture, the second's sound
    ensures op.Mux? && op.mapped ==> s == Streams(Lookup(env, op.video).video, Lookup(env, op.audio).audio)
    // the engine's default selection: either input may supply either stream
    ensures op.Mux? && !op.mapped ==>
      s.video == Lookup(env, op.video).video + Lookup(env, op.audio).video &&
      s.audio == Lookup(env, op.video).audio + Lookup(env, op.audio).audio
    ensures op.Concat? && op.manifest in manifests ==>
      forall k :: 0 <= k < |manifests[op.manifest]| ==>
        Lookup(env, manifests[op.manifest][k]).video <= s.video &&
        Lookup(env, manifests[op.manifest][k]).audio <= s.audio
    ensures op.Concat? && op.manifest !in manifests ==> s == NoStreams
  {
    match op
    case ExtractAudio(src, _) => Streams({}, Lookup(env, src).audio)
    case BlankVideo(track, _) => Streams({}, if track.Some? then Lookup(env, track.value).audio else {})
    case Reencode(src) => Lookup(env, src)
    case StripAudio(src) => Streams(Lookup(env, src).video, {})
    case Silence(_) => NoStreams
    case TrimStart(src, _) => Lookup(env, src)
    case Concat(m, _) => JoinAll(env, if m in manifests then manifests[m] else [])
    case Mux(v, a, mapped, _) =>
      if mapped then Streams(Lookup(env, v).video, Lookup(env, a).audio)
      else Streams(Lookup(env, v).video + Lookup(env, a).video, Lookup(env, v).audio + Lookup(env, a).audio)
    case ShiftVideo(src, _) => Lookup(env, src)
    case Copy(src) => Lookup(env, src)
  }

  /** The provenance of every file after the commands `cmds` run in order,
      each overwriting its output. */
  function Replay(cmds: seq<Command>, env: map<Path, Streams>, manifests: map<Path, seq<Path>>)
    : map<Path, Streams>
  {
    if cmds == [] then env
    else Replay(cmds[1..], env[cmds[0].output := Produce(cmds[0].op, env, manifests)], manifests)
  }

  /** The files a command reads: its inputs, and for a concatenation the
      segments its manifest lists. */
  function Inputs(op: Op, manifests: map<Path, seq<Path>>): seq<Path>
  {
    match op
    case ExtractAudio(src, _) => [src]
    case BlankVideo(track, _) => if track.Some? then [track.value] else []
    case Reencode(src) => [src]
    case StripAudio(src) => [src]
    case Silence(_) => []
    case TrimStart(src, _) => [src]
    case Concat(m, _) => if m in manifests then manifests[m] else []
    case Mux(v, a, _, _) => [v, a]
    case ShiftVideo(src, _) => [src]
    case Copy(src) => [src]
  }

  /** A concatenation holds only what its segments hold. */
  lemma {:induction false} JoinAllFromSegments(env: map<Path, Streams>, segments: seq<Path>, q: Path)
    ensures q in JoinAll(env, segments).video ==>
      exists k :: 0 <= k < |segments| && q in Lookup(env, segments[k]).video
    ensures q in JoinAll(env, segments).audio ==>
      exists k :: 0 <= k < |segments| && q in Lookup(env, segments[k]).audio
  {
    if segments != [] {
      JoinAllFromSegments(env, segments[1..], q);
      if q in JoinAll(env, segments[1..]).video && q !in Lookup(env, segments[0]).video {
        var k :| 0 <= k < |segments[1..]| && q in Lookup(env, segments[1..][k]).video;
        assert q in Lookup(env, segments[k + 1]).video;
      }
      if q in JoinAll(env, segments[1..]).audio && q !in Lookup(env, segments[0]).audio {
        var k :| 0 <= k < |segments[1..]| && q in Lookup(env, segments[1..][k]).audio;
        assert q in Lookup(env, segments[k + 1]).audio;
      }
    }
  }

  /** No command makes up a recording: every picture and every sound in its
      output comes from one of the files it reads. */
  lemma ProduceFromInputs(op: Op, env: map<Path, Streams>, manifests: map<Path, seq<Path>>, q: Path)
    ensures q in Produce(op, env, manifests).video ==>
      exists p :: p in Inputs(op, manifests) && q in Lookup(env, p).video
    ensures q in Produce(op, env, manifests).audio ==>
      exists p :: p in Inputs(op, manifests) && q in Lookup(env, p).audio
  {
    if op.Concat? {
      var segments := if op.manifest in manifests then manifests[op.manifest] else [];
      JoinAllFromSegments(env, segments, q);
      if q in Produce(op, env, manifests).video {
        var k :| 0 <= k < |segments| && q in Lookup(env, segments[k]).video;
        assert segments[k] in Inputs(op, manifests);
      }
      if q in Produce(op, env, manifests).audio {
        var k :| 0 <= k < |segments| && q in Lookup(env, segments[k]).audio;
        assert segments[k] in Inputs(op, manifests);
      }
    }
  }

  /** Two segments played one after the other. */
  lemma JoinTwo(env: map<Path, Streams>, first: Path, second: Path)
    ensures JoinAll(env, [first, second])
      == Streams(Lookup(env, first).video + Lookup(env, second).video,
                 Lookup(env, first).audio + Lookup(env, second).audio)
  {
    assert [first, second][1..] == [second];
    assert [second][1..] == [];
    assert JoinAll(env, [second]) == Streams(Lookup(env, second).video + {}, Lookup(env, second).audio + {});
  }

  /** The last command of a run decides what its output holds. */
  lemma ReplayLast(cmds: seq<Command>, env: map<Path, Streams>, manifests: map<Path, seq<Path>>)
    requires |cmds| == 1
    ensures Lookup(Replay(cmds, env, manifests), cmds[0].output) == Produce(cmds[0].op, env, manifests)
  {
    assert cmds[1..] == [];
  }

  /** A file no command writes keeps its provenance. */
  lemma {:induction false} ReplayKeeps(cmds: seq<Command>, env: map<Path, Streams>,
                                       manifests: map<Path, seq<Path>>, p: Path)
    requires forall c :: c in cmds ==> c.output != p
    ensures Lookup(Replay(cmds, env, manifests), p) == Lookup(env, p)
  {
    if cmds != [] {
      var env' := env[cmds[0].output := Produce(cmds[0].op, env, manifests)];
      assert cmds[0] in cmds;
      assert forall c :: c in cmds[1..] ==> c in cmds;
      ReplayKeeps(cmds[1..], env', manifests, p);
    }
  }
}
