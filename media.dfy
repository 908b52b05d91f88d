/** What the compositor's transcoding steps promise about the media they
    produce: the encode profile of each segment and, under an abstract reading
    of the engine's options, the length of each output. `-t d` keeps the first
    `d` seconds, `-shortest` ends an output with its shortest input, a
    re-encode keeps the length, and concatenation adds lengths. */
module Media {
  import opened Base
  import opened Alignment

  /** Codec and format parameters of an encoded segment. */
  datatype Profile = Profile(
    width: nat, height: nat, fps: nat,
    sampleRate: nat, channels: nat,
    videoCodec: string, audioCodec: string, audioKbps: nat)

  /** The default `resolution` argument of `create_offset_video`. */
  const DefaultWidth: nat := 1280
  const DefaultHeight: nat := 720

  /** The blank lead-in of `create_offset_video`: black video scaled to the
      requested resolution at 25 fps, with the extracted reference audio
      re-encoded as 44100 Hz stereo AAC at 192 kbit/s. */
  function BlankSegmentProfile(width: nat, height: nat): (p: Profile)
    ensures p.width == width && p.height == height
    // every other parameter is the re-encode profile's
    ensures p.(width := DefaultWidth, height := DefaultHeight) == ReencodeProfile()
  {
    Profile(width, height, 25, 44100, 2, "libx264", "aac", 192)
  }

  /** `reencode_video`: scale to 1280x720 at 25 fps, 44100 Hz stereo AAC at
      192 kbit/s, H.264 video. */
  function ReencodeProfile(): (p: Profile)
    ensures p.width == DefaultWidth && p.height == DefaultHeight && p.fps == 25
    ensures p.sampleRate == 44100 && p.channels == 2 && p.audioCodec == "aac" && p.audioKbps == 192
    ensures p.videoCodec == "libx264"
  {
    Profile(1280, 720, 25, 44100, 2, "libx264", "aac", 192)
  }

  /** Concatenation by stream copy is only sound when both segments share
      their codec parameters; the blank segment and the re-encoded target do
      exactly when the blank segment keeps the default resolution, which is
      the one `auto_fix_offset` uses. */
  lemma StreamCopyConcatCompatible(width: nat, height: nat)
    ensures BlankSegmentProfile(width, height) == ReencodeProfile()
            <==> width == DefaultWidth && height == DefaultHeight
  {
  }

  /** `-t d` on a stream of `length` seconds. */
  function KeepFirst(length: real, d: real): (r: real)
    requires length >= 0.0 && d >= 0.0
    ensures 0.0 <= r <= length && r <= d
    ensures r == length || r == d
  {
    Min(length, d)
  }

  /** Length of the audio of the padded output of `auto_fix_offset`: the
      reference's first `lead` seconds followed by the whole re-encoded
      target. `refLength` is the reference's audio length and `targetLength`
      the target's. */
  function PaddedLength(refLength: real, targetLength: real, lead: real): (r: real)
    requires refLength >= 0.0 && targetLength >= 0.0 && lead >= 0.0
    ensures targetLength <= r <= lead + targetLength
    // the lead-in lasts `lead` seconds when the reference has that much audio
    ensures refLength >= lead ==> r == lead + targetLength
    // otherwise `-shortest` ends it with the reference's audio
    ensures refLength < lead ==> r == refLength + targetLength
  {
    // blank video of `lead` seconds, `-shortest` against the extracted audio
    Min(lead, KeepFirst(refLength, lead)) + targetLength
  }

  /** The end-to-end promise of duration padding: the output is exactly as
      long as the longer input, its lead-in is the duration gap and is filled
      completely by the reference's own leading audio (12 s and 9 s inputs
      give a 12 s output whose first 3 s come from the 12 s input). */
  lemma PaddedOutputMatchesReference(videoA: Path, videoB: Path, a1: real, a2: real)
    requires a1 >= 0.0 && a2 >= 0.0
    requires AutoFixPlan(videoA, videoB, a1, a2).Pad?
    ensures var p := AutoFixPlan(videoA, videoB, a1, a2);
      KeepFirst(Max(a1, a2), p.lead) == p.lead &&
      PaddedLength(Max(a1, a2), Min(a1, a2), p.lead) == Max(a1, a2)
  {
  }

  /** `-shortest` when remuxing a video stream with an audio stream. */
  function Shortest(videoLength: real, audioLength: real): (r: real)
    ensures r <= videoLength && r <= audioLength
    ensures r == videoLength || r == audioLength
  {
    Min(videoLength, audioLength)
  }
}
