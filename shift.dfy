/** The shifting mode: how each script turns a signed offset into a concrete
    shift of one stream, and where that shift puts the stream's content.
    `fix_sync.py` shifts an audio track by prepending silence or trimming its
    start; `wis.py` and `new_sync_file.py` shift a whole video either by
    delaying it (video timestamps and both audio channels) or by seeking
    into it. */
module Shift {
  import opened Alignment
  import opened Media
  import opened Correlation

  /** One concrete shift.
      `Prepend(seconds)`: silence of that length, concatenated in front.
      `Delay(seconds, audioMillis)`: video timestamps moved later by `seconds`
      and both audio channels delayed by `audioMillis` whole milliseconds.
      `Trim(seconds)`: the first `seconds` are cut off. */
  datatype ShiftStep =
    | Prepend(seconds: real)
    | Delay(seconds: real, audioMillis: int)
    | Trim(seconds: real)

  /** Python's `int(x)` on a real: truncation toward zero. */
  function IntOf(x: real): (r: int)
    ensures x >= 0.0 ==> 0 <= r && r as real <= x < r as real + 1.0
    ensures x < 0.0 ==> r <= 0 && r as real - 1.0 < x <= r as real
  {
    if x >= 0.0 then x.Floor else -((-x).Floor)
  }

  /** `int(seconds * 1000)` for a non-negative number of seconds. */
  function Millis(seconds: real): (ms: int)
    requires seconds >= 0.0
    ensures ms >= 0
    ensures ms as real / 1000.0 <= seconds < (ms + 1) as real / 1000.0
  {
    IntOf(seconds * 1000.0)
  }

  /** `fix_sync.py: shift_audio`: a negative delay trims the audio's start by
      its magnitude; a delay of zero or more prepends that much silence. */
  function FixSyncStep(delay: real): (s: ShiftStep)
    ensures s.Trim? <==> delay < 0.0
    ensures s.Trim? ==> s.seconds == Abs(delay) && s.seconds > 0.0
    ensures !s.Trim? ==> s == Prepend(delay) && s.seconds >= 0.0
  {
    if delay < 0.0 then Trim(Abs(delay)) else Prepend(delay)
  }

  /** `wis.py: shift_video`: a positive offset seeks `offset` seconds into the
      video (the intended order of its `-ss` arguments); an offset of zero or
      less delays video and audio by its magnitude. */
  function WisStep(offset: real): (s: ShiftStep)
    ensures s.Delay? <==> offset <= 0.0
    ensures s.Trim? <==> offset > 0.0
    ensures s.Trim? ==> s.seconds == offset
    ensures s.Delay? ==> s.seconds == Abs(offset) && s.audioMillis == Millis(Abs(offset))
  {
    if offset > 0.0 then Trim(offset)
    else Delay(Abs(offset), Millis(Abs(offset)))
  }

  /** `new_sync_file.py: shift_video`: an offset of zero or more delays video
      and audio by the offset; a negative offset seeks its magnitude into the
      video. */
  function NewSyncStep(offset: real): (s: ShiftStep)
    ensures s.Delay? <==> offset >= 0.0
    ensures s.Trim? <==> offset < 0.0
    ensures s.Delay? ==> s.seconds == offset && s.audioMillis == Millis(offset)
    ensures s.Trim? ==> s.seconds == Abs(offset) && s.seconds > 0.0
  {
    if offset >= 0.0 then Delay(offset, Millis(offset))
    else Trim(Abs(offset))
  }

  /** Where content at time `t` of the shifted video stream ends up. */
  function VideoPosition(t: real, s: ShiftStep): real
  {
    match s
    case Prepend(d) => t + d
    case Delay(d, _) => t + d
    case Trim(d) => t - d
  }

  /** Where content at time `t` of the shifted audio stream ends up. */
  function AudioPosition(t: real, s: ShiftStep): real
  {
    match s
    case Prepend(d) => t + d
    case Delay(_, ms) => t + ms as real / 1000.0
    case Trim(d) => t - d
  }

  /** An offset of exactly zero takes the delaying branch in all three
      scripts, with a zero-length delay, so nothing moves. */
  lemma ZeroOffsetDelays()
    ensures FixSyncStep(0.0) == Prepend(0.0)
    ensures WisStep(0.0) == Delay(0.0, 0)
    ensures NewSyncStep(0.0) == Delay(0.0, 0)
  {
  }

  /** For every non-zero offset, `wis.py` and `new_sync_file.py` take
      opposite branches. */
  lemma OppositeBranches(offset: real)
    requires offset != 0.0
    ensures WisStep(offset).Trim? <==> !NewSyncStep(offset).Trim?
  {
  }

  /** `shift_audio` moves the audio content later by exactly `delay`. */
  lemma FixSyncMovesByDelay(t: real, delay: real)
    ensures AudioPosition(t, FixSyncStep(delay)) == t + delay
  {
  }

  /** `new_sync_file.py` moves video content later by exactly the offset, and
      audio content by the offset truncated to whole milliseconds: the audio
      never ends up later than the picture, and less than a millisecond
      earlier. */
  lemma NewSyncMovesByOffset(t: real, offset: real)
    ensures VideoPosition(t, NewSyncStep(offset)) == t + offset
    ensures 0.0 <= VideoPosition(t, NewSyncStep(offset)) - AudioPosition(t, NewSyncStep(offset)) < 0.001
  {
  }

  /** `wis.py` moves the content by the negated offset (up to the same
      millisecond truncation of the audio delay). */
  lemma WisMovesAgainstOffset(t: real, offset: real)
    ensures VideoPosition(t, WisStep(offset)) == t - offset
    ensures 0.0 <= VideoPosition(t, WisStep(offset)) - AudioPosition(t, WisStep(offset)) < 0.001
  {
  }

  /** The shift `sync_videos` should apply to the second video for an
      estimated offset, given the estimator's sign convention: delay it by a
      positive offset, trim it by a negative one. This is the direction
      `new_sync_file.py` uses. */
  function CorrectedWisStep(offset: real): (s: ShiftStep)
    ensures VideoPosition(0.0, s) == offset
    ensures s.Trim? <==> offset < 0.0
  {
    if offset >= 0.0 then Delay(offset, Millis(offset)) else Trim(Abs(offset))
  }

  lemma CorrectedIsNewSync(offset: real)
    ensures CorrectedWisStep(offset) == NewSyncStep(offset)
  {
  }

  /** A sampled track moved later by `k` samples: `k` samples of silence in
      front for a delay, its first `-k` samples cut off for a trim. */
  function ShiftSamples(y: seq<int>, k: int): (r: seq<int>)
    requires k < 0 ==> -k <= |y|
    ensures |r| == |y| + k
    ensures forall l :: 0 <= l < |r| ==> r[l] == if 0 <= l - k then y[l - k] else 0
  {
    if k >= 0 then seq(k, _ => 0) + y else y[-k..]
  }

  /** Round trip of the corrected pipeline: an event at sample `i` of the
      first video's audio and sample `j` of the second's gives an offset of
      `i - j` samples, whose corrected shift moves the second video's event
      exactly onto the first one's; the estimator run again on the shifted
      second track reports the two in sync. */
  lemma CorrectedShiftAligns(rate: int, n: nat, i: nat, j: nat)
    requires rate > 0 && i < n && j < n
    ensures var e := GetOffset(rate, Impulse(n, i), rate, Impulse(n, j));
      e.Ok? && e.offset * rate as real == (i - j) as real &&
      VideoPosition(j as real / rate as real, CorrectedWisStep(e.offset)) == i as real / rate as real &&
      GetOffset(rate, Impulse(n, i), rate, ShiftSamples(Impulse(n, j), i - j)) == Ok(0.0)
  {
    CorrectedShiftMoves(rate, n, i, j);
    ImpulseSamples(rate, n, i, j);
    ShiftedInSync(rate, n, i, j);
  }

  lemma CorrectedShiftMoves(rate: int, n: nat, i: nat, j: nat)
    requires rate > 0 && i < n && j < n
    ensures var e := GetOffset(rate, Impulse(n, i), rate, Impulse(n, j));
      e.Ok? && VideoPosition(j as real / rate as real, CorrectedWisStep(e.offset)) == i as real / rate as real
  {
    ImpulseOffset(rate, n, i, j);
    assert (i - j) as real == i as real - j as real;
    CorrectedMovesOnto(i as real, j as real, rate as real);
  }

  /** The estimate, in samples, is `i - j`. */
  lemma ImpulseSamples(rate: int, n: nat, i: nat, j: nat)
    requires rate > 0 && i < n && j < n
    ensures GetOffset(rate, Impulse(n, i), rate, Impulse(n, j)).offset * rate as real == (i - j) as real
  {
    ImpulseOffset(rate, n, i, j);
    var o, x, r := GetOffset(rate, Impulse(n, i), rate, Impulse(n, j)).offset, (i - j) as real, rate as real;
    assert o == x / r;
    QuotientTimes(x, r);
  }

  lemma QuotientTimes(x: real, r: real)
    requires r > 0.0
    ensures (x / r) * r == x
  {
  }

  /** The second track, moved by the estimated `i - j` samples, lines up
      with the first: the estimate on the pair is 0. */
  lemma ShiftedInSync(rate: int, n: nat, i: nat, j: nat)
    requires rate > 0 && i < n && j < n
    ensures GetOffset(rate, Impulse(n, i), rate, ShiftSamples(Impulse(n, j), i - j)) == Ok(0.0)
  {
    var x, y := Impulse(n, i), ShiftSamples(Impulse(n, j), i - j);
    if i >= j {
      assert y == x + y[n..];
      OnlyCommonPrefixCounts(rate, x, x, y[n..]);
      ImpulseInSync(rate, n, i);
    } else {
      var m := n - (j - i);
      assert y == Impulse(m, i);
      assert x == Impulse(m, i) + x[m..];
      OnlyCommonPrefixCounts(rate, Impulse(m, i), Impulse(m, i), x[m..]);
      ImpulseInSync(rate, m, i);
    }
  }

  lemma ImpulseInSync(rate: int, n: nat, i: nat)
    requires rate > 0 && i < n
    ensures GetOffset(rate, Impulse(n, i), rate, Impulse(n, i)) == Ok(0.0)
  {
    ImpulseOffset(rate, n, i, i);
    assert (i - i) as real / rate as real == 0.0;
  }

  lemma CorrectedMovesOnto(a: real, b: real, r: real)
    requires r > 0.0
    ensures VideoPosition(b / r, CorrectedWisStep((a - b) / r)) == a / r
  {
    NewSyncMovesByOffset(b / r, (a - b) / r);
    CorrectedIsNewSync((a - b) / r);
    SumOfQuotients(b, a - b, r);
  }

  /** As written, `wis.py` moves the second video's event to `(2j - i) / rate`
      instead of `i / rate`: whenever the two events differ it doubles the
      misalignment instead of removing it. */
  lemma WisShiftMisaligns(rate: int, n: nat, i: nat, j: nat)
    requires rate > 0 && i < n && j < n
    ensures var e := GetOffset(rate, Impulse(n, i), rate, Impulse(n, j));
      e.Ok? &&
      VideoPosition(j as real / rate as real, WisStep(e.offset)) == (2 * j - i) as real / rate as real &&
      (i != j ==> VideoPosition(j as real / rate as real, WisStep(e.offset)) != i as real / rate as real)
  {
    ImpulseOffset(rate, n, i, j);
    var r := rate as real;
    var offset := (i - j) as real / r;
    WisMovesAgainstOffset(j as real / r, offset);
    NegatedQuotient((i - j) as real, r);
    SumOfQuotients(j as real, (j - i) as real, r);
    if i != j {
      QuotientInjective((2 * j - i) as real, i as real, r);
    }
  }

  lemma SumOfQuotients(x: real, y: real, r: real)
    requires r > 0.0
    ensures x / r + y / r == (x + y) / r
  {
  }

  lemma NegatedQuotient(x: real, r: real)
    requires r > 0.0
    ensures -(x / r) == (-x) / r
  {
  }

  lemma QuotientInjective(x: real, y: real, r: real)
    requires r > 0.0 && x != y
    ensures x / r != y / r
  {
  }

  /** The smallest instance through the delaying branch, the one whose
      command runs as written: at 1 Hz, an event at second 0 of the first
      video and second 1 of the second gives an offset of -1. `wis.py` then
      delays the second video by one second, moving its event from second 1
      to second 2, where an advance by one second to second 0 is needed. */
  lemma WisShiftCounterexample()
    ensures GetOffset(1, [1, 0], 1, [0, 1]) == Ok(-1.0)
    ensures WisStep(-1.0) == Delay(1.0, 1000)
    ensures VideoPosition(1.0, WisStep(-1.0)) == 2.0
    ensures CorrectedWisStep(-1.0) == Trim(1.0) && VideoPosition(1.0, CorrectedWisStep(-1.0)) == 0.0
  {
    assert Impulse(2, 0) == [1, 0];
    assert Impulse(2, 1) == [0, 1];
    ImpulseOffset(1, 2, 0, 1);
  }

  /** Length of the shifted audio of `shift_audio`. */
  function ShiftedAudioLength(audioLength: real, s: ShiftStep): (r: real)
    requires audioLength >= 0.0 && s.seconds >= 0.0
    ensures r >= 0.0
  {
    match s
    case Prepend(d) => d + audioLength
    case Delay(d, _) => d + audioLength
    case Trim(d) => Max(0.0, audioLength - d)
  }

  /** The final remux of `shift_audio` takes the picture from the input and
      the shifted audio, and stops with the shorter: the output is never
      longer than the input video; a delay keeps the whole audio when the
      video has room for it, and a trim shortens it by the trimmed amount. */
  lemma FixSyncOutputLength(videoLength: real, audioLength: real, delay: real)
    requires videoLength >= 0.0 && audioLength >= 0.0
    ensures var out := Shortest(videoLength, ShiftedAudioLength(audioLength, FixSyncStep(delay)));
      out <= videoLength &&
      (delay >= 0.0 && delay + audioLength <= videoLength ==> out == delay + audioLength) &&
      (delay < 0.0 ==> out == Min(videoLength, Max(0.0, audioLength + delay)))
  {
  }
}
