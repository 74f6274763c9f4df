/** Cutting the media timeline into HLS segments, on a frame grid or on the source's own keyframes
    (python-worker/streamlift_worker/streaming.py). Times are exact reals: floating-point rounding and the
    six-decimal formatting of the ffmpeg arguments are not modelled. */
module SegmentGrid {
  import opened Basics

  const HLS_SEGMENT_SECONDS: real := 6.0
  const MIN_TAIL_SECONDS: real := 1.0
  const SLACK: real := 0.000000001

  function MaxReal(a: real, b: real): real {
    if a < b then b else a
  }

  function Sum(lengths: seq<real>): real {
    if lengths == [] then 0.0 else Sum(lengths[..|lengths| - 1]) + lengths[|lengths| - 1]
  }

  // Where segment i starts
  function StartOf(lengths: seq<real>, i: nat): real
    requires i <= |lengths|
  {
    Sum(lengths[..i])
  }

  lemma StartStep(lengths: seq<real>, i: nat)
    requires i < |lengths|
    ensures StartOf(lengths, i + 1) == StartOf(lengths, i) + lengths[i]
  {
    assert lengths[..i + 1][..i] == lengths[..i];
  }

  lemma StartAll(lengths: seq<real>)
    ensures StartOf(lengths, |lengths|) == Sum(lengths)
  {
    assert lengths[..|lengths|] == lengths;
  }

  // ---- the frame grid ----

  function Ceil(x: real): int {
    -((-x).Floor)
  }

  // Python's round: ties go to the even neighbour
  function Round(x: real): int {
    var low := x.Floor;
    var half := x - low as real;
    if half < 0.5 || (half == 0.5 && low % 2 == 0) then low else low + 1
  }

  // The nominal length: six seconds, to the nearest whole number of frames when the rate is usable. From one frame a
  // second on that number is at least six, so the code's lower bound of one frame never applies.
  function Nominal(fps: Option<real>): (s: real)
    ensures 5.5 <= s <= 6.5
  {
    if fps.Some? && 1.0 <= fps.value <= 240.0 then
      var frames := Round(HLS_SEGMENT_SECONDS * fps.value);
      FrameBounds(fps.value, frames);
      frames as real / fps.value
    else
      HLS_SEGMENT_SECONDS
  }

  lemma FrameBounds(fps: real, frames: int)
    requires 1.0 <= fps && frames == Round(HLS_SEGMENT_SECONDS * fps)
    ensures frames >= 6 && 5.5 <= frames as real / fps <= 6.5
  {
    var x := HLS_SEGMENT_SECONDS * fps;
    assert x - 0.5 <= frames as real <= x + 0.5;
    QuotientAtMost(frames as real, fps, 6.5);
    QuotientAtLeast(frames as real, fps, 5.5);
  }

  lemma QuotientAtMost(a: real, b: real, c: real)
    requires b > 0.0 && a <= c * b
    ensures a / b <= c
  {
    var q := a / b;
    assert (c - q) * b >= 0.0;
  }

  lemma QuotientAtLeast(a: real, b: real, c: real)
    requires b > 0.0 && c * b <= a
    ensures c <= a / b
  {
    var q := a / b;
    assert (q - c) * b >= 0.0;
  }

  /** On a usable frame rate the nominal length is a whole number of frames, and no whole number of frames
      is closer to six seconds. */
  lemma NominalIsFrameAligned(fps: real, other: int)
    requires 1.0 <= fps <= 240.0
    ensures var frames, exact := Round(HLS_SEGMENT_SECONDS * fps), HLS_SEGMENT_SECONDS * fps;
            && Nominal(Some(fps)) * fps == frames as real
            && Abs(frames as real - exact) <= Abs(other as real - exact)
  {
    RoundNearest(HLS_SEGMENT_SECONDS * fps, other);
    var frames := Round(HLS_SEGMENT_SECONDS * fps) as real;
    hide Round;
    assert frames / fps * fps == frames;
  }

  /** Without a usable frame rate it is six seconds. */
  lemma NominalOtherwise(fps: Option<real>)
    requires fps.Some? ==> fps.value < 1.0 || fps.value > 240.0
    ensures Nominal(fps) == 6.0
  {
  }

  lemma RoundNearest(x: real, other: int)
    ensures Abs(Round(x) as real - x) <= Abs(other as real - x)
  {
    var n := Round(x);
    assert x - 0.5 <= n as real <= x + 0.5;
    if other > n {
      assert other as real >= n as real + 1.0;
    } else if other < n {
      assert other as real <= n as real - 1.0;
    }
  }

  function Abs(x: real): real {
    if x < 0.0 then -x else x
  }

  // The number of nominal segments a duration needs, forgiving a sliver of rounding
  function Count(duration: real, segment: real): (n: int)
    requires segment > 0.0
    ensures n >= 1
  {
    var n := Ceil(duration / segment - SLACK);
    if n < 1 then 1 else n
  }

  lemma TailBounds(duration: real, segment: real)
    requires duration > 0.0 && 5.5 <= segment <= 6.5
    ensures var n := Count(duration, segment);
            var tail := duration - (n - 1) as real * segment;
            0.0 < tail <= segment + SLACK * segment
  {
    var n := Count(duration, segment);
    var q := duration / segment;
    assert q * segment == duration;
    assert q - SLACK <= n as real;
    Scale(q - SLACK, n as real, segment);
    if n > 1 {
      assert (n - 1) as real < q - SLACK;
      Scale((n - 1) as real, q - SLACK, segment);
    }
  }

  lemma Scale(a: real, b: real, s: real)
    requires a <= b && s > 0.0
    ensures a * s <= b * s
    ensures a < b ==> a * s < b * s
  {
    assert (b - a) * s >= 0.0;
    if a < b {
      assert (b - a) * s > 0.0;
    }
  }

  function Repeat(x: real, n: nat): (r: seq<real>)
    ensures |r| == n && forall i :: 0 <= i < n ==> r[i] == x
  {
    if n == 0 then [] else Repeat(x, n - 1) + [x]
  }

  // Equal lengths up to the last one
  ghost predicate Even(lengths: seq<real>, segment: real) {
    forall i :: 0 <= i < |lengths| - 1 ==> lengths[i] == segment
  }

  lemma {:induction false} EvenStart(lengths: seq<real>, segment: real, i: nat)
    requires Even(lengths, segment) && i < |lengths|
    ensures StartOf(lengths, i) == i as real * segment
  {
    if i > 0 {
      EvenStart(lengths, segment, i - 1);
      StartStep(lengths, i - 1);
      assert (i - 1) as real * segment + segment == i as real * segment;
    } else {
      assert lengths[..0] == [];
    }
  }

  lemma EvenSum(lengths: seq<real>, segment: real)
    requires Even(lengths, segment) && lengths != []
    ensures Sum(lengths) == (|lengths| - 1) as real * segment + lengths[|lengths| - 1]
  {
    EvenStart(lengths, segment, |lengths| - 1);
    StartStep(lengths, |lengths| - 1);
    StartAll(lengths);
  }

  /** The grid tiles the timeline: equal nominal segments and a last one of at least a second that takes up the
      rest. Only a clip under a millisecond that fits one segment is announced longer than it is. */
  method SegmentLengths(duration: real, fps: Option<real>) returns (lengths: seq<real>)
    ensures lengths != [] && Even(lengths, Nominal(fps))
    ensures duration <= 0.0 ==> lengths == [Nominal(fps)]
    ensures duration > 0.0 ==>
              var last := lengths[|lengths| - 1];
              && 0.0 < last < Nominal(fps) + MIN_TAIL_SECONDS
              && (|lengths| > 1 ==> last >= MIN_TAIL_SECONDS)
              && (Sum(lengths) == duration <==> duration >= 0.001)
              && (duration < 0.001 ==> lengths == [0.001])
  {
    hide Count, Nominal, Sum;
    var segment := Nominal(fps);
    if duration <= 0.0 {
      return [segment];
    }
    var count := Count(duration, segment);
    lengths := Repeat(segment, count);
    var tail := duration - (count - 1) as real * segment;
    if count > 1 && tail < MIN_TAIL_SECONDS {
      lengths := lengths[..|lengths| - 1];
      lengths := lengths[|lengths| - 1 := lengths[|lengths| - 1] + tail];
    } else {
      lengths := lengths[|lengths| - 1 := MaxReal(tail, 0.001)];
    }
    GridTiles(duration, segment, lengths);
  }

  ghost predicate Folded(duration: real, segment: real)
    requires segment > 0.0
  {
    Count(duration, segment) > 1 && duration - (Count(duration, segment) - 1) as real * segment < MIN_TAIL_SECONDS
  }

  lemma GridTiles(duration: real, segment: real, lengths: seq<real>)
    requires duration > 0.0 && 5.5 <= segment <= 6.5 && lengths != [] && Even(lengths, segment)
    requires var n := Count(duration, segment);
             var tail := duration - (n - 1) as real * segment;
             if Folded(duration, segment) then |lengths| == n - 1 && lengths[|lengths| - 1] == segment + tail
             else |lengths| == n && lengths[|lengths| - 1] == MaxReal(tail, 0.001)
    ensures var last := lengths[|lengths| - 1];
            && 0.0 < last < segment + MIN_TAIL_SECONDS
            && (|lengths| > 1 ==> last >= MIN_TAIL_SECONDS)
            && (Sum(lengths) == duration <==> duration >= 0.001)
            && (duration < 0.001 ==> lengths == [0.001])
  {
    var n := Count(duration, segment);
    TailBounds(duration, segment);
    EvenSum(lengths, segment);
    if duration < 0.001 {
      ShortClip(duration, segment);
    }
    hide Count, Sum, Even;
    Fold(n, segment);
  }

  lemma ShortClip(duration: real, segment: real)
    requires 0.0 < duration < 0.001 && 5.5 <= segment
    ensures Count(duration, segment) == 1
  {
    QuotientAtMost(duration, segment, 1.0);
  }

  lemma Fold(count: int, segment: real)
    ensures (count - 2) as real * segment + segment == (count - 1) as real * segment
  {
  }

  /** Every forced keyframe of a batch falls on a segment start of the playlist: the batch counts in steps of
      the first segment's length, the playlist adds up the announced lengths. */
  lemma ForcedKeyframes(lengths: seq<real>, segment: real, first: nat, j: nat)
    requires Even(lengths, segment) && first + j < |lengths|
    ensures StartOf(lengths, first) + j as real * lengths[0] == StartOf(lengths, first + j)
  {
    EvenStart(lengths, segment, first);
    EvenStart(lengths, segment, first + j);
    if |lengths| > 1 {
      assert first as real * segment + j as real * segment == (first + j) as real * segment;
    }
  }

  // The times a batch command is given: -ss and -t, and the offset and end of what it must produce
  method BatchTiming(lengths: seq<real>, first: nat, end: nat) returns (seek: real, read: real, length: real)
    requires first < end <= |lengths| && forall i :: 0 <= i < |lengths| ==> lengths[i] >= 0.001
    ensures seek == StartOf(lengths, first) && seek + length == StartOf(lengths, end)
    ensures 0.001 <= read <= length && (length >= 0.002 ==> seek + read == StartOf(lengths, end) - 0.001)
  {
    StartsApart(lengths, first, end);
    seek := Sum(lengths[..first]);
    length := MaxReal(0.001, Sum(lengths[..end]) - seek);
    read := MaxReal(0.001, length - 0.001);
  }

  lemma {:induction false} StartsApart(lengths: seq<real>, i: nat, j: nat)
    requires i < j <= |lengths| && forall k :: 0 <= k < |lengths| ==> lengths[k] >= 0.001
    ensures StartOf(lengths, j) >= StartOf(lengths, i) + 0.001
  {
    StartStep(lengths, j - 1);
    if i < j - 1 {
      StartsApart(lengths, i, j - 1);
    }
  }

  // ---- cutting at the source's keyframes ----

  ghost predicate Ascending(times: seq<real>, gap: real) {
    forall i, j :: 0 <= i < j < |times| ==> times[i] + gap < times[j]
  }

  ghost predicate Sorted(times: seq<real>) {
    forall i, j :: 0 <= i < j < |times| ==> times[i] <= times[j]
  }

  // Keyframes closer together than a hundredth of a second count once.
  method Dedupe(times: seq<real>) returns (deduped: seq<real>)
    requires Sorted(times)
    ensures Ascending(deduped, 0.01)
    ensures forall v :: v in deduped ==> v in times
    ensures forall v :: v in times ==> Near(deduped, v)
  {
    hide Near;
    deduped := [];
    for i := 0 to |times|
      invariant Ascending(deduped, 0.01)
      invariant forall k :: 0 <= k < |deduped| ==> deduped[k] in times[..i]
      invariant deduped != [] ==> i > 0 && deduped[|deduped| - 1] <= times[i - 1]
      invariant forall j :: 0 <= j < i ==> Near(deduped, times[j])
    {
      var value := times[i];
      assert times[..i + 1] == times[..i] + [value];
      if deduped == [] || value - deduped[|deduped| - 1] > 0.01 {
        NearMore(deduped, value);
        AscendingMore(deduped, value);
        deduped := deduped + [value];
      } else {
        NearLast(deduped, value);
      }
    }
  }

  // Some kept time is at most a hundredth of a second before v.
  ghost predicate Near(kept: seq<real>, v: real) {
    exists k :: 0 <= k < |kept| && kept[k] <= v <= kept[k] + 0.01
  }

  lemma NearLast(kept: seq<real>, v: real)
    requires kept != [] && kept[|kept| - 1] <= v <= kept[|kept| - 1] + 0.01
    ensures Near(kept, v)
  {
  }

  lemma NearMore(kept: seq<real>, value: real)
    ensures Near(kept + [value], value)
    ensures forall v :: Near(kept, v) ==> Near(kept + [value], v)
  {
    var more := kept + [value];
    assert more[|kept|] == value;
    forall v | Near(kept, v)
      ensures Near(more, v)
    {
      var k :| 0 <= k < |kept| && kept[k] <= v <= kept[k] + 0.01;
      assert more[k] == kept[k];
    }
  }

  lemma AscendingMore(kept: seq<real>, value: real)
    requires Ascending(kept, 0.01) && (kept == [] || value - kept[|kept| - 1] > 0.01)
    ensures Ascending(kept + [value], 0.01)
  {
  }

  // A keyframe strictly inside the timeline
  predicate Inside(value: real, duration: real) {
    0.01 < value < duration - 0.01
  }

  // A cut is due this long after the one before it.
  const MIN_COPY := HLS_SEGMENT_SECONDS - 0.01

  // No keyframe that was due between two cuts was passed over.
  ghost predicate FirstDue(start: real, end: real, keyframes: seq<real>, duration: real) {
    forall v :: v in keyframes && 0.01 < v < duration - 0.01 && start + MIN_COPY <= v ==> end <= v
  }

  // After the last cut nothing was due any more, or only within the closing second.
  ghost predicate NothingDue(start: real, keyframes: seq<real>, duration: real) {
    forall v :: v in keyframes && 0.01 < v < duration - 0.01 && start + MIN_COPY <= v ==>
      v > duration - MIN_TAIL_SECONDS
  }

  // b is the next cut after a: the first keyframe due
  ghost predicate NextCut(a: real, b: real, keyframes: seq<real>, duration: real) {
    b in keyframes && 0.01 < b < duration - 0.01 && b - a >= MIN_COPY && FirstDue(a, b, keyframes, duration)
  }

  ghost predicate Cuts(cuts: seq<real>, keyframes: seq<real>, duration: real) {
    && cuts != [] && cuts[0] == 0.0
    && forall i, j :: 0 <= i && j == i + 1 < |cuts| ==> NextCut(cuts[i], cuts[j], keyframes, duration)
  }

  // The announced length between two boundaries
  function Gap(a: real, b: real): real {
    MaxReal(0.001, b - a)
  }

  function Gaps(cuts: seq<real>, duration: real): (r: seq<real>)
    requires cuts != []
    ensures |r| == |cuts|
  {
    var n := |cuts| - 1;
    if n == 0 then [Gap(cuts[0], duration)] else Gaps(cuts[..n], cuts[n]) + [Gap(cuts[n], duration)]
  }

  // What the announced lengths of a copied rendition say about its cuts
  ghost predicate CopyTiles(lengths: seq<real>, keyframes: seq<real>, duration: real) {
    && lengths != []
    && (forall i :: 0 <= i < |lengths| ==> lengths[i] >= if i < |lengths| - 1 then MIN_COPY else 0.001)
    && (|lengths| > 1 ==> lengths[|lengths| - 1] >= MIN_TAIL_SECONDS)
    && (Sum(lengths) == duration <==> duration >= 0.001)
    && (forall i, j :: 0 <= i && j == i + 1 < |lengths| ==>
          NextCut(StartOf(lengths, i), StartOf(lengths, j), keyframes, duration))
    && NothingDue(StartOf(lengths, |lengths| - 1), keyframes, duration)
  }

  lemma LastCut(cuts: seq<real>, keyframes: seq<real>, duration: real)
    requires Cuts(cuts, keyframes, duration) && |cuts| > 1
    ensures var n := |cuts| - 1;
            NextCut(cuts[n - 1], cuts[n], keyframes, duration) && Cuts(cuts[..n], keyframes, duration)
  {
    hide NextCut;
  }

  lemma NextCutGap(a: real, b: real, keyframes: seq<real>, duration: real)
    requires NextCut(a, b, keyframes, duration)
    ensures Gap(a, b) == b - a >= MIN_COPY && 0.01 < b < duration - 0.01
  {
    hide FirstDue;
  }

  lemma Snoc(lengths: seq<real>, x: real)
    ensures Sum(lengths + [x]) == Sum(lengths) + x
    ensures forall i :: 0 <= i <= |lengths| ==> StartOf(lengths + [x], i) == StartOf(lengths, i)
  {
    var more := lengths + [x];
    assert more[..|lengths|] == lengths;
    forall i | 0 <= i <= |lengths|
      ensures StartOf(more, i) == StartOf(lengths, i)
    {
      assert more[..i] == lengths[..i];
    }
  }

  // All gaps but the last are long, and they start at the cuts.
  lemma {:induction false} GapsStart(cuts: seq<real>, keyframes: seq<real>, duration: real, end: real)
    requires Cuts(cuts, keyframes, duration)
    ensures var gaps, n := Gaps(cuts, end), |cuts| - 1;
            && (forall i :: 0 <= i < |cuts| ==> StartOf(gaps, i) == cuts[i])
            && (forall i :: 0 <= i < n ==> gaps[i] >= MIN_COPY)
            && gaps[n] == Gap(cuts[n], end) && Sum(gaps) == cuts[n] + gaps[n]
  {
    hide NextCut, Gap;
    var n := |cuts| - 1;
    if n == 0 {
      assert Gaps(cuts, end)[..0] == [];
      Snoc([], Gap(cuts[0], end));
    } else {
      LastCut(cuts, keyframes, duration);
      NextCutGap(cuts[n - 1], cuts[n], keyframes, duration);
      GapsStart(cuts[..n], keyframes, duration, cuts[n]);
      var fewer := Gaps(cuts[..n], cuts[n]);
      StartAll(fewer);
      Snoc(fewer, Gap(cuts[n], end));
      hide Sum, StartOf;
      assert Sum(fewer) == cuts[n];
    }
  }

  lemma SameCuts(lengths: seq<real>, cuts: seq<real>, keyframes: seq<real>, duration: real)
    requires |lengths| == |cuts| && (forall i :: 0 <= i < |cuts| ==> StartOf(lengths, i) == cuts[i])
    requires Cuts(cuts, keyframes, duration)
    ensures forall i, j :: 0 <= i && j == i + 1 < |lengths| ==>
              NextCut(StartOf(lengths, i), StartOf(lengths, j), keyframes, duration)
  {
    hide StartOf, NextCut;
  }

  lemma CutsTile(cuts: seq<real>, keyframes: seq<real>, duration: real)
    requires Cuts(cuts, keyframes, duration) && NothingDue(cuts[|cuts| - 1], keyframes, duration)
    requires duration > 0.0 && (|cuts| > 1 ==> duration - cuts[|cuts| - 1] >= MIN_TAIL_SECONDS)
    ensures CopyTiles(Gaps(cuts, duration), keyframes, duration)
  {
    hide Sum, StartOf, NothingDue, Gaps, NextCut;
    if |cuts| > 1 {
      LastCut(cuts, keyframes, duration);
      NextCutGap(cuts[|cuts| - 2], cuts[|cuts| - 1], keyframes, duration);
    }
    GapsStart(cuts, keyframes, duration, duration);
    SameCuts(Gaps(cuts, duration), cuts, keyframes, duration);
  }

  // A last bit of under a second: the cut before it was not needed.
  lemma FoldLast(cuts: seq<real>, keyframes: seq<real>, duration: real)
    requires Cuts(cuts, keyframes, duration) && |cuts| > 1 && Gap(cuts[|cuts| - 1], duration) < MIN_TAIL_SECONDS
    ensures var n, gaps := |cuts| - 1, Gaps(cuts, duration);
            && Cuts(cuts[..n], keyframes, duration)
            && NothingDue(cuts[n - 1], keyframes, duration)
            && duration - cuts[n - 1] >= MIN_TAIL_SECONDS
            && gaps[..n][n - 1 := gaps[n - 1] + gaps[n]] == Gaps(cuts[..n], duration)
  {
    var n := |cuts| - 1;
    LastCut(cuts, keyframes, duration);
    NextCutGap(cuts[n - 1], cuts[n], keyframes, duration);
    assert NothingDue(cuts[n - 1], keyframes, duration);
    hide Cuts, NextCut, NothingDue;
    GapsLast(cuts[..n], cuts[n], duration);
    assert Gap(cuts[n - 1], cuts[n]) + Gap(cuts[n], duration) == Gap(cuts[n - 1], duration);
    var fewer, gaps := Gaps(cuts[..n], cuts[n]), Gaps(cuts, duration);
    assert cuts[..n][n - 1] == cuts[n - 1];
    assert gaps == fewer + [Gap(cuts[n], duration)];
    hide Gap, Gaps;
    assert gaps[..n] == fewer;
    assert gaps[n - 1] == fewer[n - 1] && gaps[n] == Gap(cuts[n], duration);
  }

  lemma GapsLast(cuts: seq<real>, end: real, duration: real)
    requires cuts != []
    ensures var n := |cuts| - 1;
            && Gaps(cuts, end)[n := Gap(cuts[n], duration)] == Gaps(cuts, duration)
            && Gaps(cuts, end)[n] == Gap(cuts[n], end)
  {
    hide Gap;
  }

  /** A copied rendition is cut at 0 and at real keyframes only, each the first one due at least 5.99 seconds
      after the cut before; the announced lengths add up to the duration, even when a last bit of under a second
      is given to the segment before it. */
  method CopySegmentLengths(duration: real, keyframes: Option<seq<real>>) returns (r: Option<seq<real>>)
    requires keyframes.Some? ==> Ascending(keyframes.value, 0.01)
    ensures r.None? <==> keyframes.None? || keyframes.value == [] || duration <= 0.0
    ensures r.Some? ==> CopyTiles(r.value, keyframes.value, duration)
  {
    if keyframes.None? || keyframes.value == [] || duration <= 0.0 {
      return None;
    }
    hide Cuts, CopyTiles, Gaps, Gap, NothingDue, Ascending, Inside;
    var times := keyframes.value;
    NoCuts(times, duration);
    var boundaries := [0.0];
    var nextTarget := HLS_SEGMENT_SECONDS;
    for i := 0 to |times|
      invariant Cuts(boundaries, times, duration)
      invariant nextTarget == boundaries[|boundaries| - 1] + HLS_SEGMENT_SECONDS
      invariant Passed(times, i, nextTarget - 0.01, duration)
    {
      var value := times[i];
      if Inside(value, duration) && value >= nextTarget - 0.01 {
        CutNext(boundaries, times, duration, i);
        boundaries := boundaries + [value];
        nextTarget := value + HLS_SEGMENT_SECONDS;
      }
    }
    var lengths := Gaps(boundaries, duration);
    if |lengths| > 1 && lengths[|lengths| - 1] < MIN_TAIL_SECONDS {
      var n := |lengths| - 1;
      FoldLast(boundaries, times, duration);
      CutsTile(boundaries[..n], times, duration);
      lengths := lengths[..n][n - 1 := lengths[n - 1] + lengths[n]];
    } else {
      Finished(boundaries, times, duration);
      CutsTile(boundaries, times, duration);
    }
    return Some(lengths);
  }

  lemma Finished(cuts: seq<real>, times: seq<real>, duration: real)
    requires cuts != [] && Passed(times, |times|, cuts[|cuts| - 1] + MIN_COPY, duration)
    ensures NothingDue(cuts[|cuts| - 1], times, duration)
    ensures Gaps(cuts, duration)[|cuts| - 1] == Gap(cuts[|cuts| - 1], duration)
  {
    GapsLast(cuts, duration, duration);
  }

  lemma NoCuts(times: seq<real>, duration: real)
    ensures Cuts([0.0], times, duration)
  {
  }

  // None of the first i keyframes is due at the target any more.
  ghost predicate Passed(times: seq<real>, i: nat, target: real, duration: real) {
    forall j :: 0 <= j < i && j < |times| && Inside(times[j], duration) ==> times[j] < target
  }

  lemma CutNext(cuts: seq<real>, times: seq<real>, duration: real, i: nat)
    requires Cuts(cuts, times, duration) && i < |times| && Ascending(times, 0.01)
    requires Inside(times[i], duration) && times[i] >= cuts[|cuts| - 1] + MIN_COPY
    requires Passed(times, i, cuts[|cuts| - 1] + MIN_COPY, duration)
    ensures Cuts(cuts + [times[i]], times, duration)
    ensures Passed(times, i + 1, times[i] + MIN_COPY, duration)
  {
    FirstOne(cuts[|cuts| - 1], times, duration, i);
    hide FirstDue;
    assert NextCut(cuts[|cuts| - 1], times[i], times, duration);
    hide NextCut, Inside;
  }

  lemma FirstOne(last: real, times: seq<real>, duration: real, i: nat)
    requires i < |times| && Ascending(times, 0.01) && Passed(times, i, last + MIN_COPY, duration)
    ensures FirstDue(last, times[i], times, duration)
  {
  }
}
