/** Chunk planning of the background job (backend/server.py): the trim
    window in frames, the adaptive chunk size, and the frame ranges
    `[i, min(i + chunk_size, end_frame))` of `range(start, end, chunk_size)`. */
module Planner {
  import opened Common
  import opened Progress

  /** `trim_params`: a dict that may hold "start_time" and "end_time" in
      seconds, and `otherKeys` when it holds any other key. The dict is
      truthy when it holds any key at all; only an empty dict means "no
      trim". */
  datatype Trim = Trim(startTime: Option<real>, endTime: Option<real>, otherKeys: bool) {
    predicate Truthy() { otherKeys || startTime.Some? || endTime.Some? }
  }

  /** The frame window `[start_frame, end_frame)` of the job. The default of
      `trim_params.get('end_time', total_frames / fps)` is evaluated even
      when the key is present, so any truthy trim with an fps of 0 raises.
      Nothing is clamped: the window may start below 0 or end beyond the
      reported length. */
  function TrimWindow(totalFrames: int, fps: real, trim: Option<Trim>): (r: Outcome<(int, int)>)
    ensures (trim.None? || !trim.value.Truthy()) ==> r == Ok((0, totalFrames))
    ensures trim.Some? && trim.value.Truthy() && fps == 0.0 ==> r == Raised("float division by zero")
    ensures trim.Some? && trim.value.Truthy() && fps != 0.0 ==>
      && r.Ok?
      && r.value.0 == (if trim.value.startTime.Some? then Trunc(trim.value.startTime.value * fps) else 0)
      && r.value.1 == (if trim.value.endTime.Some? then Trunc(trim.value.endTime.value * fps) else totalFrames)
  {
    if trim.None? || !trim.value.Truthy() then Ok((0, totalFrames))
    else if fps == 0.0 then Raised("float division by zero")
    else
      var defaultEnd := totalFrames as real / fps;
      var startTime := if trim.value.startTime.Some? then trim.value.startTime.value else 0.0;
      var endTime := if trim.value.endTime.Some? then trim.value.endTime.value else defaultEnd;
      assert defaultEnd * fps == totalFrames as real;
      Ok((Trunc(startTime * fps), Trunc(endTime * fps)))
  }

  /** A trim window is not clamped: a negative start time gives a frame
      before the first one. */
  lemma TrimWindowIsNotClamped()
    ensures TrimWindow(100, 25.0, Some(Trim(Some(-2.0), Some(10.0), false))) == Ok((-50, 250))
  {
  }

  /** A dict holding neither time but some other key is still a trim: at
      0 fps it raises, and otherwise it selects the whole video. */
  lemma OtherKeysAreATrim(totalFrames: int, fps: real)
    ensures TrimWindow(totalFrames, 0.0, Some(Trim(None, None, true))) == Raised("float division by zero")
    ensures fps != 0.0 ==> TrimWindow(totalFrames, fps, Some(Trim(None, None, true))) == Ok((0, totalFrames))
    ensures TrimWindow(totalFrames, 0.0, Some(Trim(None, None, false))) == Ok((0, totalFrames))
  {
  }

  /** `min(300, max(50, n // 8))`: about an eighth of the window, never
      fewer than 50 nor more than 300 frames. */
  function ChunkSize(n: int): (size: nat)
    ensures 50 <= size <= 300
    ensures 400 <= n <= 2400 ==> size == n / 8
    ensures n < 400 ==> size == 50
    ensures n > 2407 ==> size == 300
  {
    Min(300, Max(50, n / 8))
  }

  /** A half-open frame range `[lo, hi)`. */
  datatype Range = Range(lo: int, hi: int) {
    function Length(): int { hi - lo }
    predicate Contains(f: int) { lo <= f < hi }
  }

  /** `[Range(i, min(i + size, end)) for i in range(from, end, size)]`. */
  function ChunkRanges(from: int, end: int, size: nat): (rs: seq<Range>)
    requires 0 < size
    ensures from >= end <==> rs == []
    decreases end - from
  {
    if from >= end then []
    else [Range(from, Min(from + size, end))] + ChunkRanges(from + size, end, size)
  }

  /** The ranges are non-empty, at most `size` long, all inside
      `[from, end)`; the first starts at `from`, the last ends at `end`,
      each starts where the previous one ended, and every range but the last
      is exactly `size` long. */
  lemma ChunkRangesShape(from: int, end: int, size: nat)
    requires 0 < size
    ensures forall k | 0 <= k < |ChunkRanges(from, end, size)| ::
      var r := ChunkRanges(from, end, size)[k];
      from <= r.lo < r.hi <= end && r.Length() <= size
    ensures |ChunkRanges(from, end, size)| > 0 ==>
      ChunkRanges(from, end, size)[0].lo == from
      && ChunkRanges(from, end, size)[|ChunkRanges(from, end, size)| - 1].hi == end
    ensures forall k | 0 <= k < |ChunkRanges(from, end, size)| - 1 ::
      ChunkRanges(from, end, size)[k].hi == ChunkRanges(from, end, size)[k + 1].lo
      && ChunkRanges(from, end, size)[k].Length() == size
  {
    ChunkRangesBounds(from, end, size);
    ChunkRangesEnds(from, end, size);
    ChunkRangesContiguous(from, end, size);
  }

  lemma {:induction false} ChunkRangesBounds(from: int, end: int, size: nat)
    requires 0 < size
    ensures forall k | 0 <= k < |ChunkRanges(from, end, size)| ::
      var r := ChunkRanges(from, end, size)[k];
      from <= r.lo < r.hi <= end && r.Length() <= size
    decreases end - from
  {
    if from < end {
      var rs := ChunkRanges(from, end, size);
      var rest := ChunkRanges(from + size, end, size);
      ChunkRangesBounds(from + size, end, size);
      forall k | 0 <= k < |rs|
        ensures from <= rs[k].lo < rs[k].hi <= end && rs[k].Length() <= size
      {
        if k > 0 { assert rs[k] == rest[k - 1]; }
      }
    }
  }

  lemma {:induction false} ChunkRangesEnds(from: int, end: int, size: nat)
    requires 0 < size
    ensures |ChunkRanges(from, end, size)| > 0 ==>
      ChunkRanges(from, end, size)[0].lo == from
      && ChunkRanges(from, end, size)[|ChunkRanges(from, end, size)| - 1].hi == end
    decreases end - from
  {
    if from < end {
      var rs := ChunkRanges(from, end, size);
      var rest := ChunkRanges(from + size, end, size);
      ChunkRangesEnds(from + size, end, size);
      if rest != [] {
        assert rs[|rs| - 1] == rest[|rest| - 1];
      }
    }
  }

  lemma {:induction false} ChunkRangesContiguous(from: int, end: int, size: nat)
    requires 0 < size
    ensures forall k | 0 <= k < |ChunkRanges(from, end, size)| - 1 ::
      ChunkRanges(from, end, size)[k].hi == ChunkRanges(from, end, size)[k + 1].lo
      && ChunkRanges(from, end, size)[k].Length() == size
    decreases end - from
  {
    if from < end {
      var rs := ChunkRanges(from, end, size);
      var rest := ChunkRanges(from + size, end, size);
      ChunkRangesContiguous(from + size, end, size);
      forall k | 0 <= k < |rs| - 1
        ensures rs[k].hi == rs[k + 1].lo && rs[k].Length() == size
      {
        assert rs[k + 1] == rest[k];
        if k > 0 { assert rs[k] == rest[k - 1]; }
      }
    }
  }

  /** Every frame of `[from, end)` lies in one of the ranges, no other
      frame does, and no frame lies in two of them. */
  lemma {:induction false} ChunkRangesCover(from: int, end: int, size: nat, f: int)
    requires 0 < size
    ensures (from <= f < end) <==>
      exists k | 0 <= k < |ChunkRanges(from, end, size)| :: ChunkRanges(from, end, size)[k].Contains(f)
    ensures forall k, l | 0 <= k < l < |ChunkRanges(from, end, size)| ::
      !(ChunkRanges(from, end, size)[k].Contains(f) && ChunkRanges(from, end, size)[l].Contains(f))
    decreases end - from
  {
    var rs := ChunkRanges(from, end, size);
    ChunkRangesShape(from, end, size);
    ChunkRangesOrdered(from, end, size);
    if from <= f < end {
      if f < from + size {
        assert rs[0].Contains(f);
      } else {
        ChunkRangesCover(from + size, end, size, f);
        var rest := ChunkRanges(from + size, end, size);
        var k :| 0 <= k < |rest| && rest[k].Contains(f);
        assert rs[k + 1] == rest[k];
      }
    }
  }

  /** The ranges are increasing and pairwise disjoint. */
  lemma {:induction false} ChunkRangesOrdered(from: int, end: int, size: nat)
    requires 0 < size
    ensures forall k, l | 0 <= k < l < |ChunkRanges(from, end, size)| ::
      ChunkRanges(from, end, size)[k].hi <= ChunkRanges(from, end, size)[l].lo
    decreases end - from
  {
    if from < end {
      var rs := ChunkRanges(from, end, size);
      var rest := ChunkRanges(from + size, end, size);
      ChunkRangesOrdered(from + size, end, size);
      ChunkRangesBounds(from + size, end, size);
      forall k, l | 0 <= k < l < |rs| ensures rs[k].hi <= rs[l].lo {
        assert rs[l] == rest[l - 1];
        if k > 0 {
          assert rs[k] == rest[k - 1];
        }
      }
    }
  }

  /** The ranges' lengths add up to the window's length. */
  function TotalLength(rs: seq<Range>): int {
    if rs == [] then 0 else rs[0].Length() + TotalLength(rs[1..])
  }

  lemma {:induction false} ChunkRangesTotal(from: int, end: int, size: nat)
    requires 0 < size
    ensures TotalLength(ChunkRanges(from, end, size)) == Max(0, end - from)
    decreases end - from
  {
    if from < end {
      var rs := ChunkRanges(from, end, size);
      assert rs[1..] == ChunkRanges(from + size, end, size);
      ChunkRangesTotal(from + size, end, size);
    }
  }

  /** There are `ceil((end - from) / size)` ranges. */
  lemma {:induction false} ChunkRangesCount(from: int, end: int, size: nat)
    requires 0 < size
    ensures from < end ==> (|ChunkRanges(from, end, size)| - 1) * size < end - from <= |ChunkRanges(from, end, size)| * size
    decreases end - from
  {
    if from < end {
      var n := |ChunkRanges(from, end, size)|;
      ChunkRangesCount(from + size, end, size);
      assert n * size == (n - 1) * size + size;
      if from + size < end {
        assert (n - 1) * size == (n - 2) * size + size;
      }
    }
  }

  /** The plan of the background job for the window `[start, end)`. */
  function Plan(start: int, end: int): seq<Range> {
    ChunkRanges(start, end, ChunkSize(end - start))
  }

  /** Every planned chunk is a non-empty part of the window. */
  lemma PlanRanges(start: int, end: int)
    ensures forall k | 0 <= k < |Plan(start, end)| :: start <= Plan(start, end)[k].lo < Plan(start, end)[k].hi <= end
  {
    ChunkRangesBounds(start, end, ChunkSize(end - start));
  }

  /** An empty or inverted window gives no chunk at all. */
  lemma PlanEmptyWindow(start: int, end: int)
    requires end <= start
    ensures Plan(start, end) == []
  {
  }

  /** A window of at most 50 frames is processed as one chunk. */
  lemma ShortWindowIsOneChunk(start: int, end: int)
    requires start < end <= start + 50
    ensures Plan(start, end) == [Range(start, end)]
  {
    var rs := Plan(start, end);
    assert ChunkRanges(start + 50, end, 50) == [];
  }

  /** A 90-frame video is cut into the chunks [0,50) and [50,90): the
      50-frame lower bound applies, and 90 frames exceed it. */
  lemma NinetyFramesMakeTwoChunks()
    ensures Plan(0, 90) == [Range(0, 50), Range(50, 90)]
  {
    assert ChunkSize(90) == 50;
    assert ChunkRanges(100, 90, 50) == [];
    assert ChunkRanges(50, 90, 50) == [Range(50, 90)];
  }

  /** The job-level progress published before the chunk starting at frame
      `i`: `(i - start_frame) / total_frames_to_process * 90`. */
  function ChunkStartProgress(start: int, end: int, i: int): (p: Percent)
    requires start < end
    ensures p.Valid()
  {
    Percent((i - start) * 90, end - start)
  }

  /** Before every planned chunk that progress lies in [0, 90). */
  lemma ChunkStartProgressBounds(start: int, end: int, k: nat)
    requires k < |Plan(start, end)|
    ensures start < end
    ensures var p := ChunkStartProgress(start, end, Plan(start, end)[k].lo);
      0 <= p.num < 90 * p.den && 0.0 <= p.Value() < 90.0
  {
    ChunkRangesShape(start, end, ChunkSize(end - start));
    var lo := Plan(start, end)[k].lo;
    var p := ChunkStartProgress(start, end, lo);
    var a := ((lo - start) * 90) as real;
    var b := (end - start) as real;
    DivCompare(a, b, 90.0);
    DivCompare(a, b, 0.0);
  }
}
