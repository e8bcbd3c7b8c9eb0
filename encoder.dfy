/** `VideoProcessor.process_video_chunk` (backend/server.py): one chunk of
    the source is read in batches of five frames, each frame is cropped,
    resized and styled, the writer receives it, and the job's entry in the
    status dictionary is overwritten after every batch. */
module ChunkEncoder {
  import opened Common
  import opened Media
  import opened Progress
  import opened ChunkStatus

  // ---------------------------------------------------------------------
  // Parameters the effects derive from the intensity.

  /** `max(5, int(7 + intensity * 8))`, bumped to the next odd number. */
  function PencilBlurSize(intensity: real): (k: int)
    ensures k >= 5 && k % 2 == 1
    ensures 0.0 <= intensity <= 1.0 ==> 7 <= k <= 15
  {
    var b := Max(5, Trunc(7.0 + intensity * 8.0));
    if b % 2 == 0 then b + 1 else b
  }

  /** `max(4, int(6 + intensity * 3))` colours for the k-means quantiser. */
  function CartoonColours(intensity: real): (k: int)
    ensures k >= 4
    ensures 0.0 <= intensity <= 1.0 ==> 6 <= k <= 9
  {
    Max(4, Trunc(6.0 + intensity * 3.0))
  }

  // ---------------------------------------------------------------------
  // Geometry.

  /** `max(0, min(x, full - w))`: the crop origin moved back inside the
      frame along one axis. */
  function CropOrigin(x: int, w: int, full: int): (o: int)
    ensures 0 <= o
    ensures 0 <= w <= full ==> o + w <= full
    ensures 0 <= x && x + w <= full ==> o == x
    ensures w >= full ==> o == 0
  {
    Max(0, Min(x, full - w))
  }

  /** `frame[y:y+h, x:x+w]` with the clamped origin. The source clamps the
      origin against the reported size of the video, not the frame's own. */
  function CropFrame(f: Frame, c: Crop, width: int, height: int): Frame {
    var x := CropOrigin(c.x, c.width, width);
    var y := CropOrigin(c.y, c.height, height);
    Slice2D(f, y, y + c.height, x, x + c.width)
  }

  /** On a frame of the reported size and a non-negative crop size the crop
      is `min(w, W)` by `min(h, H)` pixels, taken at the clamped origin: a
      crop wider than the frame yields the full width. */
  lemma CropFrameSize(f: Frame, c: Crop)
    requires 0 <= c.width && 0 <= c.height
    ensures var g := CropFrame(f, c, f.width, f.height);
      && g.width == Min(c.width, f.width) && g.height == Min(c.height, f.height)
      && forall i, j | 0 <= i < g.height && 0 <= j < g.width ::
           g.rows[i][j] == f.rows[CropOrigin(c.y, c.height, f.height) + i][CropOrigin(c.x, c.width, f.width) + j]
  {
    var x := CropOrigin(c.x, c.width, f.width);
    var y := CropOrigin(c.y, c.height, f.height);
    assert SliceRange(x, x + c.width, f.width) == (x, Min(x + c.width, f.width));
    assert SliceRange(y, y + c.height, f.height) == (y, Min(y + c.height, f.height));
  }

  /** The frame size the writer is opened with: the crop size if a crop is
      given, else the resize size, else the source size. */
  function WriterDims(crop: Option<Crop>, resize: Option<Resize>, width: int, height: int): (d: (int, int))
    ensures crop.Some? ==> d == (crop.value.width, crop.value.height)
    ensures crop.None? && resize.Some? ==> d == (resize.value.width, resize.value.height)
    ensures crop.None? && resize.None? ==> d == (width, height)
  {
    if crop.Some? then (crop.value.width, crop.value.height)
    else if resize.Some? then (resize.value.width, resize.value.height)
    else (width, height)
  }

  /** With both a crop and a resize, the writer is opened at the crop size
      while every frame it receives has been resized: the two sizes differ
      whenever the crop and resize sizes do. */
  lemma WriterDimsIgnoreResize(c: Crop, r: Resize, width: int, height: int)
    requires (c.width, c.height) != (r.width, r.height)
    ensures WriterDims(Some(c), Some(r), width, height) != (r.width, r.height)
  {
  }

  // ---------------------------------------------------------------------
  // One frame.

  /** The two styles with an effect of their own. */
  const PencilStyle := "pencil"
  const CartoonStyle := "cartoon"

  /** Crop, then `cv2.resize`, then the style's effect. Only "pencil" and
      "cartoon" have an effect; any other style leaves the frame as it is.
      A resize or an effect that raises ends the chunk. */
  function Transform(f: Frame, style: string, intensity: real, crop: Option<Crop>,
                     resize: Option<Resize>, width: int, height: int, tk: Toolkit): Outcome<Frame>
  {
    var cropped := if crop.Some? then CropFrame(f, crop.value, width, height) else f;
    var sized := if resize.Some? then tk.resize(cropped, resize.value.width, resize.value.height)
                 else Ok(cropped);
    match sized
    case Raised(e) => Raised(e)
    case Ok(g) =>
      if style == PencilStyle then tk.sketch(g, PencilBlurSize(intensity), intensity)
      else if style == CartoonStyle then tk.cartoon(g, CartoonColours(intensity), intensity)
      else Ok(g)
  }

  /** Which effect a frame gets: a style other than "pencil" or "cartoon"
      with no crop and no resize passes the frame through; "pencil" hands
      the blur size and "cartoon" the colour count to their effect. */
  lemma TransformDispatch(f: Frame, style: string, intensity: real, crop: Option<Crop>,
                          resize: Option<Resize>, width: int, height: int, tk: Toolkit)
    ensures crop.None? && resize.None? && style != PencilStyle && style != CartoonStyle ==>
      Transform(f, style, intensity, crop, resize, width, height, tk) == Ok(f)
    ensures crop.None? && resize.None? && style == PencilStyle ==>
      Transform(f, style, intensity, crop, resize, width, height, tk) == tk.sketch(f, PencilBlurSize(intensity), intensity)
    ensures crop.None? && resize.None? && style == CartoonStyle ==>
      Transform(f, style, intensity, crop, resize, width, height, tk) == tk.cartoon(f, CartoonColours(intensity), intensity)
    ensures resize.Some? && tk.resize(if crop.Some? then CropFrame(f, crop.value, width, height) else f,
                                      resize.value.width, resize.value.height).Raised? ==>
      Transform(f, style, intensity, crop, resize, width, height, tk).Raised?
  {
  }

  function TransformOf(style: string, intensity: real, crop: Option<Crop>, resize: Option<Resize>,
                       width: int, height: int, tk: Toolkit): Frame -> Outcome<Frame>
  {
    f => Transform(f, style, intensity, crop, resize, width, height, tk)
  }

  // ---------------------------------------------------------------------
  // The chunk.

  /** The frames the chunk reads: from the seek position on, at most
      `end - start` of them (the reader counts from `start` even when the
      seek went to the first frame instead). */
  function ChunkInput(src: Capture, start: int, end: int): (fs: seq<Frame>)
    ensures |fs| <= Max(0, end - start)
  {
    var stream := src.StreamFrom(start);
    stream[..Min(|stream|, Max(0, end - start))]
  }

  /** The chunk's frames through the writer: what it received, and the
      error that ended the chunk, if any. */
  function ChunkEncoding(src: Capture, start: int, end: int, style: string, intensity: real,
                         crop: Option<Crop>, resize: Option<Resize>, tk: Toolkit): Encoded<Frame>
  {
    Encode(ChunkInput(src, start, end), TransformOf(style, intensity, crop, resize, src.width, src.height, tk))
  }

  /** The codec of the writer that opened: avc1, else mp4v, else none. */
  function WriterCodec(tk: Toolkit, path: string): Option<Codec> {
    if tk.writerOpens(Avc1, path) then Some(Avc1)
    else if tk.writerOpens(Mp4v, path) then Some(Mp4v)
    else None
  }

  /** What the chunk leaves on disk: any old file at the path is gone, and
      an opened writer leaves the frames it received when it is released
      (in the `finally` block, so also after a failure). */
  function ChunkFiles(files: map<string, Stored>, path: string, codec: Option<Codec>,
                      dims: (int, int), written: seq<Frame>, tk: Toolkit): map<string, Stored>
  {
    if codec.Some? then (files - {path})[path := Video(dims.0, dims.1, written, tk.sizeOf(written))]
    else files - {path}
  }

  /** The error a chunk reports when its capture did not open. */
  const CannotOpen := "Cannot open video file"

  /** What one call of `process_video_chunk` comes to: whether the capture
      opened, how many frames it read, what the writer received and how the
      chunk ended, the codec of the writer that opened (if any) and the
      frame size the writer was opened with. */
  datatype ChunkRun = ChunkRun(opens: bool, read: nat, encoded: Encoded<Frame>, codec: Option<Codec>,
                               dims: (int, int))
  {
    /** `success and chunk_output.exists()`: the chunk raised nothing and a
        writer opened, so its file exists. */
    predicate Succeeds() { opens && encoded.failure.None? && codec.Some? }
  }

  /** The run of `process_video_chunk` for the frames `start` to `end` of
      `src`, written to `path`. */
  function ChunkRunOf(src: Capture, path: string, start: int, end: int, style: string, intensity: real,
                      crop: Option<Crop>, resize: Option<Resize>, tk: Toolkit): (run: ChunkRun)
    ensures run.read <= Max(0, end - start)
  {
    ChunkRun(src.isOpen, |ChunkInput(src, start, end)|, ChunkEncoding(src, start, end, style, intensity, crop, resize, tk),
             WriterCodec(tk, path), WriterDims(crop, resize, src.width, src.height))
  }

  /** The disk after a chunk written to `path`: nothing changes when the
      capture did not open; otherwise the old file is gone and an opened
      writer leaves what it received. */
  function ChunkDisk(files: map<string, Stored>, run: ChunkRun, path: string, tk: Toolkit): map<string, Stored> {
    if run.opens then ChunkFiles(files, path, run.codec, run.dims, run.encoded.out, tk) else files
  }


  /** The status dictionary after the chunk: the failure record when the
      capture did not open or a frame raised, otherwise the record of the
      last batch, or no change when no frame was read. */
  function ChunkEntries(entries: map<string, StatusRecord>, id: string, run: ChunkRun, style: string,
                        total: int): map<string, StatusRecord>
    requires run.read <= Max(0, total)
  {
    if !run.opens then entries[id := FailureRecord(CannotOpen)]
    else if run.encoded.failure.Some? then entries[id := FailureRecord(run.encoded.failure.value)]
    else if run.read == 0 then entries
    else entries[id := BatchRecord(style, run.read, total)]
  }

  /** `process_video_chunk`. The result says whether the chunk succeeded;
      `marks` (ghost) are the frame counts after each batch. */
  method ProcessVideoChunk(src: Capture, outPath: string, start: int, end: int, style: string,
                           intensity: real, crop: Option<Crop>, resize: Option<Resize>,
                           projectId: string, tk: Toolkit, sink: ProgressSink, disk: Disk)
    returns (ok: bool, ghost marks: seq<nat>)
    modifies sink, disk
    ensures var run := ChunkRunOf(src, outPath, start, end, style, intensity, crop, resize, tk);
      && ok == (run.opens && run.encoded.failure.None?)
      && disk.files == ChunkDisk(old(disk.files), run, outPath, tk)
      && sink.entries == ChunkEntries(old(sink.entries), projectId, run, style, end - start)
    ensures !src.isOpen ==> sink.log == old(sink.log) + [(projectId, FailureRecord(CannotOpen))]
    ensures src.isOpen ==>
      BatchesPublished(old(sink.entries), old(sink.log), sink.entries, sink.log, projectId, style, end - start,
                       |ChunkInput(src, start, end)|, marks, ChunkEncoding(src, start, end, style, intensity, crop, resize, tk))
  {
    marks := [];
    if !src.isOpen {
      sink.Put(projectId, FailureRecord(CannotOpen));
      return false, marks;
    }
    var t := TransformOf(style, intensity, crop, resize, src.width, src.height, tk);
    var input := ChunkInput(src, start, end);
    ok, marks := WriteChunk(input, t, outPath, WriterDims(crop, resize, src.width, src.height), start, end,
                            style, projectId, tk, sink, disk);
    RunEntries(old(sink.entries), old(sink.log), sink.entries, sink.log, projectId, style, end - start,
               ChunkRunOf(src, outPath, start, end, style, intensity, crop, resize, tk), marks);
  }

  /** The body of `process_video_chunk` once the capture is open: the old
      chunk file is removed, the writer opened with the first codec that
      works, the frames `input` encoded with `t` in batches, and the writer
      released with what it received. */
  method WriteChunk(input: seq<Frame>, t: Frame -> Outcome<Frame>, outPath: string, dims: (int, int),
                    start: int, end: int, style: string, projectId: string, tk: Toolkit,
                    sink: ProgressSink, disk: Disk)
    returns (ok: bool, ghost marks: seq<nat>)
    requires |input| <= Max(0, end - start)
    modifies sink, disk
    ensures ok == Encode(input, t).failure.None?
    ensures disk.files == ChunkFiles(old(disk.files), outPath, WriterCodec(tk, outPath), dims, Encode(input, t).out, tk)
    ensures BatchesPublished(old(sink.entries), old(sink.log), sink.entries, sink.log,
                             projectId, style, end - start, |input|, marks, Encode(input, t))
  {
    disk.Unlink(outPath);
    var codec := WriterCodec(tk, outPath);
    var written, failure;
    written, failure, marks := EncodeChunk(input, t, start, end, style, projectId, sink);
    if codec.Some? {
      disk.Write(outPath, Video(dims.0, dims.1, written, tk.sizeOf(written)));
    }
    ok := failure.None?;
  }

  /** What the batch loop published fixes the record the chunk leaves. */
  lemma RunEntries(entries0: map<string, StatusRecord>, log0: seq<(string, StatusRecord)>,
                   entries: map<string, StatusRecord>, log: seq<(string, StatusRecord)>,
                   id: string, style: string, total: int, run: ChunkRun, marks: seq<nat>)
    requires run.opens && run.read <= Max(0, total)
    requires BatchesPublished(entries0, log0, entries, log, id, style, total, run.read, marks, run.encoded)
    ensures entries == ChunkEntries(entries0, id, run, style, total)
  {
    PublishedLast(entries0, log0, entries, log, id, style, total, run.read, marks, run.encoded);
  }

  /** The `while frame_count < end_frame` loop over the frames `input`
      that follow the seek. */
  method EncodeChunk<F>(input: seq<F>, t: F -> Outcome<F>, start: int, end: int,
                     style: string, projectId: string, sink: ProgressSink)
    returns (written: seq<F>, failure: Option<string>, ghost marks: seq<nat>)
    requires |input| <= Max(0, end - start)
    modifies sink
    ensures Encode(input, t) == Encoded(written, failure)
    ensures BatchesPublished(old(sink.entries), old(sink.log), sink.entries, sink.log,
                             projectId, style, end - start, |input|, marks, Encode(input, t))
  {
    var total := end - start;
    var frameCount := start;
    var pos := 0;
    written := [];
    marks := [];
    while frameCount < end
      invariant frameCount == start + pos && pos <= |input|
      invariant Encode(input[..pos], t) == Encoded(written, None)
      invariant Published(old(sink.entries), old(sink.log), sink.entries, sink.log, projectId, style, total, pos, marks)
      decreases end - frameCount
    {
      var n, out, fail := NextBatch(input, t, pos, end - frameCount, written);
      if n == 0 {
        break;
      }
      frameCount := frameCount + n;
      if fail.Some? {
        marks := FailedBatch(sink, old(sink.entries), old(sink.log), projectId, style, total, pos, n, marks,
                             fail.value, |input|, Encode(input, t));
        written, failure := out, fail;
        return;
      }
      marks := CompletedBatch(sink, old(sink.entries), old(sink.log), projectId, style, total, pos, n, marks);
      pos, written := pos + n, out;
    }
    assert pos == |input|;
    EncodeWhole(input, t);
    failure := None;
    SuccessPublished(old(sink.entries), old(sink.log), sink.entries, sink.log, projectId, style, total,
                     |input|, marks, Encode(input, t));
  }

  /** The status update after a batch of `n` frames that all encoded. */
  method CompletedBatch(sink: ProgressSink, ghost entries0: map<string, StatusRecord>,
                        ghost log0: seq<(string, StatusRecord)>, id: string, style: string, total: int,
                        pos: nat, n: nat, ghost marks: seq<nat>)
    returns (ghost marks1: seq<nat>)
    requires Published(entries0, log0, sink.entries, sink.log, id, style, total, pos, marks)
    requires 1 <= n <= 5 && pos + n <= total
    modifies sink
    ensures Published(entries0, log0, sink.entries, sink.log, id, style, total, pos + n, marks1)
  {
    BatchedAppend(marks, pos + n);
    marks1 := marks + [pos + n];
    PublishBatch(sink, entries0, log0, id, style, total, marks, pos + n);
  }

  /** The status update of the `except` block, after a batch of `n` frames
      whose encoding `e` of all `inputs` frames failed with `message`. */
  method FailedBatch<F>(sink: ProgressSink, ghost entries0: map<string, StatusRecord>,
                        ghost log0: seq<(string, StatusRecord)>, id: string, style: string, total: int,
                        pos: nat, n: nat, ghost marks: seq<nat>, message: string,
                        ghost inputs: nat, ghost e: Encoded<F>)
    returns (ghost marks1: seq<nat>)
    requires Published(entries0, log0, sink.entries, sink.log, id, style, total, pos, marks)
    requires 1 <= n <= 5 && pos + n <= total && pos + n <= inputs
    requires e.failure == Some(message) && |e.out| < pos + n
    modifies sink
    ensures BatchesPublished(entries0, log0, sink.entries, sink.log, id, style, total, inputs, marks1, e)
  {
    BatchedAppend(marks, pos + n);
    marks1 := marks + [pos + n];
    PublishFailure(sink, entries0, log0, id, style, total, marks, pos + n, message, inputs, e);
  }

  /** The status update at the end of a batch. */
  method PublishBatch(sink: ProgressSink, ghost entries0: map<string, StatusRecord>, ghost log0: seq<(string, StatusRecord)>,
                      id: string, style: string, total: int, ghost marks: seq<nat>, m: nat)
    requires 0 < total
    requires Progressed(entries0, log0, sink.entries, sink.log, id, style, total, marks)
    modifies sink
    ensures Progressed(entries0, log0, sink.entries, sink.log, id, style, total, marks + [m])
  {
    BatchLogAppend(id, style, total, marks, m);
    sink.Put(id, BatchRecord(style, m, total));
  }

  /** The status update of the `except` block, after the batch ending at
      frame count `m` whose encoding `e` failed. */
  method PublishFailure<F>(sink: ProgressSink, ghost entries0: map<string, StatusRecord>, ghost log0: seq<(string, StatusRecord)>,
                        id: string, style: string, total: int, ghost marks: seq<nat>, m: nat,
                        message: string, ghost inputs: nat, ghost e: Encoded<F>)
    requires 0 < total && m <= inputs
    requires Batched(marks + [m]) && Done(marks + [m]) == m && (marks + [m])[..|marks|] == marks
    requires Progressed(entries0, log0, sink.entries, sink.log, id, style, total, marks)
    requires e.failure == Some(message) && |e.out| < m
    modifies sink
    ensures BatchesPublished(entries0, log0, sink.entries, sink.log, id, style, total, inputs, marks + [m], e)
  {
    sink.Put(id, FailureRecord(message));
  }

  /** One pass of the outer loop's body before its status update: read a
      batch of `n` frames, then transform and write them. */
  method NextBatch<F>(input: seq<F>, t: F -> Outcome<F>, pos: nat, left: int, written: seq<F>)
    returns (n: nat, out: seq<F>, failure: Option<string>)
    requires pos <= |input|
    requires Encode(input[..pos], t) == Encoded(written, None)
    ensures n == Min(5, Min(Max(0, left), |input| - pos))
    ensures n == 0 ==> out == written && failure.None?
    ensures failure.None? ==> Encode(input[..pos + n], t) == Encoded(out, None)
    ensures failure.Some? ==> Encode(input, t) == Encoded(out, failure) && |out| < pos + n
  {
    var batch := ReadBatch(input, pos, left);
    n := |batch|;
    if n == 0 {
      return n, written, None;
    }
    out, failure := EncodeBatch(input, t, pos, n, written);
  }

  /** The inner `for _ in range(5)` loop: reads until five frames are in
      the batch, the chunk's end is reached (`left` frames remain before
      it), or the stream runs dry. */
  method ReadBatch<F>(input: seq<F>, pos: nat, left: int) returns (batch: seq<F>)
    requires pos <= |input|
    ensures |batch| == Min(5, Min(Max(0, left), |input| - pos))
    ensures batch == input[pos..pos + |batch|]
  {
    batch := [];
    while |batch| < 5
      invariant |batch| <= 5 && pos + |batch| <= |input| && |batch| <= Max(0, left)
      invariant batch == input[pos..pos + |batch|]
    {
      if |batch| >= left || pos + |batch| >= |input| {
        break;
      }
      batch := batch + [input[pos + |batch|]];
    }
  }

  /** The batch's frames `input[pos..pos+n]` go through the transformation
      in order, each result being written, until one raises. */
  method EncodeBatch<F>(input: seq<F>, t: F -> Outcome<F>, pos: nat, n: nat, written: seq<F>)
    returns (out: seq<F>, failure: Option<string>)
    requires pos + n <= |input|
    requires Encode(input[..pos], t) == Encoded(written, None)
    ensures failure.None? ==> Encode(input[..pos + n], t) == Encoded(out, None)
    ensures failure.Some? ==> Encode(input, t) == Encoded(out, failure) && |out| < pos + n
  {
    out := written;
    var b := 0;
    while b < n
      invariant 0 <= b <= n
      invariant Encode(input[..pos + b], t) == Encoded(out, None)
    {
      var r := t(input[pos + b]);
      if r.Raised? {
        EncodeFailsAt(input, t, pos + b);
        return out, Some(r.error);
      }
      EncodeExtend(input, t, pos + b);
      out := out + [r.value];
      b := b + 1;
    }
    failure := None;
  }
}
